/**
 * The XiaomiMiio platform object of index.js and the homebridge
 * PlatformAccessory objects it keeps, with their fields updated in place.
 * Each method is proved to change the registry exactly as the function of
 * the same operation in Registry says; `View()` is the registry as a value.
 */
module MiioPlatform {
  import opened Wrappers
  import opened Registry
  import opened Properties

  /** A PlatformAccessory: its persisted context, reachability, device handle and Outlet service. */
  class Accessory {
    const displayName: string
    const uuid: Uuid
    var context: Context
    var reachable: bool
    var miioDevice: Option<Device>
    var outlet: Option<Outlet>
    var bindings: nat

    /** The accessory as a value. */
    function Snapshot(): Record
      reads this
    {
      Record(displayName, uuid, context, reachable, miioDevice, outlet, bindings)
    }

    /** `new Accessory(displayName, uuid)`: an empty context, not reachable, no handle, no Outlet. */
    constructor (displayName: string, uuid: Uuid)
      ensures Snapshot() == Record(displayName, uuid, EmptyContext, false, None, None, 0)
    {
      this.displayName := displayName;
      this.uuid := uuid;
      context := EmptyContext;
      reachable := false;
      miioDevice := None;
      outlet := None;
      bindings := 0;
    }

    /**
     * An accessory homebridge restores from its cache: the persisted context
     * and services come back, the device handle and the handlers do not.
     */
    constructor Restored(displayName: string, uuid: Uuid, context: Context, reachable: bool, outlet: Option<Outlet>)
      ensures Snapshot() == Record(displayName, uuid, context, reachable, None, outlet, 0)
    {
      this.displayName := displayName;
      this.uuid := uuid;
      this.context := context;
      this.reachable := reachable;
      miioDevice := None;
      this.outlet := outlet;
      bindings := 0;
    }

    /**
     * What configureAccessory does to the accessory itself: it creates the
     * device handle if there is none and, for a switch plug, finds or adds
     * the Outlet service, marks it in use and binds its handlers once more.
     */
    method Equip()
      modifies this
      ensures Snapshot() == Configured(old(Snapshot()))
    {
      // The AccessoryInformation characteristics and stopMonitoring are not modelled.
      if miioDevice.None? {
        miioDevice := Some(Device(context.miioInfo));
      }
      if context.features.switchPlug {
        if outlet.None? {
          outlet := Some(Outlet(false, false));
        }
        // one more pair of set/get handlers on the On characteristic
        bindings := bindings + 1;
        outlet := Some(outlet.value.(inUse := true));
      }
    }

    /**
     * The handlers of pollDevices' `getProperties(["power"])` promise,
     * run as the promise settled (index.js:74-83).
     */
    method Settle(result: PollResult)
      modifies this
      ensures Snapshot() == PollRecord(old(Snapshot()), result)
    {
      match result {
        case Replied(power) =>
          UpdateReachability(true);
          if power.Some? {
            if outlet.Some? {
              outlet := Some(outlet.value.(on := power.value));
            } else {
              // getService gives undefined, the `then` handler throws and the `catch` handler runs
              UpdateReachability(false);
            }
          }
        case Failed =>
          UpdateReachability(false);
        case Pending =>
      }
    }

    /** `updateReachability(reachable)`. */
    method UpdateReachability(reachable: bool)
      modifies this
      ensures Snapshot() == old(Snapshot()).(reachable := reachable)
    {
      this.reachable := reachable;
    }
  }

  /** The accessories of a sequence, as values. */
  ghost function Snapshots(accessories: seq<Accessory>): (rs: seq<Record>)
    reads set a | a in accessories
    ensures |rs| == |accessories|
    ensures forall i | 0 <= i < |accessories| :: rs[i] == accessories[i].Snapshot()
    decreases |accessories|
  {
    if accessories == [] then []
    else [accessories[0].Snapshot()] + Snapshots(accessories[1..])
  }

  /** The accessories of a dictionary, as values. */
  ghost function Slots(m: map<Host, Option<Accessory>>): (slots: map<Host, Option<Record>>)
    reads set slot | slot in m.Values && slot.Some? :: slot.value
    ensures slots.Keys == m.Keys
  {
    map h | h in m :: if m[h].Some? then Some(m[h].value.Snapshot()) else None
  }

  /** Storing a slot stores its accessory's value. */
  lemma SlotsStore(m: map<Host, Option<Accessory>>, h: Host, slot: Option<Accessory>)
    ensures Slots(m[h := slot]) == Slots(m)[h := if slot.Some? then Some(slot.value.Snapshot()) else None]
  {
  }

  /** The accessory objects a dictionary holds. */
  ghost function Objects(m: map<Host, Option<Accessory>>): set<Accessory> {
    set slot | slot in m.Values && slot.Some? :: slot.value
  }

  /** Storing a slot adds at most its own accessory. */
  lemma ObjectsStore(m: map<Host, Option<Accessory>>, h: Host, slot: Option<Accessory>)
    ensures Objects(m[h := slot]) <= Objects(m) + (if slot.Some? then {slot.value} else {})
  {
    var m' := m[h := slot];
    forall a | a in Objects(m')
      ensures a in Objects(m) + (if slot.Some? then {slot.value} else {})
    {
      var k :| k in m' && m'[k] == Some(a);
      if k != h {
        assert m[k] in m.Values;
      }
    }
  }

  /** No accessory object sits under two keys of the dictionary. */
  ghost predicate InjectiveSlots(m: map<Host, Option<Accessory>>) {
    forall h, k | h in m && k in m && h != k && m[h].Some? && m[k].Some? :: m[h].value != m[k].value
  }

  /** Storing an accessory found under no other key keeps the dictionary injective. */
  lemma InjectiveStore(m: map<Host, Option<Accessory>>, h: Host, slot: Option<Accessory>)
    requires InjectiveSlots(m)
    requires slot.Some? ==> forall k | k in m && k != h && m[k].Some? :: m[k].value != slot.value
    ensures InjectiveSlots(m[h := slot])
  {
  }

  /** The platform object. */
  class XiaomiMiio {
    /** The running plugin version (`HKMiioVersion`, read from package.json). */
    const version: string
    const config: Option<Config>
    /** `this.accessories`: a host name to its accessory, or to `null` (None) after a purge. */
    var accessories: map<Host, Option<Accessory>>
    /** The order in which `for…in` and `Object.keys` enumerate `this.accessories`. */
    var order: seq<Host>
    /** Hosts of the accessories passed to `registerPlatformAccessories`, in call order. */
    ghost var registered: seq<Host>
    /** Addresses of the accessories passed to `unregisterPlatformAccessories`. */
    ghost var unregistered: seq<Host>
    /** The `getProperties` calls made, in order. */
    ghost var queries: seq<Query>

    ghost function Records(): set<Accessory>
      reads this
    {
      Objects(accessories)
    }

    /** The registry as a value. */
    ghost function View(): State
      reads this, Records()
    {
      State(Slots(accessories), order, registered, unregistered, queries)
    }

    /** No accessory object sits under two host names. */
    ghost predicate Injective()
      reads this
    {
      InjectiveSlots(accessories)
    }

    ghost predicate Valid()
      reads this, Records()
    {
      Injective() && WellFormed(View())
    }

    /** The platform constructor with an API object: an empty dictionary. */
    constructor (version: string, config: Option<Config>)
      ensures Valid() && View() == Empty
      ensures this.version == version && this.config == config
    {
      this.version := version;
      this.config := config;
      accessories := map[];
      order := [];
      registered := [];
      unregistered := [];
      queries := [];
    }

    /**
     * Changing the fields of the one accessory under `h`, and nothing else,
     * changes the registry at `h` only.
     */
    twostate lemma ViewAfterUpdate(h: Host)
      requires unchanged(this) && Injective()
      requires h in accessories && accessories[h].Some?
      requires forall k | k in accessories && k != h && accessories[k].Some? :: unchanged(accessories[k].value)
      ensures View() == old(View()).(slots := old(View()).slots[h := Some(accessories[h].value.Snapshot())])
    {
      var a := accessories[h].value;
      forall k | k in accessories
        ensures View().slots[k] == old(View()).slots[h := Some(a.Snapshot())][k]
      {
        if k != h && accessories[k].Some? {
          assert accessories[k].value != a;
        }
      }
    }

    /** Appending to the logs of bridge and device calls changes nothing but those logs. */
    twostate lemma ViewAfterLog()
      requires accessories == old(accessories) && order == old(order)
      requires forall a | a in Records() :: unchanged(a)
      ensures View() == old(View()).(registered := registered, unregistered := unregistered, queries := queries)
      ensures Records() == old(Records()) && Injective() == old(Injective())
    {
      forall k | k in accessories
        ensures View().slots[k] == old(View()).slots[k]
      {
        if accessories[k].Some? {
          assert accessories[k].value in Records();
        }
      }
    }

    /** In a registry keyed by address, an accessory stored anywhere sits under its own address. */
    lemma StoredUnderAddress(a: Accessory)
      requires Keyed(View())
      ensures forall h | h in accessories && accessories[h] == Some(a) :: h == a.context.miioInfo.address
    {
      forall h | h in accessories && accessories[h] == Some(a)
        ensures h == a.context.miioInfo.address
      {
        assert Holds(View(), h);
      }
    }

    /** `this.accessories[accessory.context.miioInfo.address] = accessory` (index.js:93). */
    method Store(accessory: Accessory)
      requires Injective() && Keyed(View())
      modifies this
      ensures Injective() && Records() <= old(Records()) + {accessory}
      ensures accessory.context.miioInfo.address in accessories
      ensures accessories[accessory.context.miioInfo.address] == Some(accessory)
      ensures View() == Put(old(View()), accessory.context.miioInfo.address, Some(accessory.Snapshot()))
    {
      var address := accessory.context.miioInfo.address;
      StoredUnderAddress(accessory);
      SlotsStore(accessories, address, Some(accessory));
      InjectiveStore(accessories, address, Some(accessory));
      if address !in accessories {
        order := order + [address];
      }
      accessories := accessories[address := Some(accessory)];
    }

    /** configureAccessory (index.js:91-123). */
    method ConfigureAccessory(accessory: Accessory)
      requires Injective() && Enumerates(order, accessories.Keys) && Keyed(View())
      requires HasDevicesBut(View(), Some(accessory.context.miioInfo.address))
      modifies this, accessory
      ensures Valid()
      ensures View() == Configure(old(View()), old(accessory.Snapshot()))
      ensures Records() <= old(Records()) + {accessory}
    {
      ghost var s := View();
      ghost var r := accessory.Snapshot();
      var address := accessory.context.miioInfo.address;
      Store(accessory);
      ghost var s1 := View();
      assert s1 == Put(s, address, Some(r));
      assert Injective();
      label Stored:
      accessory.Equip();
      ViewAfterUpdate@Stored(address);
      assert View() == Put(s1, address, Some(Configured(r)));
      PutOverwrites(s, address, Some(r), Some(Configured(r)));
      assert View() == Configure(s, r);
      ConfigureKeepsWellFormed(s, r);
    }

    /** The well-formedness addAccessory keeps between its two halves; see Properties.MarkPlugKeepsShape. */
    ghost predicate ValidBut(host: Host, isNew: bool)
      reads this, Records()
    {
      && Injective() && Enumerates(order, accessories.Keys)
      && KeyedBut(View(), host) && HasDevicesBut(View(), Some(host))
      && (!isNew ==> HasDevices(View()))
    }

    /** addAccessory (index.js:126-157); `info` is what `miio.infoFromHostname(hostname)` returns. */
    method AddAccessory(hostname: Host, port: int, info: HostInfo)
      requires Valid()
      modifies this, Records()
      ensures Valid()
      ensures View() == Add(old(View()), version, hostname, port, info)
      ensures fresh(Records() - old(Records()))
    {
      var isNew := hostname !in accessories || accessories[hostname].None?;
      ClaimHost(hostname, info, isNew);
      TakeAnnouncement(hostname, port, info, isNew);
    }

    /** index.js:129-142, the first half of addAccessory. */
    method ClaimHost(hostname: Host, info: HostInfo, isNew: bool)
      requires Valid() && isNew == IsNew(View(), hostname)
      modifies this, Records()
      ensures ValidBut(hostname, isNew)
      ensures View() == Registry.MarkPlug(old(View()), hostname, info)
      ensures fresh(Records() - old(Records()))
    {
      ghost var s := View();
      MarkPlugKeepsShape(s, hostname, info);
      if Supported(info.model) {
        if isNew {
          AddFresh(hostname, info.id);
        } else {
          assert accessories[hostname].value in Records();
        }
        ghost var s1 := View();
        MarkSwitchPlug(hostname, isNew);
        PutOverwrites(s, hostname, s1.slots[hostname], View().slots[hostname]);
      }
    }

    /** index.js:136-139: a new accessory for a host with none. */
    method AddFresh(hostname: Host, id: string)
      requires Valid() && IsNew(View(), hostname)
      modifies this
      ensures ValidBut(hostname, true)
      ensures View() == Put(old(View()), hostname, Some(Fresh(id, hostname)))
      ensures fresh(Records() - old(Records()))
      ensures hostname in accessories && accessories[hostname].Some? && fresh(accessories[hostname].value)
    {
      ghost var s := View();
      ghost var objects := Records();
      var accessory := new Accessory(PlugNamePrefix + id, UuidOf(hostname));
      assert Slots(accessories) == s.slots;
      SlotsStore(accessories, hostname, Some(accessory));
      ObjectsStore(accessories, hostname, Some(accessory));
      InjectiveStore(accessories, hostname, Some(accessory));
      if hostname !in accessories {
        order := order + [hostname];
      }
      accessories := accessories[hostname := Some(accessory)];
      assert Records() <= objects + {accessory};
      assert Slots(accessories) == s.slots[hostname := Some(Fresh(id, hostname))];
      assert View() == Put(s, hostname, Some(Fresh(id, hostname)));
      PutKeepsShapeBut(s, hostname, Some(Fresh(id, hostname)));
    }

    /** index.js:140: the accessory under the host is marked a switch plug. */
    method MarkSwitchPlug(hostname: Host, isNew: bool)
      requires ValidBut(hostname, isNew) && Holds(View(), hostname)
      modifies accessories[hostname].value
      ensures ValidBut(hostname, isNew) && accessories == old(accessories)
      ensures var r := old(View()).slots[hostname].value;
        View() == Put(old(View()), hostname, Some(r.(context := r.context.(features := Features(true)))))
    {
      var accessory := accessories[hostname].value;
      label Unmarked:
      accessory.context := accessory.context.(features := Features(true));
      ViewAfterUpdate@Unmarked(hostname);
      PutEnumerates(old(View()), hostname, Some(accessory.Snapshot()));
    }

    /** index.js:144-156, the second half of addAccessory. */
    method TakeAnnouncement(hostname: Host, port: int, info: HostInfo, isNew: bool)
      requires ValidBut(hostname, isNew)
      modifies this, Records()
      ensures Valid()
      ensures View() == Registry.Adopt(old(View()), version, hostname, port, info, isNew)
      ensures Records() <= old(Records())
    {
      ghost var s := View();
      AdoptKeepsWellFormed(s, version, hostname, port, info, isNew);
      if hostname in accessories && accessories[hostname].Some? {
        var accessory := accessories[hostname].value;
        StoreContactInfo(accessory, hostname, port, info, isNew);
        if isNew {
          label Unregistered:
          registered := registered + [hostname];
          ViewAfterLog@Unregistered();
          ConfigureAccessory(accessory);
        }
      }
    }

    /** index.js:146-149: the announced address, port and running version go into the accessory's context. */
    method StoreContactInfo(accessory: Accessory, hostname: Host, port: int, info: HostInfo, isNew: bool)
      requires ValidBut(hostname, isNew)
      requires hostname in accessories && accessories[hostname] == Some(accessory)
      modifies accessory
      ensures accessories == old(accessories)
      ensures Injective() && Enumerates(order, accessories.Keys) && Keyed(View())
      ensures HasDevicesBut(View(), Some(hostname)) && (!isNew ==> HasDevices(View()))
      ensures View() == Put(old(View()), hostname, Some(Announced(old(accessory.Snapshot()), version, hostname, port, info)))
    {
      ghost var s := View();
      ghost var r' := Announced(accessory.Snapshot(), version, hostname, port, info);
      label Unannounced:
      accessory.context := accessory.context.(miioInfo := MiioInfo(info.model, info.id, hostname, port),
                                              miioVersion := Some(version));
      accessory.UpdateReachability(true);
      ViewAfterUpdate@Unannounced(hostname);
      assert View() == Put(s, hostname, Some(r'));
      PutEnumerates(s, hostname, Some(r'));
    }

    /** `if (this.accessories[host]) this.accessories[host].updateReachability(reachable)`. */
    method UpdateReachabilityAt(host: Host, reachable: bool)
      requires Valid()
      modifies Records()
      ensures Valid()
      ensures View() == if Holds(old(View()), host) then SetReachable(old(View()), host, reachable) else old(View())
    {
      if host in accessories && accessories[host].Some? {
        ghost var s := View();
        assert accessories[host].value in Records();
        label Unset:
        accessories[host].value.UpdateReachability(reachable);
        ViewAfterUpdate@Unset(host);
        ReachableKeepsWellFormed(s, host, reachable);
      }
    }

    /** The mDNS `serviceUp` handler (index.js:48-53). */
    method ServiceUp(host: Host, port: int, info: HostInfo)
      requires Valid()
      modifies this, Records()
      ensures Valid()
      ensures View() == Up(old(View()), version, host, port, info)
      ensures fresh(Records() - old(Records()))
    {
      AddAccessory(host, port, info);
      UpdateReachabilityAt(host, true);
    }

    /** The mDNS `serviceDown` handler (index.js:54-57). */
    method ServiceDown(host: Host)
      requires Valid()
      modifies Records()
      ensures Valid()
      ensures View() == Down(old(View()), host)
    {
      UpdateReachabilityAt(host, false);
    }

    /** The accessories under `hosts` written by another plugin version, in order (index.js:41-42). */
    function OutdatedAccessories(hosts: seq<Host>): seq<Accessory>
      reads this, Records()
      requires forall h | h in hosts :: h in accessories && accessories[h].Some?
      decreases |hosts|
    {
      if hosts == [] then []
      else
        assert hosts[0] in hosts;
        var a := accessories[hosts[0]].value;
        assert a in Records();
        (if a.context.miioVersion != Some(version) then [a] else []) + OutdatedAccessories(hosts[1..])
    }

    /** The outdated accessories are those of the registry's Outdated, as objects. */
    lemma {:induction false} OutdatedAccessoriesAre(hosts: seq<Host>)
      requires forall h | h in hosts :: h in accessories && accessories[h].Some?
      ensures forall a | a in OutdatedAccessories(hosts) :: a in Records()
      ensures forall h | h in hosts :: Holds(View(), h)
      ensures Snapshots(OutdatedAccessories(hosts)) == Outdated(View(), hosts, version)
      decreases |hosts|
    {
      if hosts != [] {
        assert hosts[0] in hosts;
        var a := accessories[hosts[0]].value;
        assert a in Records();
        assert View().slots[hosts[0]] == Some(a.Snapshot());
        OutdatedAccessoriesAre(hosts[1..]);
        var head := if a.context.miioVersion != Some(version) then [a] else [];
        assert Snapshots(head + OutdatedAccessories(hosts[1..])) == Snapshots(head) + Snapshots(OutdatedAccessories(hosts[1..]));
      }
    }

    /** The sweep at `didFinishLaunching` (index.js:40-44). */
    method PurgeOutdated()
      requires Valid() && NoNulls(View())
      modifies this
      ensures Valid()
      ensures forall h | h in old(View()).order :: Holds(old(View()), h)
      ensures View() == Purge(old(View()), version)
      ensures Records() <= old(Records())
    {
      ghost var s := View();
      OutdatedAtLaunch();
      var outdated := OutdatedAccessories(order);
      ghost var rs := Snapshots(outdated);
      assert rs == Outdated(s, s.order, version);
      Unregister(outdated);
      ghost var s1 := View();
      assert Snapshots(outdated) == rs;
      assert s1 == s.(unregistered := s.unregistered + Addresses(rs));
      NullOutdated(outdated);
      assert Snapshots(outdated) == rs;
      assert View() == NullEach(s1, rs);
      assert View() == Purge(s, version);
      PurgeLeavesCurrent(s, version);
    }

    /** With no `null` slot every key holds an accessory, and the outdated ones are the registry's Outdated. */
    lemma OutdatedAtLaunch()
      requires Valid() && NoNulls(View())
      ensures forall h | h in order :: h in accessories && accessories[h].Some?
      ensures forall h | h in View().order :: Holds(View(), h)
      ensures Snapshots(OutdatedAccessories(order)) == Outdated(View(), View().order, version)
    {
      forall h | h in order
        ensures h in accessories && accessories[h].Some?
      {
        assert Holds(View(), h);
      }
      OutdatedAccessoriesAre(order);
    }

    /** `api.unregisterPlatformAccessories(…, outdated)`: the bridge is told which accessories go. */
    method Unregister(outdated: seq<Accessory>)
      modifies this
      ensures accessories == old(accessories) && order == old(order) && Injective() == old(Injective())
      ensures View() == old(View()).(unregistered := old(View()).unregistered + Addresses(Snapshots(outdated)))
      ensures Snapshots(outdated) == old(Snapshots(outdated))
    {
      label Unlogged:
      unregistered := unregistered + Addresses(Snapshots(outdated));
      ViewAfterLog@Unlogged();
    }

    /** `outdated.forEach(a => this.accessories[a.context.miioInfo.address] = null)` (index.js:44). */
    method NullOutdated(outdated: seq<Accessory>)
      requires Injective()
      modifies this
      ensures Injective() && Records() <= old(Records())
      ensures View() == NullEach(old(View()), old(Snapshots(outdated)))
      ensures Snapshots(outdated) == old(Snapshots(outdated))
    {
      ghost var rs := Snapshots(outdated);
      ghost var target := NullEach(View(), rs);
      var i := 0;
      while i < |outdated|
        invariant 0 <= i <= |outdated|
        invariant Injective() && Records() <= old(Records())
        invariant NullEach(View(), rs[i..]) == target
      {
        var address := outdated[i].context.miioInfo.address;
        assert address == rs[i].context.miioInfo.address;
        NullEachStep(View(), rs, i);
        NullSlot(address);
        i := i + 1;
      }
    }

    /** `this.accessories[address] = null`. */
    method NullSlot(address: Host)
      requires Injective()
      modifies this
      ensures Injective() && Records() <= old(Records())
      ensures View() == Put(old(View()), address, None)
    {
      SlotsStore(accessories, address, None);
      InjectiveStore(accessories, address, None);
      if address !in accessories {
        order := order + [address];
      }
      accessories := accessories[address := None];
    }

    /**
     * One turn of pollDevices' loop (index.js:69-84) at a slot that is not
     * `null`; the promise settles as `outcome` says.
     */
    method PollAccessory(host: Host, outcome: Host -> PollResult)
      requires Valid() && host in accessories && accessories[host].Some?
      modifies this, accessories[host].value
      ensures Valid() && accessories == old(accessories)
      ensures View() == PollHost(old(View()), host, outcome)
    {
      ghost var s := View();
      var accessory := accessories[host].value;
      assert accessory in Records() && View().slots[host] == Some(accessory.Snapshot());
      var props: seq<string> := [];
      if accessory.context.features.switchPlug {
        props := props + ["power"];
      }
      if |props| > 0 {
        label Unqueried:
        queries := queries + [Query(host, accessory.miioDevice.value, props)];
        ViewAfterLog@Unqueried();
        ghost var s1 := View();
        label Unsettled:
        accessory.Settle(outcome(host));
        assert accessory.Snapshot() == PollRecord(s.slots[host].value, outcome(host));
        ViewAfterUpdate@Unsettled(host);
        assert props == PowerQuery;
        assert View() == PollHost(s, host, outcome);
      }
      PollHostKeepsWellFormed(s, host, outcome);
    }

    /** pollDevices (index.js:68-86), passing over `null` slots. */
    method PollDevices(outcome: Host -> PollResult)
      requires Valid()
      modifies this, Records()
      ensures Valid() && accessories == old(accessories)
      ensures View() == Poll(old(View()), outcome)
    {
      ghost var target := Poll(View(), outcome);
      var i := 0;
      while i < |order|
        invariant 0 <= i <= |order|
        invariant accessories == old(accessories) && order == old(order)
        invariant Valid()
        invariant PollHosts(View(), order[i..], outcome) == target
        decreases |order| - i
      {
        var host := order[i];
        assert host in accessories;
        match accessories[host] {
          case None =>
            // a slot the startup sweep set to `null`; see Findings
            assert !IsPlug(View(), host);
          case Some(accessory) =>
            assert accessory in old(Records());
            PollAccessory(host, outcome);
        }
        assert order[i..][1..] == order[i + 1..];
        i := i + 1;
      }
    }

    /**
     * The `didFinishLaunching` handler (index.js:37-64): the sweep, the
     * poll timer's period (None when polling is switched off) and the first
     * poll.  The mDNS browser's events are ServiceUp and ServiceDown.
     */
    method DidFinishLaunching(outcome: Host -> PollResult) returns (pollPeriod: Option<int>)
      requires Valid() && NoNulls(View())
      modifies this, Records()
      ensures Valid()
      ensures forall h | h in old(View()).order :: Holds(old(View()), h)
      ensures HasDevices(Purge(old(View()), version))
      ensures View() == Poll(Purge(old(View()), version), outcome)
      ensures pollPeriod == PollTimer(config)
      ensures Records() <= old(Records())
    {
      PurgeOutdated();
      pollPeriod := PollTimer(config);
      PollDevices(outcome);
    }
  }
}
