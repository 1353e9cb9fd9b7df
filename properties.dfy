/**
 * What the operations of the registry promise, proved about the functions
 * of Registry.
 */
module Properties {
  import opened Wrappers
  import opened Registry

  // ------------------------------------------------------- model matching

  /** The model test is substring search: `Contains` holds exactly when `pat` occurs somewhere in `s`. */
  lemma {:induction false} ContainsIsSubstring(s: string, pat: string)
    ensures Contains(s, pat) <==> exists i: nat :: OccursAt(s, pat, i)
    decreases |s|
  {
    if |s| < |pat| {
      forall i: nat ensures !OccursAt(s, pat, i) { }
    } else if s[..|pat|] == pat {
      assert OccursAt(s, pat, 0);
    } else {
      ContainsIsSubstring(s[1..], pat);
      if Contains(s[1..], pat) {
        var j: nat :| OccursAt(s[1..], pat, j);
        assert s[1..][j..j + |pat|] == s[j + 1..j + 1 + |pat|];
        assert OccursAt(s, pat, j + 1);
      }
      if i: nat :| OccursAt(s, pat, i) {
        assert i != 0;
        assert s[1..][i - 1..i - 1 + |pat|] == s[i..i + |pat|];
        assert OccursAt(s[1..], pat, i - 1);
      }
    }
  }

  /** Every model whose name contains "chuangmi-plug" is supported, wherever it occurs. */
  lemma PlugModelsAreSupported(prefix: string, suffix: string)
    ensures Supported(prefix + PlugModel + suffix)
  {
    var m := prefix + PlugModel + suffix;
    assert m[|prefix|..|prefix| + |PlugModel|] == PlugModel;
    assert OccursAt(m, PlugModel, |prefix|);
    ContainsIsSubstring(m, PlugModel);
  }

  // ------------------------------------------------------------- invariant

  lemma PutEnumerates(s: State, h: Host, slot: Option<Record>)
    requires Enumerates(s.order, s.slots.Keys)
    ensures Enumerates(Put(s, h, slot).order, Put(s, h, slot).slots.Keys)
  {
  }

  /** A store under `h` keeps the invariant everywhere but at `h`. */
  lemma PutKeepsShapeBut(s: State, h: Host, slot: Option<Record>)
    requires WellFormed(s)
    ensures var s' := Put(s, h, slot);
      Enumerates(s'.order, s'.slots.Keys) && KeyedBut(s', h) && HasDevicesBut(s', Some(h))
  {
    PutEnumerates(s, h, slot);
  }

  /** A second store under the same host replaces the first. */
  lemma PutOverwrites(s: State, h: Host, first: Option<Record>, second: Option<Record>)
    ensures Put(Put(s, h, first), h, second) == Put(s, h, second)
  {
  }

  /** One step of the nulling sweep, from the `i`-th record on. */
  lemma NullEachStep(s: State, rs: seq<Record>, i: nat)
    requires i < |rs|
    ensures NullEach(s, rs[i..]) == NullEach(Put(s, rs[i].context.miioInfo.address, None), rs[i + 1..])
  {
    assert rs[i..][0] == rs[i] && rs[i..][1..] == rs[i + 1..];
  }

  /** configureAccessory keeps the registry well formed; it also gives the accessory it stores its handle. */
  lemma ConfigureKeepsWellFormed(s: State, r: Record)
    requires Enumerates(s.order, s.slots.Keys) && Keyed(s)
    requires HasDevicesBut(s, Some(r.context.miioInfo.address))
    ensures WellFormed(Configure(s, r))
  {
    PutEnumerates(s, r.context.miioInfo.address, Some(Configured(r)));
  }

  /**
   * Between its two halves addAccessory leaves the registry well formed
   * except at the announced host, whose accessory may still lack its
   * address and handle; an accessory that was there already has both.
   */
  lemma MarkPlugKeepsShape(s: State, host: Host, info: HostInfo)
    requires WellFormed(s)
    ensures var s1 := MarkPlug(s, host, info);
      && Enumerates(s1.order, s1.slots.Keys) && KeyedBut(s1, host) && HasDevicesBut(s1, Some(host))
      && (!IsNew(s, host) ==> HasDevices(s1))
  {
    if Supported(info.model) {
      var base := if IsNew(s, host) then Fresh(info.id, host) else s.slots[host].value;
      PutEnumerates(s, host, Some(base.(context := base.context.(features := Features(true)))));
    }
  }

  /** The second half of addAccessory restores the invariant. */
  lemma AdoptKeepsWellFormed(s: State, v: string, host: Host, port: int, info: HostInfo, isNew: bool)
    requires Enumerates(s.order, s.slots.Keys) && KeyedBut(s, host) && HasDevicesBut(s, Some(host))
    requires !isNew ==> HasDevices(s)
    ensures WellFormed(Adopt(s, v, host, port, info, isNew))
  {
    if Holds(s, host) {
      var r' := Announced(s.slots[host].value, v, host, port, info);
      PutEnumerates(s, host, Some(r'));
      if isNew {
        var s2 := Put(s, host, Some(r'));
        ConfigureKeepsWellFormed(s2.(registered := s2.registered + [host]), r');
      }
    }
  }

  /** addAccessory keeps the registry well formed: one accessory per host, under its own address, with a handle. */
  lemma AddKeepsWellFormed(s: State, v: string, host: Host, port: int, info: HostInfo)
    requires WellFormed(s)
    ensures WellFormed(Add(s, v, host, port, info))
  {
    MarkPlugKeepsShape(s, host, info);
    AdoptKeepsWellFormed(MarkPlug(s, host, info), v, host, port, info, IsNew(s, host));
  }

  /** The serviceDown handler keeps the registry well formed. */
  lemma DownKeepsWellFormed(s: State, host: Host)
    requires WellFormed(s)
    ensures WellFormed(Down(s, host))
  {
    if Holds(s, host) {
      PutEnumerates(s, host, Some(s.slots[host].value.(reachable := false)));
    }
  }

  /** The serviceUp handler keeps the registry well formed. */
  lemma UpKeepsWellFormed(s: State, v: string, host: Host, port: int, info: HostInfo)
    requires WellFormed(s)
    ensures WellFormed(Up(s, v, host, port, info))
  {
    AddKeepsWellFormed(s, v, host, port, info);
    if Holds(Add(s, v, host, port, info), host) {
      ReachableKeepsWellFormed(Add(s, v, host, port, info), host, true);
    }
  }

  lemma ReachableKeepsWellFormed(s: State, host: Host, b: bool)
    requires WellFormed(s) && Holds(s, host)
    ensures WellFormed(SetReachable(s, host, b))
  {
    PutEnumerates(s, host, Some(s.slots[host].value.(reachable := b)));
  }

  // ---------------------------------------------------------- addAccessory

  /**
   * A supported model announced on a host with no accessory (or a purged
   * one): exactly one new accessory under that host, a plug of the running
   * version at the announced address and port, reachable, registered with
   * the bridge exactly once and then configured (handle made from its info,
   * Outlet service added and marked in use, one handler pair attached).
   * Nothing else in the registry changes.
   */
  lemma AddNewSupported(s: State, v: string, host: Host, port: int, info: HostInfo)
    requires IsNew(s, host) && Supported(info.model)
    ensures var s' := Add(s, v, host, port, info);
      && Holds(s', host)
      && var r := s'.slots[host].value;
      && r.displayName == PlugNamePrefix + info.id && r.uuid == UuidOf(host)
      && r.context == Context(Features(true), MiioInfo(info.model, info.id, host, port), Some(v))
      && r.reachable
      && r.device == Some(Device(r.context.miioInfo))
      && r.outlet == Some(Outlet(false, true)) && r.bindings == 1
      && s'.slots.Keys == s.slots.Keys + {host}
      && (forall h | h in s.slots && h != host :: s'.slots[h] == s.slots[h])
      && s'.order == (if host in s.slots then s.order else s.order + [host])
      && s'.registered == s.registered + [host]
      && s'.unregistered == s.unregistered && s'.queries == s.queries
  {
  }

  /** An unsupported model on a host with no accessory: the registry and every log are unchanged. */
  lemma AddNewUnsupported(s: State, v: string, host: Host, port: int, info: HostInfo)
    requires IsNew(s, host) && !Supported(info.model)
    ensures Add(s, v, host, port, info) == s
  {
  }

  /**
   * An announcement for a host that already has an accessory updates that
   * accessory in place: new info and version, reachable again, features
   * reset to a plug only for a supported model.  It is neither registered
   * nor configured again, so its handle, Outlet and handlers stay as they
   * were (the handle keeps the info it was made from).
   */
  lemma AddExisting(s: State, v: string, host: Host, port: int, info: HostInfo)
    requires Holds(s, host)
    ensures var s' := Add(s, v, host, port, info);
      var r := s.slots[host].value;
      && Holds(s', host)
      && var r' := s'.slots[host].value;
      && r'.context.miioInfo == MiioInfo(info.model, info.id, host, port)
      && r'.context.miioVersion == Some(v)
      && r'.context.features == (if Supported(info.model) then Features(true) else r.context.features)
      && r'.reachable
      && r'.displayName == r.displayName && r'.uuid == r.uuid
      && r'.device == r.device && r'.outlet == r.outlet && r'.bindings == r.bindings
      && s'.slots.Keys == s.slots.Keys && s'.order == s.order
      && (forall h | h in s.slots && h != host :: s'.slots[h] == s.slots[h])
      && s'.registered == s.registered
      && s'.unregistered == s.unregistered && s'.queries == s.queries
  {
  }

  /** addAccessory registers an accessory exactly when the host is new and the model supported, and then only that host. */
  lemma AddRegistersOnlyNewPlugs(s: State, v: string, host: Host, port: int, info: HostInfo)
    ensures var s' := Add(s, v, host, port, info);
      && (IsNew(s, host) && Supported(info.model) ==> s'.registered == s.registered + [host])
      && (!(IsNew(s, host) && Supported(info.model)) ==> s'.registered == s.registered)
  {
  }

  // ------------------------------------------------------- mDNS handlers

  /**
   * serviceDown never removes or adds a key and touches no other host: the
   * accessory under the host, if any, only becomes unreachable, and an
   * unknown or purged host is left alone.
   */
  lemma DownKeepsRecords(s: State, host: Host)
    ensures var s' := Down(s, host);
      && s'.slots.Keys == s.slots.Keys && s'.order == s.order
      && (forall h | h in s.slots && h != host :: s'.slots[h] == s.slots[h])
      && (Holds(s, host) ==> s'.slots[host] == Some(s.slots[host].value.(reachable := false)))
      && (!Holds(s, host) ==> s' == s)
      && s'.registered == s.registered && s'.unregistered == s.unregistered && s'.queries == s.queries
  {
  }

  /** The reachability update after addAccessory in serviceUp changes nothing: addAccessory already set it. */
  lemma UpIsAdd(s: State, v: string, host: Host, port: int, info: HostInfo)
    ensures Up(s, v, host, port, info) == Add(s, v, host, port, info)
  {
    var s1 := Add(s, v, host, port, info);
    if Holds(s1, host) {
      assert s1.slots[host].value.reachable;
      assert s1.slots[host].value.(reachable := true) == s1.slots[host].value;
    }
  }

  /** After serviceUp, whatever accessory the host has is reachable. */
  lemma UpMakesReachable(s: State, v: string, host: Host, port: int, info: HostInfo)
    ensures var s' := Up(s, v, host, port, info);
      Holds(s', host) ==> s'.slots[host].value.reachable
  {
  }

  /**
   * A device that vanishes and is announced again keeps its accessory: the
   * same display name, UUID, handle, Outlet and handlers, no new
   * registration, reachable again; its features survive unless the model is
   * a supported plug, which resets them to a plug.
   */
  lemma VanishThenAnnounce(s: State, v: string, host: Host, port: int, info: HostInfo)
    requires Holds(s, host)
    ensures var s' := Up(Down(s, host), v, host, port, info);
      var r := s.slots[host].value;
      && Holds(s', host)
      && var r' := s'.slots[host].value;
      && r'.reachable
      && r'.displayName == r.displayName && r'.uuid == r.uuid
      && r'.device == r.device && r'.outlet == r.outlet && r'.bindings == r.bindings
      && r'.context.features == (if Supported(info.model) then Features(true) else r.context.features)
      && s'.registered == s.registered && s'.slots.Keys == s.slots.Keys
  {
    DownKeepsRecords(s, host);
    UpIsAdd(Down(s, host), v, host, port, info);
    AddExisting(Down(s, host), v, host, port, info);
  }

  // ------------------------------------------------------ configureAccessory

  /**
   * configureAccessory stores the accessory under its address; it makes a
   * handle from the accessory's info only when there is none, and for a plug
   * adds the Outlet only when it is missing (an existing Outlet keeps its On
   * value) and marks it in use.
   */
  lemma ConfigureStores(s: State, r: Record)
    ensures var s' := Configure(s, r);
      var a := r.context.miioInfo.address;
      && Holds(s', a)
      && var r' := s'.slots[a].value;
      && r'.context == r.context && r'.reachable == r.reachable
      && r'.displayName == r.displayName && r'.uuid == r.uuid
      && r'.device == (if r.device.Some? then r.device else Some(Device(r.context.miioInfo)))
      && (r.context.features.switchPlug ==>
            && r'.outlet.Some? && r'.outlet.value.inUse
            && (r.outlet.Some? ==> r'.outlet.value.on == r.outlet.value.on))
      && (!r.context.features.switchPlug ==> r'.outlet == r.outlet)
      && (forall h | h in s.slots && h != a :: s'.slots[h] == s.slots[h])
      && s'.registered == s.registered && s'.unregistered == s.unregistered && s'.queries == s.queries
  {
  }

  /**
   * configureAccessory is idempotent on the accessory it has configured,
   * save that each call attaches one more pair of get/set handlers to a
   * plug's On characteristic.
   */
  lemma ConfigureIdempotent(s: State, r: Record)
    ensures var s1 := Configure(s, r);
      var s2 := Configure(s1, Configured(r));
      var a := r.context.miioInfo.address;
      && s2.slots.Keys == s1.slots.Keys && s2.order == s1.order
      && (forall h | h in s1.slots && h != a :: s2.slots[h] == s1.slots[h])
      && s2.slots[a] == Some(Configured(r).(bindings := Configured(Configured(r)).bindings))
      && (r.context.features.switchPlug ==> Configured(Configured(r)).bindings == r.bindings + 2)
      && (!r.context.features.switchPlug ==> s2 == s1)
      && s2.registered == s1.registered && s2.unregistered == s1.unregistered && s2.queries == s1.queries
  {
  }

  // ------------------------------------------------------- startup sweep

  lemma {:induction false} AddressesAppend(a: seq<Record>, b: seq<Record>)
    ensures Addresses(a + b) == Addresses(a) + Addresses(b)
    decreases |a|
  {
    if a == [] {
      assert a + b == b;
    } else {
      assert (a + b)[0] == a[0] && (a + b)[1..] == a[1..] + b;
      AddressesAppend(a[1..], b);
    }
  }

  /** Nulling the slots at the given accessories' addresses, one after another. */
  lemma {:induction false} NullEachEffect(s: State, rs: seq<Record>)
    requires forall i | 0 <= i < |rs| :: rs[i].context.miioInfo.address in s.slots
    ensures var s' := NullEach(s, rs);
      && s'.slots.Keys == s.slots.Keys && s'.order == s.order
      && (forall h | h in s.slots :: s'.slots[h] == if h in Addresses(rs) then None else s.slots[h])
      && s'.registered == s.registered && s'.unregistered == s.unregistered && s'.queries == s.queries
    decreases |rs|
  {
    if rs != [] {
      var s1 := Put(s, rs[0].context.miioInfo.address, None);
      assert forall i | 0 <= i < |rs[1..]| :: rs[1..][i] == rs[i + 1];
      NullEachEffect(s1, rs[1..]);
    }
  }

  /** The filter of the sweep picks the stale accessories among `hosts`, in order, each once. */
  lemma {:induction false} OutdatedAddresses(s: State, hosts: seq<Host>, v: string)
    requires Keyed(s) && forall h | h in hosts :: Holds(s, h)
    ensures var out := Outdated(s, hosts, v);
      && (forall h :: h in Addresses(out) <==> h in hosts && Stale(s.slots[h].value, v))
      && (forall i | 0 <= i < |out| :: out[i].context.miioInfo.address in s.slots)
      && (Distinct(hosts) ==> Distinct(Addresses(out)))
    decreases |hosts|
  {
    if hosts != [] {
      assert hosts[0] in hosts && Holds(s, hosts[0]);
      var r := s.slots[hosts[0]].value;
      var head := if Stale(r, v) then [r] else [];
      var rest := Outdated(s, hosts[1..], v);
      OutdatedAddresses(s, hosts[1..], v);
      AddressesAppend(head, rest);
      assert Outdated(s, hosts, v) == head + rest;
      assert forall h :: h in hosts <==> h == hosts[0] || h in hosts[1..];
      if Distinct(hosts) {
        assert Distinct(hosts[1..]);
        assert hosts[0] !in hosts[1..];
        assert Addresses(head) == if Stale(r, v) then [hosts[0]] else [];
      }
    }
  }

  /**
   * The startup sweep: every accessory whose stored version is not the
   * running one is unregistered (each once) and its slot is set to `null`;
   * every other accessory, the keys and their order are untouched, and
   * nothing is registered.
   */
  lemma PurgeSweep(s: State, v: string)
    requires WellFormed(s) && NoNulls(s)
    ensures forall h | h in s.order :: Holds(s, h)
    ensures var s' := Purge(s, v);
      && s'.slots.Keys == s.slots.Keys && s'.order == s.order
      && (forall h | h in s.slots :: s'.slots[h] == if Stale(s.slots[h].value, v) then None else s.slots[h])
      && s'.registered == s.registered && s'.queries == s.queries
      && |s'.unregistered| >= |s.unregistered| && s'.unregistered[..|s.unregistered|] == s.unregistered
      && var gone := s'.unregistered[|s.unregistered|..];
         Distinct(gone) && forall h :: h in gone <==> h in s.slots && Stale(s.slots[h].value, v)
  {
    var out := Outdated(s, s.order, v);
    OutdatedAddresses(s, s.order, v);
    var s0 := s.(unregistered := s.unregistered + Addresses(out));
    NullEachEffect(s0, out);
    assert s0.unregistered[|s.unregistered|..] == Addresses(out);
  }

  /** After the sweep the registry is still well formed and every accessory left is of the running version. */
  lemma PurgeLeavesCurrent(s: State, v: string)
    requires WellFormed(s) && NoNulls(s)
    ensures forall h | h in s.order :: Holds(s, h)
    ensures WellFormed(Purge(s, v))
    ensures forall h | Holds(Purge(s, v), h) :: !Stale(Purge(s, v).slots[h].value, v)
  {
    PurgeSweep(s, v);
  }

  /**
   * A host whose accessory the sweep purged counts as new again: a later
   * supported announcement creates a fresh accessory of the running version
   * under it and registers it once more, without a second key.
   */
  lemma RediscoveryAfterPurge(s: State, v: string, host: Host, port: int, info: HostInfo)
    requires WellFormed(s) && NoNulls(s)
    requires host in s.slots && Stale(s.slots[host].value, v) && Supported(info.model)
    ensures forall h | h in s.order :: Holds(s, h)
    ensures var p := Purge(s, v);
      var s' := Add(p, v, host, port, info);
      && IsNew(p, host) && host in p.unregistered
      && s'.registered == s.registered + [host]
      && Holds(s', host)
      && var r := s'.slots[host].value;
      && r.uuid == UuidOf(host) && r.context.miioVersion == Some(v) && r.reachable
      && r.device == Some(Device(MiioInfo(info.model, info.id, host, port))) && r.bindings == 1
      && s'.slots.Keys == s.slots.Keys && s'.order == s.order
  {
    PurgeSweep(s, v);
    var p := Purge(s, v);
    assert host in p.unregistered[|s.unregistered|..];
    AddNewSupported(p, v, host, port, info);
  }

  // ------------------------------------------------------------- polling

  lemma {:induction false} QueryHostsAppend(a: seq<Query>, b: seq<Query>)
    ensures QueryHosts(a + b) == QueryHosts(a) + QueryHosts(b)
    decreases |a|
  {
    if a == [] {
      assert a + b == b;
    } else {
      assert (a + b)[0] == a[0] && (a + b)[1..] == a[1..] + b;
      QueryHostsAppend(a[1..], b);
    }
  }

  /** A poll of one host keeps the registry well formed: polling changes no address, handle or key. */
  lemma PollHostKeepsWellFormed(s: State, h: Host, outcome: Host -> PollResult)
    requires WellFormed(s)
    ensures WellFormed(PollHost(s, h, outcome))
  {
    PollHostEffect(s, h, outcome);
  }

  /** One step of pollDevices' loop touches only the visited slot and logs at most its query. */
  lemma PollHostEffect(s: State, h0: Host, outcome: Host -> PollResult)
    requires HasDevices(s)
    ensures var s1 := PollHost(s, h0, outcome);
      && s1.slots.Keys == s.slots.Keys && s1.order == s.order
      && s1.registered == s.registered && s1.unregistered == s.unregistered
      && (forall h :: IsPlug(s1, h) == IsPlug(s, h))
      && (forall h | h in s.slots && h != h0 :: s1.slots[h] == s.slots[h])
      && (IsPlug(s, h0) ==> s1.slots[h0] == Some(PollRecord(s.slots[h0].value, outcome(h0))))
      && (!IsPlug(s, h0) ==> s1 == s)
      && s1.queries == s.queries + (if IsPlug(s, h0) then [Query(h0, s.slots[h0].value.device.value, PowerQuery)] else [])
  {
  }

  /** What pollDevices' loop over distinct `hosts` does to the slots. */
  lemma {:induction false} PollHostsSlots(s: State, hosts: seq<Host>, outcome: Host -> PollResult)
    requires HasDevices(s) && Distinct(hosts)
    ensures var s' := PollHosts(s, hosts, outcome);
      && s'.slots.Keys == s.slots.Keys && s'.order == s.order
      && s'.registered == s.registered && s'.unregistered == s.unregistered
      && (forall h | h in s.slots :: s'.slots[h] ==
            if h in hosts && IsPlug(s, h) then Some(PollRecord(s.slots[h].value, outcome(h))) else s.slots[h])
    decreases |hosts|
  {
    if hosts != [] {
      var h0 := hosts[0];
      var s1 := PollHost(s, h0, outcome);
      assert Distinct(hosts[1..]);
      assert h0 !in hosts[1..];
      PollHostEffect(s, h0, outcome);
      PollHostsSlots(s1, hosts[1..], outcome);
      assert forall h :: h in hosts <==> h == h0 || h in hosts[1..];
    }
  }

  /** The `["power"]` queries for the plugs among `hosts`, in order. */
  ghost function PlugQueries(s: State, hosts: seq<Host>): seq<Query>
    requires HasDevices(s)
    decreases |hosts|
  {
    if hosts == [] then []
    else
      (if IsPlug(s, hosts[0]) then [Query(hosts[0], s.slots[hosts[0]].value.device.value, PowerQuery)] else [])
      + PlugQueries(s, hosts[1..])
  }

  /** Polling one host changes no plug's status or handle, so the queries for any hosts stay the same. */
  lemma {:induction false} PlugQueriesStable(s: State, h0: Host, hs: seq<Host>, outcome: Host -> PollResult)
    requires HasDevices(s)
    ensures PlugQueries(PollHost(s, h0, outcome), hs) == PlugQueries(s, hs)
    decreases |hs|
  {
    if hs != [] {
      PollHostEffect(s, h0, outcome);
      PlugQueriesStable(s, h0, hs[1..], outcome);
    }
  }

  /** pollDevices' loop over `hosts` logs exactly the plug queries for them. */
  lemma {:induction false} PollHostsLog(s: State, hosts: seq<Host>, outcome: Host -> PollResult)
    requires HasDevices(s)
    ensures PollHosts(s, hosts, outcome).queries == s.queries + PlugQueries(s, hosts)
    decreases |hosts|
  {
    if hosts != [] {
      var s1 := PollHost(s, hosts[0], outcome);
      PollHostEffect(s, hosts[0], outcome);
      PollHostsLog(s1, hosts[1..], outcome);
      PlugQueriesStable(s, hosts[0], hosts[1..], outcome);
    }
  }

  /** The plug queries for distinct hosts go to distinct hosts, exactly the plugs, for `["power"]`, through their handles. */
  lemma {:induction false} PlugQueriesFacts(s: State, hosts: seq<Host>)
    requires HasDevices(s) && Distinct(hosts)
    ensures var q := PlugQueries(s, hosts);
      && Distinct(QueryHosts(q))
      && (forall h :: h in QueryHosts(q) <==> h in hosts && IsPlug(s, h))
      && (forall i | 0 <= i < |q| :: q[i].props == PowerQuery && IsPlug(s, q[i].host)
                                    && q[i].device == s.slots[q[i].host].value.device.value)
    decreases |hosts|
  {
    if hosts != [] {
      var h0 := hosts[0];
      assert Distinct(hosts[1..]);
      assert h0 !in hosts[1..];
      PlugQueriesFacts(s, hosts[1..]);
      var head := if IsPlug(s, h0) then [Query(h0, s.slots[h0].value.device.value, PowerQuery)] else [];
      var rest := PlugQueries(s, hosts[1..]);
      assert PlugQueries(s, hosts) == head + rest;
      QueryHostsAppend(head, rest);
      assert QueryHosts(head) == if IsPlug(s, h0) then [h0] else [];
      assert forall h :: h in hosts <==> h == h0 || h in hosts[1..];
    }
  }

  /** The queries pollDevices' loop over distinct `hosts` issues: one `["power"]` query per plug among them. */
  lemma PollHostsQueries(s: State, hosts: seq<Host>, outcome: Host -> PollResult)
    requires HasDevices(s) && Distinct(hosts)
    ensures var s' := PollHosts(s, hosts, outcome);
      && |s'.queries| >= |s.queries| && s'.queries[..|s.queries|] == s.queries
      && var q := s'.queries[|s.queries|..];
         && Distinct(QueryHosts(q))
         && (forall h :: h in QueryHosts(q) <==> h in hosts && IsPlug(s, h))
         && (forall i | 0 <= i < |q| :: q[i].props == PowerQuery && IsPlug(s, q[i].host)
                                       && q[i].device == s.slots[q[i].host].value.device.value)
  {
    PollHostsLog(s, hosts, outcome);
    PlugQueriesFacts(s, hosts);
    var s' := PollHosts(s, hosts, outcome);
    assert s'.queries[|s.queries|..] == PlugQueries(s, hosts);
  }

  /**
   * One pass of pollDevices: exactly the plugs are queried, once each and
   * for `["power"]`, through their own handles; each plug's accessory takes
   * the effect of its own query's outcome and every other slot is
   * untouched.
   */
  lemma PollSweep(s: State, outcome: Host -> PollResult)
    requires WellFormed(s)
    ensures var s' := Poll(s, outcome);
      && s'.slots.Keys == s.slots.Keys && s'.order == s.order
      && s'.registered == s.registered && s'.unregistered == s.unregistered
      && (forall h | h in s.slots :: s'.slots[h] ==
            if IsPlug(s, h) then Some(PollRecord(s.slots[h].value, outcome(h))) else s.slots[h])
      && |s'.queries| >= |s.queries| && s'.queries[..|s.queries|] == s.queries
      && var q := s'.queries[|s.queries|..];
         && Distinct(QueryHosts(q))
         && (forall h :: h in QueryHosts(q) <==> IsPlug(s, h))
         && (forall i | 0 <= i < |q| :: q[i].props == PowerQuery && IsPlug(s, q[i].host)
                                       && q[i].device == s.slots[q[i].host].value.device.value)
  {
    PollHostsSlots(s, s.order, outcome);
    PollHostsQueries(s, s.order, outcome);
  }

  /**
   * How each plug's reachability comes out of a pass: a failed query leaves
   * it unreachable; a reply leaves it reachable unless the reply carries a
   * power value and the accessory has no Outlet to show it (then the `then`
   * handler throws and the `catch` marks it unreachable); a reply with a
   * power value updates the Outlet's On; a query that never settles leaves
   * the accessory as it was.  Accessories that are not plugs are never
   * changed, and the registry stays well formed.
   */
  lemma PollReachability(s: State, outcome: Host -> PollResult)
    requires WellFormed(s)
    ensures WellFormed(Poll(s, outcome))
    ensures forall h | IsPlug(s, h) ::
      var r := s.slots[h].value;
      && Holds(Poll(s, outcome), h)
      && var r' := Poll(s, outcome).slots[h].value;
      && r'.context == r.context && r'.device == r.device && r'.bindings == r.bindings
      && (outcome(h).Failed? ==> !r'.reachable)
      && (outcome(h).Replied? ==> r'.reachable == (outcome(h).power.None? || r.outlet.Some?))
      && (outcome(h).Replied? && outcome(h).power.Some? && r.outlet.Some? ==>
            r'.outlet == Some(r.outlet.value.(on := outcome(h).power.value)))
      && (outcome(h).Pending? ==> r' == r)
      && r'.displayName == r.displayName && r'.uuid == r.uuid
      && (!(outcome(h).Replied? && outcome(h).power.Some?) ==> r'.outlet == r.outlet)
    ensures forall h | Holds(s, h) && !IsPlug(s, h) :: h in Poll(s, outcome).slots && Poll(s, outcome).slots[h] == s.slots[h]
  {
    PollSweep(s, outcome);
  }

  // -------------------------------------------------------- poll schedule

  /**
   * Polling is switched off by `pollChanges: false` whatever the interval,
   * and by nothing else; `true` acts as if the setting were absent.  A
   * missing configuration, a missing interval and a zero interval all fall
   * back to 15000 ms; any other interval is taken in seconds.  A period is
   * never zero and is always a whole number of seconds.
   */
  lemma PollTimerChoice(config: Option<Config>, interval: Option<int>, n: int)
    ensures PollTimer(config).None? ==> config.Some? && config == Some(Config(Some(false), config.value.pollInterval))
    ensures PollTimer(Some(Config(Some(false), interval))) == None
    ensures PollTimer(Some(Config(Some(true), interval))) == PollTimer(Some(Config(None, interval))) != None
    ensures PollTimer(None) == PollTimer(Some(Config(None, None))) == PollTimer(Some(Config(None, Some(0)))) == Some(15000)
    ensures n != 0 ==> PollTimer(Some(Config(None, Some(n)))) == Some(n * 1000)
    ensures PollTimer(config).Some? ==> PollTimer(config).value != 0 && PollTimer(config).value % 1000 == 0
  {
  }

  // ------------------------------------------------------------ scenarios

  /** A supported plug announced on a freshly started platform: one accessory, reachable, registered exactly once. */
  lemma FirstAnnouncement(v: string, host: Host, port: int, id: string)
    ensures var s' := Up(Empty, v, host, port, HostInfo("chuangmi-plug-m1", id));
      && s'.slots.Keys == {host} && s'.order == [host] && s'.registered == [host]
      && Holds(s', host) && s'.slots[host].value.reachable
      && s'.slots[host].value.context.features.switchPlug
      && WellFormed(s')
  {
    var info := HostInfo("chuangmi-plug-m1", id);
    PlugModelsAreSupported("", "-m1");
    assert "" + PlugModel + "-m1" == info.model;
    UpIsAdd(Empty, v, host, port, info);
    AddNewSupported(Empty, v, host, port, info);
    AddKeepsWellFormed(Empty, v, host, port, info);
  }
}
