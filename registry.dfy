/**
 * The accessory registry of the XiaomiMiio platform (index.js), as values.
 *
 * The platform keeps a dictionary from a host name to an accessory, or to
 * `null` once the startup sweep has purged that accessory.  Here that
 * dictionary is `State.slots`, the order in which `for…in` and
 * `Object.keys` enumerate it is `State.order` (insertion order: a key is
 * appended when it is first assigned and never moves), and the calls the
 * platform makes into the bridge and into the device library are logged
 * in `registered`, `unregistered` and `queries`.
 *
 * Every operation of the platform is one function from the registry
 * before to the registry after; the classes in MiioPlatform are proved to
 * follow these functions, and Properties proves what they promise.
 */
module Registry {
  import opened Wrappers

  /** A network host name as announced over mDNS; the registry is keyed by it. */
  type Host = string

  /** The model pattern `/chuangmi-plug/` that makes a device a supported plug. */
  const PlugModel: string := "chuangmi-plug"
  /** The properties a plug is asked for when it is polled. */
  const PowerQuery: seq<string> := ["power"]
  /** The poll period, in seconds, when the configuration gives none. */
  const DefaultPollSeconds: int := 15
  /** Display names of new plugs are this prefix followed by the device id. */
  const PlugNamePrefix: string := "Miio Plug "

  /** What `miio.infoFromHostname` derives from a host name. */
  datatype HostInfo = HostInfo(model: string, id: string)
  /** `context.miioInfo`: the derived info plus the announced address and port. */
  datatype MiioInfo = MiioInfo(model: string, id: string, address: Host, port: int)
  /** `context.features`. */
  datatype Features = Features(switchPlug: bool)
  /** The persisted `context` of an accessory. */
  datatype Context = Context(features: Features, miioInfo: MiioInfo, miioVersion: Option<string>)
  /** A device handle made by `miio.createDevice` from the info it was given. */
  datatype Device = Device(info: MiioInfo)
  /** The "Power Plug" Outlet service: its On and OutletInUse characteristics. */
  datatype Outlet = Outlet(on: bool, inUse: bool)
  /** `UUIDGen.generate(seed)`: a deterministic function of its seed. */
  datatype Uuid = UuidOf(seed: string)

  /**
   * An accessory as the platform sees it: display name, UUID, persisted
   * context, reachability, the device handle (`miioDevice`), the Outlet
   * service if the accessory has one, and how many get/set handler pairs
   * configureAccessory has attached to its On characteristic.
   */
  datatype Record = Record(displayName: string, uuid: Uuid, context: Context, reachable: bool,
                           device: Option<Device>, outlet: Option<Outlet>, bindings: nat)

  /** One `getProperties` call: which host, through which handle, for which properties. */
  datatype Query = Query(host: Host, device: Device, props: seq<string>)

  datatype State = State(slots: map<Host, Option<Record>>, order: seq<Host>,
                         registered: seq<Host>, unregistered: seq<Host>, queries: seq<Query>)

  /** How a poll query settles: a reply (with or without a `power` property), a failure, or never. */
  datatype PollResult = Replied(power: Option<bool>) | Failed | Pending

  /** A pass of pollDevices either completes or throws while visiting `at`. */
  datatype PollRun = Completed(state: State) | Crashed(state: State, at: Host)

  /** The platform configuration; the whole object may be missing. */
  datatype Config = Config(pollChanges: Option<bool>, pollInterval: Option<int>)

  /** The context of a just-constructed PlatformAccessory, before any field is set. */
  const EmptyContext: Context := Context(Features(false), MiioInfo("", "", "", 0), None)

  /** The registry as the platform constructor leaves it. */
  const Empty: State := State(map[], [], [], [], [])

  // ---------------------------------------------------------------- models

  /** `pat` occurs in `s` starting at index `i`. */
  ghost predicate OccursAt(s: string, pat: string, i: nat) {
    i + |pat| <= |s| && s[i..i + |pat|] == pat
  }

  /** Does `s` contain `pat`, as an unanchored regular expression of plain characters matches. */
  function Contains(s: string, pat: string): bool
    decreases |s|
  {
    if |s| < |pat| then false
    else s[..|pat|] == pat || Contains(s[1..], pat)
  }

  /** `miioInfo.model.match(/chuangmi-plug/)` is truthy. */
  predicate Supported(model: string) {
    Contains(model, PlugModel)
  }

  // ---------------------------------------------------------------- slots

  /** There is an accessory (not `null`, not missing) under `h`. */
  predicate Holds(s: State, h: Host) {
    h in s.slots && s.slots[h].Some?
  }

  /** `!this.accessories[hostname]`: nothing, or `null`, under the host. */
  predicate IsNew(s: State, h: Host) {
    !Holds(s, h)
  }

  /** `this.accessories[h] = slot`; a key assigned for the first time joins the enumeration order. */
  function Put(s: State, h: Host, slot: Option<Record>): State {
    s.(slots := s.slots[h := slot], order := if h in s.slots then s.order else s.order + [h])
  }

  /** `updateReachability(b)` on the accessory under `h`. */
  function SetReachable(s: State, h: Host, b: bool): State
    requires Holds(s, h)
  {
    Put(s, h, Some(s.slots[h].value.(reachable := b)))
  }

  ghost predicate Distinct(hs: seq<Host>) {
    forall i, j | 0 <= i < j < |hs| :: hs[i] != hs[j]
  }

  /** The order lists every key exactly once. */
  ghost predicate Enumerates(order: seq<Host>, keys: set<Host>) {
    Distinct(order) && forall h :: h in order <==> h in keys
  }

  /** Every accessory sits under its own `context.miioInfo.address`. */
  ghost predicate Keyed(s: State) {
    forall h | Holds(s, h) :: s.slots[h].value.context.miioInfo.address == h
  }

  /** Every accessory except possibly the one under `except` sits under its own address. */
  ghost predicate KeyedBut(s: State, except: Host) {
    forall h | Holds(s, h) && h != except :: s.slots[h].value.context.miioInfo.address == h
  }

  /** Every accessory has its device handle, except possibly the one under `except`. */
  ghost predicate HasDevicesBut(s: State, except: Option<Host>) {
    forall h | Holds(s, h) && Some(h) != except :: s.slots[h].value.device.Some?
  }

  ghost predicate HasDevices(s: State) {
    HasDevicesBut(s, None)
  }

  /** The invariant of the live registry. */
  ghost predicate WellFormed(s: State) {
    Enumerates(s.order, s.slots.Keys) && Keyed(s) && HasDevices(s)
  }

  // ------------------------------------------------------ configureAccessory

  /** What configureAccessory does to the accessory it is given. */
  function Configured(r: Record): Record {
    var device := if r.device.None? then Some(Device(r.context.miioInfo)) else r.device;
    if r.context.features.switchPlug then
      var outlet := if r.outlet.None? then Outlet(false, false) else r.outlet.value;
      r.(device := device, outlet := Some(outlet.(inUse := true)), bindings := r.bindings + 1)
    else
      r.(device := device)
  }

  /** configureAccessory(r): store under `context.miioInfo.address`, then configure. */
  function Configure(s: State, r: Record): State {
    Put(s, r.context.miioInfo.address, Some(Configured(r)))
  }

  // ---------------------------------------------------------- addAccessory

  /** `new Accessory(`Miio Plug ${id}`, UUIDGen.generate(host))`. */
  function Fresh(id: string, host: Host): Record {
    Record(PlugNamePrefix + id, UuidOf(host), EmptyContext, false, None, None, 0)
  }

  /**
   * The first half of addAccessory: a supported model gets a new accessory
   * if its host has none, and the accessory under the host is marked a
   * switch plug; any other model leaves the registry as it is.
   */
  function MarkPlug(s: State, host: Host, info: HostInfo): State {
    if Supported(info.model) then
      var base := if IsNew(s, host) then Fresh(info.id, host) else s.slots[host].value;
      Put(s, host, Some(base.(context := base.context.(features := Features(true)))))
    else s
  }

  /** The accessory's contact info and version after an announcement, and reachable. */
  function Announced(r: Record, v: string, host: Host, port: int, info: HostInfo): Record {
    r.(context := r.context.(miioInfo := MiioInfo(info.model, info.id, host, port), miioVersion := Some(v)),
       reachable := true)
  }

  /**
   * The second half: an accessory under the host, new or not, takes the
   * announced address and port and the running version and is made
   * reachable; one that was new is then registered and configured.
   */
  function Adopt(s: State, v: string, host: Host, port: int, info: HostInfo, isNew: bool): State {
    if Holds(s, host) then
      var r' := Announced(s.slots[host].value, v, host, port, info);
      var s2 := Put(s, host, Some(r'));
      if isNew then Configure(s2.(registered := s2.registered + [host]), r') else s2
    else s
  }

  /** addAccessory(host, port) where infoFromHostname(host) gave `info`. */
  function Add(s: State, v: string, host: Host, port: int, info: HostInfo): State {
    Adopt(MarkPlug(s, host, info), v, host, port, info, IsNew(s, host))
  }

  // ------------------------------------------------------- mDNS handlers

  /** The `serviceUp` handler: addAccessory, then mark an accessory under the host reachable. */
  function Up(s: State, v: string, host: Host, port: int, info: HostInfo): State {
    var s1 := Add(s, v, host, port, info);
    if Holds(s1, host) then SetReachable(s1, host, true) else s1
  }

  /** The `serviceDown` handler. */
  function Down(s: State, host: Host): State {
    if Holds(s, host) then SetReachable(s, host, false) else s
  }

  // -------------------------------------------------------- startup sweep

  /** The accessory was written by another plugin version. */
  predicate Stale(r: Record, v: string) {
    r.context.miioVersion != Some(v)
  }

  predicate NoNulls(s: State) {
    forall h | h in s.slots :: s.slots[h].Some?
  }

  /** `Object.keys(...).map(k => this.accessories[k]).filter(...)` over `hosts`. */
  function Outdated(s: State, hosts: seq<Host>, v: string): seq<Record>
    requires forall h | h in hosts :: Holds(s, h)
  {
    if hosts == [] then []
    else
      assert hosts[0] in hosts && Holds(s, hosts[0]);
      var r := s.slots[hosts[0]].value;
      (if Stale(r, v) then [r] else []) + Outdated(s, hosts[1..], v)
  }

  function Addresses(rs: seq<Record>): seq<Host> {
    if rs == [] then [] else [rs[0].context.miioInfo.address] + Addresses(rs[1..])
  }

  /** The hosts a sequence of queries went to. */
  function QueryHosts(q: seq<Query>): seq<Host> {
    if q == [] then [] else [q[0].host] + QueryHosts(q[1..])
  }

  /** `outdated.forEach(a => this.accessories[a.context.miioInfo.address] = null)`. */
  function NullEach(s: State, rs: seq<Record>): (s': State)
    ensures HasDevices(s) ==> HasDevices(s')
    decreases |rs|
  {
    if rs == [] then s else NullEach(Put(s, rs[0].context.miioInfo.address, None), rs[1..])
  }

  /** The sweep at `didFinishLaunching`: unregister the stale accessories, then null their slots. */
  function Purge(s: State, v: string): (s': State)
    requires forall h | h in s.order :: Holds(s, h)
    ensures HasDevices(s) ==> HasDevices(s')
  {
    var outdated := Outdated(s, s.order, v);
    NullEach(s.(unregistered := s.unregistered + Addresses(outdated)), outdated)
  }

  // ------------------------------------------------------------ polling

  predicate IsPlug(s: State, h: Host) {
    Holds(s, h) && s.slots[h].value.context.features.switchPlug
  }

  /**
   * How a settled `getProperties(["power"])` changes the accessory.  A reply
   * sets it reachable; when the reply has a power value, the Outlet's On is
   * updated, and if the accessory has no Outlet service the update throws
   * inside the `then` handler, which the following `catch` turns into
   * "unreachable".  A failure sets it unreachable; a query that never
   * settles changes nothing.
   */
  function PollRecord(r: Record, result: PollResult): Record {
    match result
    case Pending => r
    case Failed => r.(reachable := false)
    case Replied(power) =>
      if power.None? then r.(reachable := true)
      else if r.outlet.None? then r.(reachable := false)
      else r.(reachable := true, outlet := Some(r.outlet.value.(on := power.value)))
  }

  /** One iteration of pollDevices' loop over a slot that is not `null`. */
  function PollHost(s: State, h: Host, outcome: Host -> PollResult): (s': State)
    requires HasDevices(s)
    ensures HasDevices(s')
  {
    if IsPlug(s, h) then
      var r := s.slots[h].value;
      s.(slots := s.slots[h := Some(PollRecord(r, outcome(h)))],
         queries := s.queries + [Query(h, r.device.value, PowerQuery)])
    else s
  }

  /** pollDevices' loop over `hosts`, passing over `null` slots. */
  function PollHosts(s: State, hosts: seq<Host>, outcome: Host -> PollResult): (s': State)
    requires HasDevices(s)
    ensures HasDevices(s')
    decreases |hosts|
  {
    if hosts == [] then s else PollHosts(PollHost(s, hosts[0], outcome), hosts[1..], outcome)
  }

  /** One pass of pollDevices with every query settled as `outcome` says; `null` slots are passed over. */
  function Poll(s: State, outcome: Host -> PollResult): State
    requires HasDevices(s)
  {
    PollHosts(s, s.order, outcome)
  }

  /** pollDevices' loop as written: `accessory.context` on a `null` slot throws a TypeError. */
  function PollWalk(s: State, hosts: seq<Host>, outcome: Host -> PollResult): PollRun
    requires HasDevices(s)
    decreases |hosts|
  {
    if hosts == [] then Completed(s)
    else if hosts[0] in s.slots && s.slots[hosts[0]].None? then Crashed(s, hosts[0])
    else PollWalk(PollHost(s, hosts[0], outcome), hosts[1..], outcome)
  }

  /** pollDevices as written. */
  function PollAsWritten(s: State, outcome: Host -> PollResult): PollRun
    requires HasDevices(s)
  {
    PollWalk(s, s.order, outcome)
  }

  /** `(config || {}).pollInterval || 15`, for an integer interval. */
  function PollSeconds(config: Option<Config>): int {
    if config.Some? && config.value.pollInterval.Some? && config.value.pollInterval.value != 0
    then config.value.pollInterval.value
    else DefaultPollSeconds
  }

  /** The `setInterval` period in milliseconds, or None when `config.pollChanges === false`. */
  function PollTimer(config: Option<Config>): Option<int> {
    if config.None? || config.value.pollChanges != Some(false)
    then Some(PollSeconds(config) * 1000)
    else None
  }
}
