# homebridge-miio: the accessory registry, in Dafny

The XiaomiMiio homebridge platform (`index.js`) keeps a dictionary
`this.accessories`. It maps the host name a Xiaomi device announces over
mDNS to the homebridge accessory for that device. After the startup sweep
has purged an accessory, its host maps to `null`. Five pieces of code change
the dictionary:

- the sweep in the `didFinishLaunching` handler;
- `addAccessory`, called from the mDNS `serviceUp` handler;
- the `serviceDown` handler;
- `configureAccessory`;
- the polling loop `pollDevices`.

This project models those five and proves what they promise.

It has two layers:

- `registry.dfy` (module `Registry`) holds the registry as a value. `State`
  has the dictionary, the `for…in` enumeration order, and logs of the calls
  made into the bridge (`registerPlatformAccessories`,
  `unregisterPlatformAccessories`) and into the device library
  (`getProperties`). Each operation that changes the registry is one function
  from the registry before to the registry after: `Add`, `Configure`, `Up`,
  `Down`, `Purge`, `Poll`. `PollTimer` maps the configuration to the poll
  period. `PollAsWritten` is the polling loop exactly as written; see
  Findings.
- `platform.dfy` (module `MiioPlatform`) holds the objects.
  - Class `Accessory` is a PlatformAccessory. Its fields (`context`,
    `reachable`, `miioDevice`, the Outlet service) are updated in place.
  - Class `XiaomiMiio` is the platform. Its `accessories` field is a
    `map<Host, Option<Accessory>>`, with `None` standing for JS `null`.
  - Each method is proved to change `View()`, the registry as a value,
    exactly as the matching `Registry` function says. The methods that model
    a whole handler or platform method (ConfigureAccessory, AddAccessory,
    ServiceUp, ServiceDown, PurgeOutdated, PollDevices, DidFinishLaunching)
    also keep `Valid()`; the helpers they are built from keep the weaker
    parts of it that the next step needs. `Valid()` means: one object per
    host, every accessory stored under its own `context.miioInfo.address`,
    every accessory with a device handle, and `order` enumerating the keys
    once each.
- `properties.dfy` (module `Properties`) proves the promises about the
  `Registry` functions.
- `findings.dfy` (module `Findings`) proves the null-slot crash and its
  correction.
- `wrappers.dfy` holds `Option`.

Inputs the platform gets from outside are parameters:

- the plugin version (`HKMiioVersion`, read from `package.json`);
- the configuration;
- what `miio.infoFromHostname` derives from a host name (`HostInfo`: model
  and id);
- the mDNS events (`ServiceUp`/`ServiceDown`);
- how each poll query settles (`outcome: Host -> PollResult`: a reply with or
  without a `power` value, a failure, or no settlement).

In these places the model follows the code, where a cleaner design might
differ:

- The registry is keyed by host name, not by device id (index.js:133, 138).
- An announcement for a known host never replaces its device handle: the
  handle keeps the info it was first made from (index.js:102 runs only when
  the handle is missing, and configureAccessory is not called again).
- Features are reset to a plug only for a supported model. An unsupported
  announcement on a known host still overwrites `miioInfo` and `miioVersion`
  and sets the accessory reachable (index.js:135-150).
- There is no throttling or spacing of polls beyond the fixed
  `setInterval` period.

## Model

| member | source | states |
|---|---|---|
| Registry.Contains | index.js:135 | Unanchored search for a plain-character pattern, as `String.prototype.match` with a regular expression of plain characters performs; proved against OccursAt in ContainsIsSubstring. |
| Registry.Supported | index.js:135 | A model is supported when it contains `chuangmi-plug`. |
| Registry.IsNew | index.js:133 | `!this.accessories[hostname]`: the host has no key, or its slot is `null`. |
| Registry.Stale | index.js:42 | The filter test `a.context.miioVersion !== HKMiioVersion`; a missing version is stale. |
| Registry.IsPlug | index.js:72 | The host holds an accessory whose `context.features.switchPlug` is set, so the loop queries it. |
| Registry.Put | index.js:93 | A store into the dictionary; a key assigned for the first time is appended to the enumeration order. |
| Registry.SetReachable | index.js:52 | `updateReachability(b)` on the accessory under a host. |
| Registry.Configured | index.js:102-121 | The handle is made from `miioInfo` only when missing; a plug gets its Outlet if missing, marked in use, and one more handler pair. |
| Registry.Configure | index.js:91-123 | configureAccessory: store under `context.miioInfo.address`, then configure. |
| Registry.Fresh | index.js:138 | A new accessory named `Miio Plug <id>` with the UUID of the host name and an empty context. |
| Registry.MarkPlug | index.js:129-142 | A supported model gets a fresh accessory when the host has none (or `null`), and the accessory is marked a switch plug; any other model changes nothing. |
| Registry.Announced | index.js:146-150 | The announced info, address, port and running version go into the context, and the accessory is reachable. |
| Registry.Adopt | index.js:144-156 | An accessory under the host takes the announcement; one that was new is then registered and configured. |
| Registry.Add | index.js:126-157 | addAccessory: the two halves, with `isNew` taken before the first. |
| Registry.Up | index.js:48-53 | serviceUp: addAccessory, then reachable if the host has an accessory. |
| Registry.Down | index.js:54-57 | serviceDown: unreachable if the host has an accessory, otherwise nothing. |
| Registry.Outdated | index.js:41-42 | The accessories under the given keys, in order, whose version is not the running one. |
| Registry.NullEach | index.js:44 | Stores `null` at each listed accessory's address, in order; it keeps every handle that remains. |
| Registry.Purge | index.js:40-44 | The sweep: unregister the outdated accessories, then null their slots; it keeps every handle that remains. |
| Registry.PollRecord | index.js:74-83 | A settled query's effect on the accessory: reply, reply with power, missing Outlet (the throw caught by `catch`), failure, or no settlement. |
| Registry.PollHost | index.js:70-84 | One turn of the loop over a slot that is not `null`: a plug is queried for `["power"]` and takes its outcome. It keeps every handle. |
| Registry.PollHosts | index.js:69-85 | The loop over the given keys, passing over `null` slots. It keeps every handle. |
| Registry.Poll | index.js:68-86 | One pass of pollDevices over the enumeration order, passing over `null` slots (the corrected loop). |
| Registry.PollWalk | index.js:69-85 | The loop as written: it throws at the first `null` slot it visits. |
| Registry.PollAsWritten | index.js:68-86 | pollDevices as written. |
| Registry.PollSeconds | index.js:62 | `(config || {}).pollInterval || 15` for an integer interval. |
| Registry.PollTimer | index.js:61-62 | The `setInterval` period in ms, or none when `pollChanges === false`. |
| MiioPlatform.XiaomiMiio.OutdatedAccessories | index.js:41-42 | The `map`/`filter` over the accessory objects; OutdatedAccessoriesAre ties it to Registry.Outdated. |
| Properties.ContainsIsSubstring | index.js:135 | The model test holds exactly when the pattern occurs somewhere in the model string (both directions). |
| Properties.PlugModelsAreSupported | index.js:135 | Every model containing `chuangmi-plug`, at any position, is supported. |
| Properties.AddNewSupported | index.js:133-155 | A supported model on a host with no accessory, or a `null` one, adds exactly one accessory under that host: display name `Miio Plug <id>`, UUID from the host name, features `{switchPlug: true}`, the announced info, address and port, the running version, reachable. It gets a handle made from that info, an Outlet in use and one handler pair. The host is registered exactly once. No other slot or log changes. |
| Properties.AddNewUnsupported | index.js:135-145 | An unsupported model on a host with no accessory leaves the registry and every log unchanged. |
| Properties.AddExisting | index.js:133-155 | On a host that has an accessory, addAccessory overwrites `miioInfo` and `miioVersion` and sets it reachable. It resets features to a plug only for a supported model. It keeps the name, UUID, handle, Outlet and handlers. Nothing is registered, and no other slot changes. |
| Properties.AddRegistersOnlyNewPlugs | index.js:133-153 | addAccessory registers the host exactly when the host is new and the model supported, and otherwise registers nothing. |
| Properties.AddKeepsWellFormed | index.js:126-157 | addAccessory keeps the registry well formed. |
| Properties.MarkPlugKeepsShape | index.js:129-142 | After the first half of addAccessory the registry is well formed everywhere except at the announced host. |
| Properties.AdoptKeepsWellFormed | index.js:144-156 | The second half of addAccessory restores the invariant. |
| Properties.ConfigureStores | index.js:93-121 | configureAccessory stores the accessory under `context.miioInfo.address`. It makes a handle from the accessory's info only when there is none. For a plug it adds the Outlet only when missing (an existing Outlet keeps its On value) and marks it in use. A non-plug's Outlet is untouched. No other slot or log changes. |
| Properties.ConfigureIdempotent | index.js:102-121 | A second configureAccessory of a configured accessory changes no key, order, other slot or log. It changes nothing at all for a non-plug, and for a plug only attaches one more handler pair. |
| Properties.ConfigureKeepsWellFormed | index.js:91-123 | configureAccessory restores the invariant at the address it stores under. |
| Properties.DownKeepsRecords | index.js:54-57 | serviceDown only sets the host's accessory unreachable. It adds and removes no key, touches no other host and no log, and is a no-op for an unknown or `null` host. |
| Properties.DownKeepsWellFormed | index.js:54-57 | serviceDown keeps the registry well formed. |
| Properties.UpIsAdd | index.js:48-53 | The reachability update in serviceUp changes nothing beyond what addAccessory did. |
| Properties.UpMakesReachable | index.js:50-52 | After serviceUp, the host's accessory, if any, is reachable. |
| Properties.UpKeepsWellFormed | index.js:48-53 | serviceUp keeps the registry well formed. |
| Properties.ReachableKeepsWellFormed | index.js:52 | updateReachability on a stored accessory keeps the registry well formed. |
| Properties.VanishThenAnnounce | index.js:48-57 | A device that vanishes and reappears keeps its accessory: the same name, UUID, handle, Outlet and handlers, with no new registration. It is reachable again, and its features survive unless the model is a supported plug. |
| Properties.OutdatedAddresses | index.js:41-42 | The filter picks exactly the accessories whose version is not the running one. Their addresses are distinct when the hosts are. |
| Properties.NullEachEffect | index.js:44 | The `forEach` sets exactly the listed addresses to `null`, keeping keys, order and other slots. |
| Properties.PurgeSweep | index.js:40-44 | The startup sweep unregisters each accessory of another version exactly once and sets its slot to `null`. Accessories of the running version, the keys, their order, registrations and queries are untouched. |
| Properties.PurgeLeavesCurrent | index.js:40-44 | After the sweep the registry is well formed and every remaining accessory is of the running version. |
| Properties.RediscoveryAfterPurge | index.js:133-155 | A host purged by the sweep counts as new again. A supported announcement creates a fresh accessory of the running version there and registers the host again, without a second key. |
| Properties.PollHostEffect | index.js:70-84 | One turn of the loop touches only the visited slot. For a plug it applies that host's outcome and logs one `["power"]` query through its handle; anything else is left as it was. |
| Properties.PollHostKeepsWellFormed | index.js:70-84 | One turn of the loop keeps the registry well formed. |
| Properties.PollHostsSlots | index.js:69-85 | Over distinct hosts, the loop changes exactly the plugs among them, each by its own outcome. |
| Properties.PlugQueriesFacts | index.js:72-74 | The queries for distinct hosts go to distinct hosts, exactly the plugs, for `["power"]`, through each plug's own handle. |
| Properties.PollHostsLog | index.js:69-85 | The loop logs exactly the plug queries for the hosts it visits, in order. |
| Properties.PollHostsQueries | index.js:69-85 | The loop over distinct hosts appends exactly one `["power"]` query per plug among them. |
| Properties.PollSweep | index.js:68-86 | One pass queries exactly the plugs, once each, for `["power"]`, through their own handles. It applies each plug's outcome to it, leaves every other slot untouched, and keeps keys and order. |
| Properties.PollReachability | index.js:74-83 | A failed query leaves a plug unreachable. A reply leaves it reachable unless it carries a power value and there is no Outlet; then the `then` handler throws and the `catch` handler marks it unreachable. A reply with a power value sets the Outlet's On. A query that never settles changes nothing. The Outlet changes only on a reply with a power value; context, handle, handlers, name and UUID never change. Non-plugs are untouched, and the registry stays well formed. |
| Properties.PollTimerChoice | index.js:61-62 | `pollChanges: false` switches polling off whatever the interval, and nothing else does; `true` acts like an absent setting. A missing configuration, a missing interval and a zero interval all give 15000 ms; any other interval is taken in seconds. A period is never zero and is a whole number of seconds. |
| Properties.FirstAnnouncement | index.js:48-53 | A plug announced on a fresh platform yields one reachable plug accessory, registered once, in a well-formed registry. |
| Findings.WalkAgreesWithoutNulls | index.js:68-86 | Where no slot is `null`, the loop as written completes with the same result as the corrected loop. |
| Findings.WalkCrashesOnNull | index.js:69-72 | As written, a pass over a `null` slot throws, at a slot that was `null` before the pass. |
| Findings.StartupPollCrashes | index.js:40-63 | If any cached accessory is of another version, the first poll after the sweep throws. |
| Findings.StartupPollCorrected | index.js:40-63 | With `null` slots passed over, the first poll after the sweep completes. It queries each remaining plug once and leaves purged slots `null`. |
| Findings.CurrentCacheDoesNotCrash | index.js:40-63 | With no stale accessory, the sweep nulls nothing and the poll as written completes like the corrected one. |
| Findings.OneOutdatedPlug | index.js:40-63 | A concrete plug cached by version 0.1.0, started under 0.2.0: the first poll throws at its host. |
| MiioPlatform.Accessory.constructor | index.js:138 | `new Accessory(name, uuid)` has an empty context, is unreachable, and has no handle, no Outlet and no handlers. |
| MiioPlatform.Accessory.Restored | index.js:91 | A cached accessory comes back with its context and Outlet but without a handle or handlers. |
| MiioPlatform.Accessory.Equip | index.js:102-121 | configureAccessory's changes to the accessory itself are exactly `Registry.Configured`. |
| MiioPlatform.Accessory.Settle | index.js:74-83 | The promise handlers change the accessory exactly as `Registry.PollRecord` says. |
| MiioPlatform.Accessory.UpdateReachability | index.js:52 | Only `reachable` changes. |
| MiioPlatform.XiaomiMiio.constructor | index.js:23-28 | The platform starts with an empty, valid dictionary. |
| MiioPlatform.XiaomiMiio.Store | index.js:93 | The store puts the accessory under its address; a new key joins the enumeration order. |
| MiioPlatform.XiaomiMiio.ConfigureAccessory | index.js:91-123 | The registry becomes exactly `Configure` of the old one and stays valid. |
| MiioPlatform.XiaomiMiio.AddAccessory | index.js:126-157 | The registry becomes exactly `Add` of the old one and stays valid. Only new objects join it. |
| MiioPlatform.XiaomiMiio.ClaimHost | index.js:129-142 | The first half of addAccessory is exactly `Registry.MarkPlug`. |
| MiioPlatform.XiaomiMiio.AddFresh | index.js:136-139 | A fresh accessory is stored under the host. |
| MiioPlatform.XiaomiMiio.MarkSwitchPlug | index.js:140 | The accessory under the host becomes a switch plug. Nothing else changes. |
| MiioPlatform.XiaomiMiio.TakeAnnouncement | index.js:144-156 | The second half of addAccessory is exactly `Registry.Adopt`, and the registry is valid again. |
| MiioPlatform.XiaomiMiio.StoreContactInfo | index.js:146-150 | The accessory takes the announced info, port and running version and is made reachable. |
| MiioPlatform.XiaomiMiio.UpdateReachabilityAt | index.js:51-52 | Sets reachability of the host's accessory if there is one, otherwise changes nothing. |
| MiioPlatform.XiaomiMiio.ServiceUp | index.js:48-53 | The registry becomes exactly `Up` of the old one and stays valid. |
| MiioPlatform.XiaomiMiio.ServiceDown | index.js:54-57 | The registry becomes exactly `Down` of the old one and stays valid. |
| MiioPlatform.XiaomiMiio.OutdatedAccessoriesAre | index.js:41-42 | The objects the filter picks are the registry's `Outdated` records, in order. |
| MiioPlatform.XiaomiMiio.OutdatedAtLaunch | index.js:41-42 | At launch every key holds an accessory, so the `map`/`filter` reads no `null`. |
| MiioPlatform.XiaomiMiio.Unregister | index.js:43 | The bridge is told the addresses of the outdated accessories. |
| MiioPlatform.XiaomiMiio.NullOutdated | index.js:44 | The loop leaves exactly `NullEach` of the old registry. |
| MiioPlatform.XiaomiMiio.NullSlot | index.js:44 | The slot at the address becomes `null`. |
| MiioPlatform.XiaomiMiio.PurgeOutdated | index.js:40-44 | The registry becomes exactly `Purge` of the old one and stays valid. |
| MiioPlatform.XiaomiMiio.PollAccessory | index.js:70-84 | One turn of the loop is exactly `PollHost`. |
| MiioPlatform.XiaomiMiio.PollDevices | index.js:68-86 | The loop, passing over `null` slots, leaves exactly `Poll` of the old registry and keeps the dictionary's keys. |
| MiioPlatform.XiaomiMiio.DidFinishLaunching | index.js:37-64 | The sweep and then the first poll, with the corrected poll that passes over `null` slots (see Findings), leave exactly `Poll(Purge(old))` and valid. No accessory object joins the dictionary. The returned timer period is `PollTimer(config)`. |

## Left out

- mDNS browser mechanics (index.js:47, 58) are network I/O. The `serviceUp`
  and `serviceDown` events are the methods ServiceUp and ServiceDown, called
  with the announced host and port.
- The miio library is foreign code.
  - `infoFromHostname` becomes a `HostInfo` parameter. The case where it
    finds nothing is not modelled.
  - `createDevice` becomes a `Device` value made from the info it is given.
  - `stopMonitoring` (index.js:106) is left out.
  - `getProperties` becomes a query log entry plus a `PollResult` outcome per
    host.
- The homebridge and HAP APIs are foreign code.
  - Registration and unregistration are ghost logs.
  - `UUIDGen.generate` is a constructor of its seed.
  - The Outlet service is a value with its On and OutletInUse
    characteristics.
  - The AccessoryInformation characteristics (index.js:96-99) are not
    modelled.
  - The characteristic get/set handlers (index.js:110-119) forward to the
    device and hold no registry state. Each attachment is counted in
    `bindings`, and their bodies are not modelled.
- Promise timing and `setInterval` are event-loop concurrency. One poll is a
  sequential pass in which every query settles before the next host is
  visited, as `outcome` says. The timer is modelled only by the period it is
  given (`PollTimer`); repeated passes are repeated calls.
- Logging is left out.
- Every cached context is assumed to carry `features` and `miioInfo`; only
  `miioVersion` may be missing. A context written without them would make
  configureAccessory throw (index.js:93, 98, 108) before the startup sweep
  could purge it, and pollDevices throw at index.js:72. That error path is
  not modelled.
- A platform built without an API object (index.js:30) registers no
  handlers and is not modelled.
- `pollInterval` is an integer number of seconds. Non-numeric or fractional
  values and Node's clamping of timer delays are not modelled.
- The plugin version read from `package.json` is the constructor parameter
  `version`. `package.json` is not part of this model.
- MiioPlatform.XiaomiMiio.DidFinishLaunching requires that no slot is `null`.
  Before launch only configureAccessory has run, and it never stores `null`.
- The dictionary is a map of optional objects with a separate enumeration
  order. JS object key order for integer-like keys is not modelled, because
  host names are not integer-like.

## Findings

| source | as written | input that shows it | evidently intended | confidence | as-written member | corrected member |
|---|---|---|---|---|---|---|
| index.js:69-72 | pollDevices reads `accessory.context` on every key of `this.accessories`, including slots the startup sweep at index.js:44 set to `null`; the TypeError escapes the `didFinishLaunching` handler at index.js:63 | one cached plug whose `miioVersion` is "0.1.0", started under version "0.2.0" (Findings.OneOutdatedPlug) | `null` slots are passed over, as `if (!accessory) continue;` would do | not executed | Registry.PollAsWritten, with Findings.StartupPollCrashes and Findings.OneOutdatedPlug | Registry.Poll and MiioPlatform.XiaomiMiio.PollDevices, with Properties.PollSweep and Findings.StartupPollCorrected |
