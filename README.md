# Telldus core manager: device registry, protocol dispatch, event broadcast

This project models the `Manager` of libtelldus-core (`driver/libtelldus-core/Manager.cpp`) in Dafny and proves properties of the model. The manager's behaviour has three parts:

- **Lazy device cache.** `getDevice(id)` first looks in its map of loaded devices. On a miss it reads the device's protocol, model and parameters from the settings store. It builds a device of the variant the protocol names, caches it and returns it. No stored protocol, or a protocol no branch recognises, yields no device.
- **Protocol dispatch.** The protocol is matched with `strcasecmp` against `arctech`, `group`, `Waveman`, `Sartano` and `Ikea`, in that order.
- **Invalidation and in-place update.** `setProtocol` stores the new protocol and evicts the cached device. `setModel` stores the new model and updates a cached device's model in place. `deviceLoaded` only tests membership.
- **Event broadcast.** `registerDeviceEvent` appends a callback and its context to an ordered list. `parseMessage` calls every registered callback in registration order, with event class 1, event number 1, the message and that callback's own context.

Modules:

- `CStrings` (cstrings.dfy) holds what a C function sees of a `std::string` through `c_str()`: the characters before the first NUL. It also holds `strcasecmp` over such strings, using ASCII lower-casing as in the "C" locale.
- `Protocols` (protocols.dfy) holds the five family names and `Classify`, the first-match-wins chain of `strcasecmp` tests.
- `Settings` (settings.dfy) is an in-memory stand-in for the settings store. The real store is a separate component and is not part of this model. Keys that were never written read as `""` or model 0. Each write reports its own outcome, which the model leaves open: a write that reports success has taken effect, and one that reports failure changed nothing.
- `Devices` (devices.dfy) holds three things:
  - the five device variants, each a record of the arguments the source passes to `DeviceNexa`, `DeviceGroup`, `DeviceWaveman`, `DeviceSartano` and `DeviceIkea`;
  - the factory `Resolve`, which says what a cache miss builds from a store;
  - the `Device` class, whose variant is fixed and whose model and device node change in place.
- `Events` (events.dfy) holds callbacks, deliveries and `Deliveries`, the calls one broadcast makes.
- `Registry` (manager.dfy) holds the `Manager` class:
  - `devices: map<int, Device>`, the cache of object references. Identity is real object identity.
  - `callbacks: seq<Callback>`, the registered callbacks in order.
  - the settings store handle.
  - a `linux` flag for the `_LINUX` build, which attaches the `deviceNode` setting to every new device.
- `Scenarios` (scenarios.dfy) holds call sequences on a manager. Each proves, from the operations' contracts alone, one of the system's promises: repeated lookups agree, a protocol change rebuilds, a model change keeps identity, and broadcast follows registration order.

Callbacks and their contexts are opaque pointers in the source. They are modelled as opaque numbers, and a broadcast returns the list of calls it makes instead of running foreign code.

## Model

| member | source | states |
|---|---|---|
| `CStrings.CStr` | driver/libtelldus-core/Manager.cpp:72 | the C view of a string is its longest NUL-free prefix, cut exactly at the first NUL |
| `CStrings.StrCaseCmpZero` | driver/libtelldus-core/Manager.cpp:72 | `strcasecmp(a, b)` is 0 exactly when the lower-cased C views of `a` and `b` are equal |
| `CStrings.CaseEqualsIgnoresAfterNul` | driver/libtelldus-core/Manager.cpp:72 | anything after an embedded NUL in the stored protocol does not affect matching |
| `Protocols.MatchesName` | driver/libtelldus-core/Manager.cpp:72-90 | a branch's test succeeds exactly when the protocol's lower-cased C view is that family's name in lower case |
| `Protocols.Classify` | driver/libtelldus-core/Manager.cpp:71-98 | the protocol's lower-cased C view is the selected family's name in lower case; no family is selected exactly when the view matches none of the five |
| `Protocols.NoBranchMatches` | driver/libtelldus-core/Manager.cpp:96-98 | when all five tests of the chain fail, no family's name matches |
| `Protocols.ClassifyMatches` | driver/libtelldus-core/Manager.cpp:72-94 | a protocol matching a family's name in any case selects exactly that family |
| `Protocols.ClassifyIgnoresCase` | driver/libtelldus-core/Manager.cpp:72-94 | protocols with equal lower-cased C views select the same family (or both none) |
| `Protocols.ArcTechInAnyCase` | driver/libtelldus-core/Manager.cpp:72 | "ARCTECH", "arctech" and "ArcTech" all select the ArcTech family |
| `Protocols.BogusIsUnknown` | driver/libtelldus-core/Manager.cpp:96-98 | "bogus" selects no family |
| `Devices.Construct` | driver/libtelldus-core/Manager.cpp:72-94 | each branch builds its own family's variant, whose arguments are the stored parameters under that family's keys, in order |
| `Devices.Resolve` | driver/libtelldus-core/Manager.cpp:64-103 | a miss finds nothing exactly when no protocol is stored; an unknown protocol exactly when the stored one matches no name; otherwise the family the protocol names, built from its keys, the stored model, and on Linux the `deviceNode` setting |
| `Devices.ResolveIsLocal` | driver/libtelldus-core/Manager.cpp:65-102 | what a miss builds for `id` depends only on `id`'s protocol, model and parameters and on the device-node setting |
| `Devices.ResolveIgnoresCase` | driver/libtelldus-core/Manager.cpp:72-94 | storing either of two non-empty protocols with equal lower-cased C views builds the same device |
| `Devices.ResolveSelects` | driver/libtelldus-core/Manager.cpp:72-94 | a protocol matching a family's name in any case builds that family's variant with the stored model |
| `Devices.ResolveName` | driver/libtelldus-core/Manager.cpp:72-94 | a protocol spelled exactly as a branch spells it builds that branch's family |
| `Devices.ArcTechBuildsNexa` | driver/libtelldus-core/Manager.cpp:72-75 | "ARCTECH", "arctech" and "ArcTech" all build a Nexa device from `nexa_house` and `nexa_unit` |
| `Devices.IkeaBuildsIkea` | driver/libtelldus-core/Manager.cpp:90-94 | a stored protocol "Ikea" builds an Ikea device |
| `Devices.BogusYieldsNothing` | driver/libtelldus-core/Manager.cpp:96-98 | a stored protocol "bogus" builds no device |
| `Devices.Device.constructor` | driver/libtelldus-core/Manager.cpp:75 | a new device has the given variant and model and no device node |
| `Devices.Device.SetModel` | driver/libtelldus-core/Manager.cpp:130 | the model is changed in place; the device node is kept |
| `Devices.Device.SetDevice` | driver/libtelldus-core/Manager.cpp:100-102 | the device node is set; the model is kept |
| `Registry.Manager.constructor` | driver/libtelldus-core/Manager.cpp:35-38 | a new manager has no cached devices and no callbacks |
| `Registry.Manager.GetDevice` | driver/libtelldus-core/Manager.cpp:56-111 | a hit returns the cached device and changes nothing. A miss returns null and leaves the cache unchanged when nothing is built. Otherwise it returns a fresh device with exactly the resolved state, now cached under `id`, every other entry unchanged. Keeps one device object per id |
| `Registry.Manager.Build` | driver/libtelldus-core/Manager.cpp:64-107 | the miss path yields a device exactly when `Resolve` builds one, and then a fresh object with the resolved variant, model and node |
| `Registry.Manager.SetProtocol` | driver/libtelldus-core/Manager.cpp:113-123 | the protocol is written; the cache becomes the old cache minus `id`; callbacks are unchanged |
| `Registry.Manager.SetModel` | driver/libtelldus-core/Manager.cpp:125-134 | the model is written and the store's outcome returned; the cache's domain and objects are unchanged; a cached device for `id` now has the new model |
| `Registry.Manager.DeviceLoaded` | driver/libtelldus-core/Manager.cpp:137-143 | true exactly when `id` is cached; modifies nothing |
| `Registry.Manager.RegisterDeviceEvent` | driver/libtelldus-core/Manager.cpp:151-154 | exactly one registration is appended at the end, duplicates kept; the cache is unchanged |
| `Registry.Manager.ParseMessage` | driver/libtelldus-core/Manager.cpp:145-149 | one call per registration, in order, the i-th being (event class 1, event number 1, the message's C view, context of the i-th registration); modifies nothing |
| `Events.DeliveriesAt` | driver/libtelldus-core/Manager.cpp:145-149 | a broadcast makes as many calls as there are registrations, the i-th to the i-th registration with its own context |
| `Events.DeliveriesAppend` | driver/libtelldus-core/Manager.cpp:145-154 | registering one more callback adds exactly one call at the end of every later broadcast |
| `Events.DeliveriesConcat` | driver/libtelldus-core/Manager.cpp:145-149 | broadcasting over two batches of registrations is broadcasting over the first, then the second |
| `Scenarios.RepeatedLookup` | driver/libtelldus-core/Manager.cpp:59-62 | two lookups with nothing in between return the same object, which stays cached |
| `Scenarios.ProtocolChangeRebuilds` | driver/libtelldus-core/Manager.cpp:113-122 | after a protocol change the previously cached device is never returned; after a successful write of "Ikea" the rebuilt device is an Ikea device |
| `Scenarios.ModelChangeKeepsIdentity` | driver/libtelldus-core/Manager.cpp:125-134 | after a model change a loaded device is the same object, now with the new model, even when the store's write failed and the store kept the old model |
| `Scenarios.TwoCallbacksInOrder` | driver/libtelldus-core/Manager.cpp:145-154 | after registering two callbacks, broadcasting "hello" calls the first, then the second, each with "hello" and its own context, after all earlier registrations |
| `Scenarios.UnconfiguredDevice` | driver/libtelldus-core/Manager.cpp:65-68 | a new manager over a store whose protocol for `id` is empty or absent returns no device and caches nothing |

## Left out

- Registry.Manager.SetProtocol: in the source this function ends without a `return` statement, which is undefined behaviour in C++. The model returns the store's write outcome. That is a modelling choice, and the model states nothing more about the returned value. The source also `delete`s the evicted device (line 121): its destructor runs and every pointer an earlier `getDevice` returned for `id` dangles, and a later `new` may reuse its address. The model only drops the cache entry, so the old object stays alive and usable. The destruction and the invalidation of earlier handles are not modelled, and `Scenarios.ProtocolChangeRebuilds`'s `after != before` is Dafny object identity, which the source ensures only in the sense that the old instance is gone.
- The controller table: the constructor's hard-coded controller with serial "TSQVB5HU" under id 1, and all USB/serial communication. Both are hardware the model does not reach.
- What the device variants do with their parameters (the radio encoding) is outside the registry. A variant here is the record of its constructor arguments.
- Construction faults from the variant constructors, and the `try`/`catch(...) { throw; }` around the miss path. The rethrow changes nothing, and the constructors are not part of this model.
- The singleton `getInstance`/`close` and the destructor's deletion loops are raw-pointer ownership, which Dafny's heap does not need. `close` also never resets the instance pointer, so a later `getInstance` would return a dangling pointer, not a fresh manager. The model therefore states no "fresh manager after close" property. A fresh manager comes only from the constructor.
- The settings store's persistence format and I/O. The store is an in-memory stand-in whose write outcome is a flag. Any reads the store's own implementation may perform are not modelled.
- Callback side effects and failures. Callbacks are foreign code, so a broadcast is modelled as the list of calls it makes.
- Concurrency: the source has no synchronisation, and the model is sequential.
- Characters are Dafny `char`s rather than bytes. Lower-casing follows only the "C" locale's ASCII rule.

## Notes on the source

- Dispatch is done on `protocol.c_str()`, so a stored protocol such as "arctech\0x" selects ArcTech (`CStrings.CaseEqualsIgnoresAfterNul`). The emptiness test on line 66 uses the full length, so "\0" counts as configured and resolves as an unknown protocol.
- `parseMessage` passes `message.c_str()`, so callbacks see the message only up to its first NUL. Deliveries carry `CStr(message)`.
- `setModel` (lines 126-131) updates a cached device's model whether or not the store's write succeeded, so after a failed write the cache and the store disagree (`Scenarios.ModelChangeKeepsIdentity`).
- The `if (device)` test in `setModel` (line 129) cannot fail: `setModel` only looks the device up when it is already cached, and the cache never holds null.
