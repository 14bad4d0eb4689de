/**
 * Call sequences on a manager and what its operations' contracts alone let a
 * caller conclude about them: repeated lookups, invalidation, in-place model
 * updates and ordered broadcast.
 */
module Scenarios {
  import opened Wrappers
  import opened CStrings
  import opened Protocols
  import opened Settings
  import opened Devices
  import opened Events
  import opened Registry

  /** Two lookups with nothing in between give the same answer, and a device found stays cached. */
  method RepeatedLookup(m: Manager, id: int) returns (first: Device?, second: Device?)
    requires m.Valid()
    modifies m
    ensures m.Valid()
    ensures first == second
    ensures first != null ==> id in m.devices && m.devices[id] == first
    ensures first == null ==> m.devices == old(m.devices)
  {
    first := m.GetDevice(id);
    second := m.GetDevice(id);
  }

  /**
   * After a protocol change the device cached before is never returned again:
   * the next lookup rebuilds from the new protocol (for instance "Ikea" gives
   * an Ikea device) or finds nothing.
   */
  method ProtocolChangeRebuilds(m: Manager, id: int, protocol: string)
    returns (before: Device?, ok: bool, after: Device?)
    requires m.Valid()
    modifies m, m.settings
    ensures m.Valid()
    ensures before != null ==> after != before
    ensures ok && after != null ==> Classify(protocol) == Some(after.variant.Family())
    ensures ok && protocol == "Ikea" ==> after != null && after.variant.DeviceIkea?
  {
    before := m.GetDevice(id);
    ok := m.SetProtocol(id, protocol);
    after := m.GetDevice(id);
    if ok && protocol == "Ikea" {
      assert StoredProtocol(m.settings.data, id) == "Ikea";
      IkeaBuildsIkea(m.settings.data, id, m.linux);
    }
  }

  /**
   * A model change on a loaded device keeps the very same object, now carrying
   * the new model. The device takes the new model even when the store's write
   * fails, and then the store still holds the old one.
   */
  method ModelChangeKeepsIdentity(m: Manager, id: int, model: int)
    returns (before: Device?, ok: bool, after: Device?)
    requires m.Valid()
    modifies m, m.settings, m.devices.Values
    ensures m.Valid()
    ensures before != null ==> after == before && after.model == model
    ensures !ok ==> m.settings.data == old(m.settings.data)
  {
    before := m.GetDevice(id);
    ok := m.SetModel(id, model);
    after := m.GetDevice(id);
  }

  /**
   * Registering two callbacks and broadcasting "hello" calls the first, then
   * the second, each once with "hello" and its own context, after every
   * earlier registration.
   */
  method TwoCallbacksInOrder(m: Manager, f1: EventFunction, c1: Context, f2: EventFunction, c2: Context)
    returns (log: seq<Delivery>)
    modifies m
    ensures log == Deliveries(old(m.callbacks), "hello")
                 + [Delivery(f1, EventClass, EventNumber, "hello", c1),
                    Delivery(f2, EventClass, EventNumber, "hello", c2)]
  {
    m.RegisterDeviceEvent(f1, c1);
    m.RegisterDeviceEvent(f2, c2);
    log := m.ParseMessage("hello");
    var earlier := old(m.callbacks);
    assert m.callbacks == (earlier + [Callback(f1, c1)]) + [Callback(f2, c2)];
    DeliveriesAppend(earlier, Callback(f1, c1), "hello");
    DeliveriesAppend(earlier + [Callback(f1, c1)], Callback(f2, c2), "hello");
    CStrOfNulFree("hello");
  }

  /** A new manager over a store with no protocol for `id` finds no device and caches nothing. */
  method UnconfiguredDevice(store: SettingsStore, linux: bool, id: int) returns (m: Manager, dev: Device?)
    requires StoredProtocol(store.data, id) == ""
    ensures dev == null && m.devices == map[]
  {
    m := new Manager(store, linux);
    dev := m.GetDevice(id);
  }
}
