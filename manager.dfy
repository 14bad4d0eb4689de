/**
 * The manager: a lazily filled cache of devices keyed by device id, built from
 * the settings store on first use, invalidated when a device's protocol
 * changes and updated in place when its model changes; and the ordered list
 * of registered event callbacks that every incoming message is broadcast to.
 */
module Registry {
  import opened Wrappers
  import opened Settings
  import opened Devices
  import opened Events

  class Manager {
    /** Whether this is a Linux build, which attaches a device node to every new device. */
    const linux: bool
    /** The settings store the manager reads and writes configuration through. */
    const settings: SettingsStore
    /** The cache: the live device for every id loaded so far. */
    var devices: map<int, Device>
    /** The registered callbacks, in registration order. */
    var callbacks: seq<Callback>

    /** At most one live device per id, and no device object is shared by two ids. */
    ghost predicate Valid()
      reads this
    {
      forall a, b :: a in devices && b in devices && a != b ==> devices[a] != devices[b]
    }

    /** A new manager has loaded no device and registered no callback. */
    constructor (settings: SettingsStore, linux: bool)
      ensures Valid()
      ensures this.settings == settings && this.linux == linux
      ensures devices == map[] && callbacks == []
    {
      this.settings := settings;
      this.linux := linux;
      devices := map[];
      callbacks := [];
    }

    /**
     * The device for `id`. A cached device is returned as it is, with nothing
     * read or changed. Otherwise the device is built from the store: nothing
     * (null) when no protocol is stored or no branch recognises it, and in
     * either case the cache is left alone; else a new device, which is cached
     * under `id` and returned, every other entry untouched.
     */
    method GetDevice(id: int) returns (dev: Device?)
      requires Valid()
      modifies this
      ensures Valid()
      ensures callbacks == old(callbacks)
      ensures id in old(devices) ==> dev == old(devices)[id] && devices == old(devices)
      ensures id !in old(devices) && !Resolve(settings.data, id, linux).Built? ==>
        dev == null && devices == old(devices)
      ensures id !in old(devices) && Resolve(settings.data, id, linux).Built? ==>
        && dev != null && fresh(dev)
        && dev.Spec() == Resolve(settings.data, id, linux).spec
        && devices == old(devices)[id := dev]
    {
      if id in devices {
        return devices[id];
      }
      dev := Build(id);
      if dev != null {
        devices := devices[id := dev];
      }
    }

    /**
     * The cache-miss path of GetDevice: reads the protocol, the model and the
     * selected branch's parameters from the store and builds the device, or
     * yields null when no protocol is stored or none of the branches matches.
     */
    method Build(id: int) returns (dev: Device?)
      ensures dev != null <==> Resolve(settings.data, id, linux).Built?
      ensures dev != null ==> fresh(dev) && dev.Spec() == Resolve(settings.data, id, linux).spec
    {
      var protocol := settings.GetProtocol(id);
      if |protocol| == 0 {
        return null;
      }
      var model := settings.GetModel(id);
      // The factory's chain of strcasecmp tests, first match wins.
      var family := Protocols.Classify(protocol);
      var variant: Variant;
      match family {
        case None =>
          return null;
        case Some(ArcTech) =>
          var house := settings.GetDeviceParameter(id, "nexa_house");
          var code := settings.GetDeviceParameter(id, "nexa_unit");
          variant := DeviceNexa(house, code);
        case Some(Group) =>
          var members := settings.GetDeviceParameter(id, "devices");
          variant := DeviceGroup(members);
        case Some(Waveman) =>
          var house := settings.GetDeviceParameter(id, "nexa_house");
          var code := settings.GetDeviceParameter(id, "nexa_unit");
          variant := DeviceWaveman(house, code);
        case Some(Sartano) =>
          var code := settings.GetDeviceParameter(id, "sartano_code");
          variant := DeviceSartano(code);
        case Some(Ikea) =>
          var system := settings.GetDeviceParameter(id, "ikea_system");
          var units := settings.GetDeviceParameter(id, "ikea_units");
          var fade := settings.GetDeviceParameter(id, "ikea_fade");
          variant := DeviceIkea(system, units, fade);
      }
      dev := new Device(model, variant);
      if linux {
        var node := settings.GetSetting(DeviceNodeKey);
        dev.SetDevice(node);
      }
    }

    /**
     * Stores a new protocol for `id` and drops any cached device for it, so
     * the next lookup rebuilds it; every other entry stays.
     */
    method SetProtocol(id: int, protocol: string) returns (ok: bool)
      requires Valid()
      modifies this, settings
      ensures Valid()
      ensures settings.data == if ok then old(settings.data).(protocols := old(settings.data).protocols[id := protocol])
                               else old(settings.data)
      ensures devices == old(devices) - {id}
      ensures callbacks == old(callbacks)
    {
      ok := settings.SetProtocol(id, protocol);
      if id in devices {
        devices := devices - {id};
      }
    }

    /**
     * Stores a new model for `id`; a cached device for `id` takes the new
     * model in place (same object, still cached), and nothing else changes.
     * Returns the store's outcome.
     */
    method SetModel(id: int, model: int) returns (ok: bool)
      requires Valid()
      modifies this, settings, if id in devices then {devices[id]} else {}
      ensures Valid()
      ensures settings.data == if ok then old(settings.data).(models := old(settings.data).models[id := model])
                               else old(settings.data)
      ensures devices == old(devices) && callbacks == old(callbacks)
      ensures id in devices ==> devices[id].model == model && devices[id].node == old(devices[id].node)
    {
      ok := settings.SetModel(id, model);
      var loaded := DeviceLoaded(id);
      if loaded {
        var device := GetDevice(id);
        if device != null {
          device.SetModel(model);
        }
      }
    }

    /** Whether a device for `id` is in the cache; reads nothing else and changes nothing. */
    method DeviceLoaded(id: int) returns (loaded: bool)
      ensures loaded <==> id in devices
    {
      loaded := id in devices;
    }

    /** Appends one registration at the end of the list (duplicates are kept). */
    method RegisterDeviceEvent(event: EventFunction, context: Context)
      modifies this
      ensures callbacks == old(callbacks) + [Callback(event, context)]
      ensures devices == old(devices)
    {
      callbacks := callbacks + [Callback(event, context)];
    }

    /**
     * Broadcasts a raw message: one call per registration, in registration
     * order, each with event class 1, event number 1, the message and that
     * registration's own context.
     */
    method ParseMessage(message: string) returns (log: seq<Delivery>)
      ensures log == Deliveries(callbacks, message)
      ensures |log| == |callbacks|
      ensures forall i :: 0 <= i < |callbacks| ==>
        log[i] == Delivery(callbacks[i].event, EventClass, EventNumber, CStrings.CStr(message), callbacks[i].context)
    {
      log := [];
      var i := 0;
      while i < |callbacks|
        invariant 0 <= i <= |callbacks|
        invariant log == Deliveries(callbacks[..i], message)
      {
        var cb := callbacks[i];
        DeliveriesAppend(callbacks[..i], cb, message);
        assert callbacks[..i + 1] == callbacks[..i] + [cb];
        log := log + [Deliver(cb, message)];
        i := i + 1;
      }
      assert callbacks[..i] == callbacks;
      DeliveriesAt(callbacks, message);
    }
  }
}
