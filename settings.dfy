/**
 * An in-memory stand-in for the persistent settings store the manager reads
 * device configuration from. Keys that were never written read as the empty
 * string (protocol, parameters, global settings) or 0 (model). Every write
 * reports its own outcome, which the model leaves open: a write that reports
 * success has taken effect, and one that reports failure changed nothing.
 */
module Settings {

  /** What the store holds. */
  datatype Store = Store(
    protocols: map<int, string>,
    models: map<int, int>,
    parameters: map<(int, string), string>,
    globals: map<string, string>)

  function StoredProtocol(s: Store, id: int): string
  {
    if id in s.protocols then s.protocols[id] else ""
  }

  function StoredModel(s: Store, id: int): int
  {
    if id in s.models then s.models[id] else 0
  }

  function StoredParameter(s: Store, id: int, key: string): string
  {
    if (id, key) in s.parameters then s.parameters[(id, key)] else ""
  }

  function StoredSetting(s: Store, key: string): string
  {
    if key in s.globals then s.globals[key] else ""
  }

  class SettingsStore {
    var data: Store

    constructor (data: Store)
      ensures this.data == data
    {
      this.data := data;
    }

    method GetProtocol(id: int) returns (p: string)
      ensures p == StoredProtocol(data, id)
    {
      p := StoredProtocol(data, id);
    }

    method GetModel(id: int) returns (m: int)
      ensures m == StoredModel(data, id)
    {
      m := StoredModel(data, id);
    }

    method GetDeviceParameter(id: int, key: string) returns (v: string)
      ensures v == StoredParameter(data, id, key)
    {
      v := StoredParameter(data, id, key);
    }

    method GetSetting(key: string) returns (v: string)
      ensures v == StoredSetting(data, key)
    {
      v := StoredSetting(data, key);
    }

    method SetProtocol(id: int, p: string) returns (ok: bool)
      modifies this
      ensures data == if ok then old(data).(protocols := old(data).protocols[id := p]) else old(data)
    {
      // Whether the backing store accepted the write is not known here.
      ok :| true;
      if ok {
        data := data.(protocols := data.protocols[id := p]);
      }
    }

    method SetModel(id: int, m: int) returns (ok: bool)
      modifies this
      ensures data == if ok then old(data).(models := old(data).models[id := m]) else old(data)
    {
      // Whether the backing store accepted the write is not known here.
      ok :| true;
      if ok {
        data := data.(models := data.models[id := m]);
      }
    }
  }
}
