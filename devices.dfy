/**
 * Devices and the factory that builds them from stored configuration.
 *
 * A device is one of five variants (the source's DeviceNexa, DeviceGroup,
 * DeviceWaveman, DeviceSartano and DeviceIkea); each is built from the stored
 * model and the variant's own parameters. What a variant does with its
 * parameters (the radio encoding) is not modelled: a variant is the record of
 * the arguments it was constructed with.
 */
module Devices {
  import opened Wrappers
  import opened CStrings
  import opened Protocols
  import opened Settings

  /** The constructor arguments of each device variant, after the model. */
  datatype Variant =
    | DeviceNexa(house: string, unit: string)
    | DeviceGroup(members: string)
    | DeviceWaveman(house: string, unit: string)
    | DeviceSartano(code: string)
    | DeviceIkea(system: string, units: string, fade: string)
  {
    /** The protocol family the variant belongs to. */
    function Family(): Protocol
    {
      match this
      case DeviceNexa(_, _) => ArcTech
      case DeviceGroup(_) => Group
      case DeviceWaveman(_, _) => Waveman
      case DeviceSartano(_) => Sartano
      case DeviceIkea(_, _, _) => Ikea
    }

    /** The parameter strings, in constructor order. */
    function Arguments(): seq<string>
    {
      match this
      case DeviceNexa(h, u) => [h, u]
      case DeviceGroup(d) => [d]
      case DeviceWaveman(h, u) => [h, u]
      case DeviceSartano(c) => [c]
      case DeviceIkea(s, u, f) => [s, u, f]
    }
  }

  /** The parameter keys each family's branch reads, in constructor order. */
  function Keys(p: Protocol): seq<string>
  {
    match p
    case ArcTech => ["nexa_house", "nexa_unit"]
    case Group => ["devices"]
    case Waveman => ["nexa_house", "nexa_unit"]
    case Sartano => ["sartano_code"]
    case Ikea => ["ikea_system", "ikea_units", "ikea_fade"]
  }

  /**
   * The variant a factory branch builds for device `id`: the family's variant,
   * its arguments read from the store under that family's keys.
   */
  function Construct(p: Protocol, s: Store, id: int): (v: Variant)
    ensures v.Family() == p
    ensures |v.Arguments()| == |Keys(p)|
    ensures forall i :: 0 <= i < |Keys(p)| ==> v.Arguments()[i] == StoredParameter(s, id, Keys(p)[i])
  {
    match p
    case ArcTech => DeviceNexa(StoredParameter(s, id, "nexa_house"), StoredParameter(s, id, "nexa_unit"))
    case Group => DeviceGroup(StoredParameter(s, id, "devices"))
    case Waveman => DeviceWaveman(StoredParameter(s, id, "nexa_house"), StoredParameter(s, id, "nexa_unit"))
    case Sartano => DeviceSartano(StoredParameter(s, id, "sartano_code"))
    case Ikea => DeviceIkea(StoredParameter(s, id, "ikea_system"), StoredParameter(s, id, "ikea_units"), StoredParameter(s, id, "ikea_fade"))
  }

  /** A branch reads nothing but the parameters. */
  lemma ConstructReadsParameters(p: Protocol, s: Store, t: Store, id: int)
    requires s.parameters == t.parameters
    ensures Construct(p, s, id) == Construct(p, t, id)
  {
  }

  /** A variant is determined by its family and its arguments. */
  lemma VariantDetermined(v: Variant, w: Variant)
    requires v.Family() == w.Family() && v.Arguments() == w.Arguments()
    ensures v == w
  {
    match v
    case DeviceNexa(_, _) => assert v.Arguments()[0] == w.Arguments()[0];
    case DeviceGroup(_) => assert v.Arguments()[0] == w.Arguments()[0];
    case DeviceWaveman(_, _) => assert v.Arguments()[0] == w.Arguments()[0];
    case DeviceSartano(_) => assert v.Arguments()[0] == w.Arguments()[0];
    case DeviceIkea(_, _, _) => assert v.Arguments()[0] == w.Arguments()[0];
  }

  /** The observable state of a device: variant, model and (on Linux) device node. */
  datatype DeviceSpec = DeviceSpec(variant: Variant, model: int, node: Option<string>)

  /** What a cache miss finds in the store. */
  datatype Lookup =
    | NotConfigured          // no protocol stored
    | UnknownProtocol        // a protocol no branch recognises
    | Built(spec: DeviceSpec)

  /** The setting a Linux build attaches to every new device. */
  const DeviceNodeKey: string := "deviceNode"

  /**
   * What the factory makes of device `id` on a cache miss. `linux` stands
   * for the build flag under which the device node is attached.
   */
  function Resolve(s: Store, id: int, linux: bool): (r: Lookup)
    ensures r.NotConfigured? <==> StoredProtocol(s, id) == ""
    ensures r.UnknownProtocol? <==> StoredProtocol(s, id) != "" && Classify(StoredProtocol(s, id)).None?
    ensures r.Built? ==>
      && Classify(StoredProtocol(s, id)) == Some(r.spec.variant.Family())
      && Key(StoredProtocol(s, id)) == Folded(r.spec.variant.Family())
      && r.spec.variant == Construct(r.spec.variant.Family(), s, id)
      && r.spec.model == StoredModel(s, id)
      && r.spec.node == (if linux then Some(StoredSetting(s, DeviceNodeKey)) else None)
  {
    var protocol := StoredProtocol(s, id);
    if |protocol| == 0 then NotConfigured
    else match Classify(protocol)
      case None => UnknownProtocol
      case Some(p) =>
        Built(DeviceSpec(Construct(p, s, id), StoredModel(s, id),
                         if linux then Some(StoredSetting(s, DeviceNodeKey)) else None))
  }

  /** Two stores that agree on everything device `id` is built from. */
  ghost predicate AgreeOn(s: Store, t: Store, id: int, linux: bool)
  {
    && StoredProtocol(s, id) == StoredProtocol(t, id)
    && StoredModel(s, id) == StoredModel(t, id)
    && (forall key :: StoredParameter(s, id, key) == StoredParameter(t, id, key))
    && (linux ==> StoredSetting(s, DeviceNodeKey) == StoredSetting(t, DeviceNodeKey))
  }

  /** Resolution reads only the entries of the device being resolved. */
  lemma ResolveIsLocal(s: Store, t: Store, id: int, linux: bool)
    requires AgreeOn(s, t, id, linux)
    ensures Resolve(s, id, linux) == Resolve(t, id, linux)
  {
    var r, q := Resolve(s, id, linux), Resolve(t, id, linux);
    if r.Built? {
      var p := r.spec.variant.Family();
      var v, w := Construct(p, s, id), Construct(p, t, id);
      assert v.Arguments() == w.Arguments();
      VariantDetermined(v, w);
    }
  }

  /**
   * Dispatch ignores case: storing either of two non-empty protocol strings
   * with equal lower-cased C views resolves to the same device.
   */
  lemma ResolveIgnoresCase(s: Store, id: int, linux: bool, a: string, b: string)
    requires a != "" && b != ""
    requires Key(a) == Key(b)
    ensures Resolve(s.(protocols := s.protocols[id := a]), id, linux)
         == Resolve(s.(protocols := s.protocols[id := b]), id, linux)
  {
    var sa, sb := s.(protocols := s.protocols[id := a]), s.(protocols := s.protocols[id := b]);
    assert StoredProtocol(sa, id) == a && StoredProtocol(sb, id) == b;
    ClassifyIgnoresCase(a, b);
    match Classify(a)
    case None =>
    case Some(p) =>
      ConstructReadsParameters(p, sa, sb, id);
  }

  /**
   * A protocol that matches a family's name in any case builds that family's
   * variant from that family's parameter keys, with the stored model.
   */
  lemma ResolveSelects(s: Store, id: int, linux: bool, p: Protocol)
    requires CaseEquals(StoredProtocol(s, id), Name(p))
    ensures Resolve(s, id, linux).Built?
    ensures Resolve(s, id, linux).spec.variant == Construct(p, s, id)
    ensures Resolve(s, id, linux).spec.model == StoredModel(s, id)
  {
    ClassifyMatches(StoredProtocol(s, id), p);
  }

  /** Storing a family's name exactly as the factory spells it builds that family. */
  lemma ResolveName(s: Store, id: int, linux: bool, p: Protocol)
    requires StoredProtocol(s, id) == Name(p)
    ensures Resolve(s, id, linux).Built?
    ensures Resolve(s, id, linux).spec.variant == Construct(p, s, id)
  {
    assert Name(p) != "";
    CaseEqualsIsKeyEquality(Name(p), Name(p));
    ResolveSelects(s, id, linux, p);
  }

  /** A stored protocol "Ikea" builds an Ikea device. */
  lemma IkeaBuildsIkea(s: Store, id: int, linux: bool)
    requires StoredProtocol(s, id) == "Ikea"
    ensures Resolve(s, id, linux).Built? && Resolve(s, id, linux).spec.variant.DeviceIkea?
  {
    ResolveName(s, id, linux, Ikea);
  }

  /** "ARCTECH", "arctech" and "ArcTech" all build a Nexa device from nexa_house and nexa_unit. */
  lemma ArcTechBuildsNexa(s: Store, id: int, linux: bool)
    requires StoredProtocol(s, id) in {"ARCTECH", "arctech", "ArcTech"}
    ensures Resolve(s, id, linux).Built?
    ensures Resolve(s, id, linux).spec.variant
         == DeviceNexa(StoredParameter(s, id, "nexa_house"), StoredParameter(s, id, "nexa_unit"))
  {
    ArcTechInAnyCase(StoredProtocol(s, id));
  }

  /** A protocol no branch recognises, such as "bogus", yields no device. */
  lemma BogusYieldsNothing(s: Store, id: int, linux: bool)
    requires StoredProtocol(s, id) == "bogus"
    ensures Resolve(s, id, linux) == UnknownProtocol
  {
    BogusIsUnknown(StoredProtocol(s, id));
  }

  /** A device object as the manager owns it: its variant is fixed, its model and node may change. */
  class Device {
    const variant: Variant
    var model: int
    var node: Option<string>

    constructor (model: int, variant: Variant)
      ensures this.variant == variant && this.model == model && node == None
    {
      this.variant := variant;
      this.model := model;
      this.node := None;
    }

    function Spec(): DeviceSpec
      reads this
    {
      DeviceSpec(variant, model, node)
    }

    method SetModel(model: int)
      modifies this
      ensures this.model == model && node == old(node)
    {
      this.model := model;
    }

    method SetDevice(path: string)
      modifies this
      ensures node == Some(path) && model == old(model)
    {
      node := Some(path);
    }
  }
}
