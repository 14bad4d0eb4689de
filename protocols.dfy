/**
 * The protocol names the device factory recognises, and the dispatch from a
 * stored protocol string to one of them. Matching is `strcasecmp`, tried in the
 * factory's order: arctech, group, Waveman, Sartano, Ikea.
 */
module Protocols {
  import opened CStrings
  import opened Wrappers

  /** The device families the factory can build. */
  datatype Protocol = ArcTech | Group | Waveman | Sartano | Ikea

  /** The literal each branch of the factory compares the stored protocol with. */
  function Name(p: Protocol): string
  {
    match p
    case ArcTech => "arctech"
    case Group => "group"
    case Waveman => "Waveman"
    case Sartano => "Sartano"
    case Ikea => "Ikea"
  }

  /** The lower-cased spelling of each family's name. */
  function Folded(p: Protocol): string
  {
    match p
    case ArcTech => "arctech"
    case Group => "group"
    case Waveman => "waveman"
    case Sartano => "sartano"
    case Ikea => "ikea"
  }

  /** A branch name's key is its lower-cased spelling. */
  lemma NameFolds(p: Protocol)
    ensures Key(Name(p)) == Folded(p)
  {
    CStrOfNulFree(Name(p));
    var f := LowerStr(Name(p));
    match p
    case ArcTech => assert f == "arctech";
    case Group => assert f == "group";
    case Waveman => assert f == "waveman";
    case Sartano => assert f == "sartano";
    case Ikea => assert f == "ikea";
  }

  /** A branch's `strcasecmp` test succeeds exactly when the key is the family's folded name. */
  lemma MatchesName(protocol: string, p: Protocol)
    ensures CaseEquals(protocol, Name(p)) <==> Key(protocol) == Folded(p)
  {
    CaseEqualsIsKeyEquality(protocol, Name(p));
    NameFolds(p);
  }

  /**
   * The family a stored protocol string selects, or None when no branch
   * matches. The first matching branch wins; since the folded names differ,
   * at most one can match.
   */
  function Classify(protocol: string): (r: Option<Protocol>)
    ensures r.Some? ==> Key(protocol) == Folded(r.value)
    ensures r.None? <==> forall p: Protocol :: Key(protocol) != Folded(p)
  {
    if CaseEquals(protocol, "arctech") then MatchesName(protocol, ArcTech); Some(ArcTech)
    else if CaseEquals(protocol, "group") then MatchesName(protocol, Group); Some(Group)
    else if CaseEquals(protocol, "Waveman") then MatchesName(protocol, Waveman); Some(Waveman)
    else if CaseEquals(protocol, "Sartano") then MatchesName(protocol, Sartano); Some(Sartano)
    else if CaseEquals(protocol, "Ikea") then MatchesName(protocol, Ikea); Some(Ikea)
    else NoBranchMatches(protocol); None
  }

  /** When every branch of the factory's chain fails, no family's name matches. */
  lemma NoBranchMatches(protocol: string)
    requires !CaseEquals(protocol, "arctech") && !CaseEquals(protocol, "group")
    requires !CaseEquals(protocol, "Waveman") && !CaseEquals(protocol, "Sartano")
    requires !CaseEquals(protocol, "Ikea")
    ensures forall p: Protocol :: Key(protocol) != Folded(p)
  {
    forall p: Protocol ensures Key(protocol) != Folded(p) {
      MatchesName(protocol, p);
    }
  }

  /** Any string that matches a family's name, in any case, selects that family. */
  lemma ClassifyMatches(protocol: string, p: Protocol)
    requires CaseEquals(protocol, Name(p))
    ensures Classify(protocol) == Some(p)
  {
    MatchesName(protocol, p);
  }

  /** Dispatch is case-insensitive: strings with equal lower-cased C views select the same family. */
  lemma ClassifyIgnoresCase(a: string, b: string)
    requires Key(a) == Key(b)
    ensures Classify(a) == Classify(b)
  {
  }

  /** "ARCTECH", "arctech" and "ArcTech" all select the ArcTech (Nexa) family. */
  lemma ArcTechInAnyCase(spelling: string)
    requires spelling == "ARCTECH" || spelling == "arctech" || spelling == "ArcTech"
    ensures Classify(spelling) == Some(ArcTech)
  {
    CStrOfNulFree(spelling);
    assert LowerStr(spelling) == "arctech";
    MatchesName(spelling, ArcTech);
    ClassifyMatches(spelling, ArcTech);
  }

  /** An unknown name selects nothing. */
  lemma BogusIsUnknown(protocol: string)
    requires protocol == "bogus"
    ensures Classify(protocol) == None
  {
    CStrOfNulFree(protocol);
    assert Key(protocol) == "bogus";
    forall p: Protocol ensures Key(protocol) != Folded(p) {
      match p
      case ArcTech =>
      case Group =>
      case Waveman =>
      case Sartano =>
      case Ikea =>
    }
  }
}
