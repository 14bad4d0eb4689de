/**
 * C-string views of Dafny strings, and the case-insensitive comparison
 * `strcasecmp` that the device factory uses to dispatch on protocol names.
 *
 * A `std::string` handed to a C function through `c_str()` is seen only up to
 * its first NUL character. `strcasecmp` compares the two C strings character by
 * character after ASCII lower-casing (the "C" locale) and reports 0 exactly when
 * they agree up to and including the terminating NUL.
 */
module CStrings {

  /** The character `tolower` yields in the "C" locale: only 'A'..'Z' change. */
  function Lower(c: char): char
  {
    if 'A' <= c <= 'Z' then (c as int + 32) as char else c
  }

  /** A string with every character lower-cased. */
  function LowerStr(s: string): string
  {
    seq(|s|, i requires 0 <= i < |s| => Lower(s[i]))
  }

  /** The characters a C function sees through `c_str()`: everything before the first NUL. */
  function CStr(s: string): (r: string)
    ensures |r| <= |s| && r == s[..|r|]
    ensures '\0' !in r
    ensures |r| < |s| ==> s[|r|] == '\0'
  {
    if s == [] || s[0] == '\0' then [] else [s[0]] + CStr(s[1..])
  }

  /** The character at the front of a C string; the end of the sequence reads as NUL. */
  function Head(s: string): char
  {
    if s == [] then '\0' else s[0]
  }

  lemma LowerIsNulOnlyForNul(c: char)
    ensures Lower(c) == '\0' <==> c == '\0'
  {
  }

  /** The lower-cased C view of a string: what `strcasecmp` compares. */
  function Key(s: string): string
  {
    LowerStr(CStr(s))
  }

  /**
   * `strcasecmp`: the difference of the first pair of lower-cased characters
   * that differ, a string's end reading as NUL; 0 when both end together.
   */
  function StrCaseCmp(a: string, b: string): int
    decreases |a|
  {
    var c1, c2 := Lower(Head(a)), Lower(Head(b));
    if c1 != c2 then c1 as int - c2 as int
    else if c1 == '\0' then 0
    else StrCaseCmp(a[1..], b[1..])
  }

  lemma LowerStrCons(c: char, s: string)
    ensures LowerStr([c] + s) == [Lower(c)] + LowerStr(s)
  {
  }

  /** `strcasecmp` reports 0 exactly when the two strings have the same lower-cased C view. */
  lemma {:induction false} StrCaseCmpZero(a: string, b: string)
    ensures StrCaseCmp(a, b) == 0 <==> Key(a) == Key(b)
    decreases |a|
  {
    var c1, c2 := Lower(Head(a)), Lower(Head(b));
    LowerIsNulOnlyForNul(Head(a));
    LowerIsNulOnlyForNul(Head(b));
    if c1 != c2 {
      if CStr(a) != [] && CStr(b) != [] {
        assert Key(a)[0] == c1;
        assert Key(b)[0] == c2;
      }
    } else if c1 != '\0' {
      StrCaseCmpZero(a[1..], b[1..]);
      assert CStr(a) == [a[0]] + CStr(a[1..]);
      assert CStr(b) == [b[0]] + CStr(b[1..]);
      LowerStrCons(a[0], CStr(a[1..]));
      LowerStrCons(b[0], CStr(b[1..]));
      assert Key(a) == [c1] + Key(a[1..]);
      assert Key(b) == [c2] + Key(b[1..]);
      if Key(a) == Key(b) {
        assert Key(a)[1..] == Key(a[1..]) && Key(b)[1..] == Key(b[1..]);
      }
    } else {
      assert CStr(a) == [] && CStr(b) == [];
    }
  }

  /** `strcasecmp(a, b) == 0`, the test every branch of the factory makes. */
  predicate CaseEquals(a: string, b: string)
  {
    StrCaseCmp(a, b) == 0
  }

  /** Case-insensitive equality is equality of keys. */
  lemma CaseEqualsIsKeyEquality(a: string, b: string)
    ensures CaseEquals(a, b) <==> Key(a) == Key(b)
  {
    StrCaseCmpZero(a, b);
  }

  /** A string without NUL characters is its own C view. */
  lemma {:induction false} CStrOfNulFree(s: string)
    requires '\0' !in s
    ensures CStr(s) == s
  {
    if s != [] {
      assert s[0] in s;
      assert forall i :: 1 <= i < |s| ==> s[i] in s;
      CStrOfNulFree(s[1..]);
    }
  }

  /** Whatever follows an embedded NUL is invisible to the comparison. */
  lemma {:induction false} CaseEqualsIgnoresAfterNul(a: string, tail: string, b: string)
    ensures CaseEquals(a + ['\0'] + tail, b) <==> CaseEquals(a, b)
  {
    CStrAppendNul(a, tail);
    StrCaseCmpZero(a + ['\0'] + tail, b);
    StrCaseCmpZero(a, b);
  }

  lemma {:induction false} CStrAppendNul(a: string, tail: string)
    ensures CStr(a + ['\0'] + tail) == CStr(a)
    decreases |a|
  {
    if a == [] {
      assert (a + ['\0'] + tail)[0] == '\0';
    } else if a[0] == '\0' {
      assert (a + ['\0'] + tail)[0] == '\0';
    } else {
      assert (a + ['\0'] + tail)[1..] == a[1..] + ['\0'] + tail;
      CStrAppendNul(a[1..], tail);
    }
  }
}
