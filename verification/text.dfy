/**
 String helpers: infix search and the case-insensitive comparison used to test a
 device's state.
 */
module Text {

  /** `p` is a prefix of `s`. */
  predicate IsPrefix(p: string, s: string)
  {
    |p| <= |s| && s[..|p|] == p
  }

  /** `sub` occurs somewhere inside `s`. */
  predicate Contains(s: string, sub: string)
  {
    exists i :: 0 <= i <= |s| && IsPrefix(sub, s[i..])
  }

  /** The middle part of a concatenation occurs in it. */
  lemma ContainsMiddle(a: string, b: string, c: string)
    ensures Contains(a + b + c, b)
  {
    var s := a + b + c;
    assert s[|a|..][..|b|] == b;
    assert IsPrefix(b, s[|a|..]);
  }

  predicate IsAscii(c: char)
  {
    c < 128 as char
  }

  predicate IsAsciiString(s: string)
  {
    forall i :: 0 <= i < |s| ==> IsAscii(s[i])
  }

  /** ASCII upper-casing of one character; every other character is kept. */
  function AsciiUpper(c: char): char
  {
    if 'a' <= c <= 'z' then (c as int - 32) as char else c
  }

  /**
   ASCII upper-casing of a string, character by character: an ASCII string
   becomes upper-case, and the result still folds to the original.
   */
  function AsciiUpperString(s: string): (u: string)
    ensures IsAsciiString(s) ==> IsUpperAscii(u)
    ensures EqualFold(s, u)
  {
    seq(|s|, i requires 0 <= i < |s| => AsciiUpper(s[i]))
  }

  /**
   The representative of `c`'s simple case-folding orbit, for the orbits that
   contain an ASCII character: an ASCII letter is represented by its lower-case
   form, LATIN SMALL LETTER LONG S (U+017F) by 's' and KELVIN SIGN (U+212A) by
   'k'. Every other character represents itself. Under Unicode simple folding
   these are the only non-ASCII characters equivalent to an ASCII one.
   */
  function FoldKey(c: char): char
  {
    if 'A' <= c <= 'Z' then (c as int + 32) as char
    else if c == 'ſ' then 's'
    else if c == 'K' then 'k'
    else c
  }

  /**
   Case-insensitive equality in the manner of Go's `strings.EqualFold`: the
   strings have the same number of characters and the characters at each
   position are equivalent under simple case folding. It agrees with Go
   whenever at least one of each compared pair of characters is ASCII; for two
   non-ASCII characters it only accepts equal ones or the two orbits above.
   */
  predicate EqualFold(s: string, t: string)
  {
    |s| == |t| && forall i :: 0 <= i < |s| ==> FoldKey(s[i]) == FoldKey(t[i])
  }

  /** `t` consists of ASCII characters none of which is a lower-case letter. */
  predicate IsUpperAscii(t: string)
  {
    forall i :: 0 <= i < |t| ==> IsAscii(t[i]) && !('a' <= t[i] <= 'z')
  }

  lemma FoldKeyAsciiUpper(x: char, y: char)
    requires IsAscii(x) && IsAscii(y) && !('a' <= y <= 'z')
    ensures FoldKey(x) == FoldKey(y) <==> AsciiUpper(x) == y
  {
    if 'a' <= x <= 'z' {
      assert FoldKey(x) == x;
      if 'A' <= y <= 'Z' {
        assert FoldKey(y) as int == y as int + 32;
      } else {
        assert FoldKey(y) == y;
      }
    } else if 'A' <= x <= 'Z' {
      assert AsciiUpper(x) == x;
      if 'A' <= y <= 'Z' {
        assert FoldKey(y) as int == y as int + 32;
      } else {
        assert FoldKey(y) == y;
      }
    } else {
      assert FoldKey(x) == x && AsciiUpper(x) == x;
      if 'A' <= y <= 'Z' {
        assert FoldKey(y) as int == y as int + 32;
      } else {
        assert FoldKey(y) == y;
      }
    }
  }

  /**
   For an ASCII string compared against an upper-case ASCII constant, folding
   equality is the same as "upper-casing `s` gives `t`".
   */
  lemma EqualFoldAsciiIffUpper(s: string, t: string)
    requires IsAsciiString(s) && IsUpperAscii(t)
    ensures EqualFold(s, t) <==> AsciiUpperString(s) == t
  {
    var u := AsciiUpperString(s);
    if |s| == |t| {
      forall i | 0 <= i < |s|
        ensures FoldKey(s[i]) == FoldKey(t[i]) <==> u[i] == t[i]
      {
        FoldKeyAsciiUpper(s[i], t[i]);
      }
      if EqualFold(s, t) {
        assert forall i :: 0 <= i < |s| ==> u[i] == t[i];
      }
    }
  }

  /** Folding equality is reflexive, symmetric and transitive. */
  lemma EqualFoldIsEquivalence(s: string, t: string, v: string)
    ensures EqualFold(s, s)
    ensures EqualFold(s, t) ==> EqualFold(t, s)
    ensures EqualFold(s, t) && EqualFold(t, v) ==> EqualFold(s, v)
  {
  }
}
