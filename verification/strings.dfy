/** The two java.lang.String operations the core relies on:
    `equalsIgnoreCase` and `contains`. */
module Strings {

  /** Character.toUpperCase, for the ASCII letters. */
  function ToUpper(c: char): char {
    if 'a' <= c <= 'z' then (c as int - 'a' as int + 'A' as int) as char else c
  }

  /** Character.toLowerCase, for the ASCII letters. */
  function ToLower(c: char): char {
    if 'A' <= c <= 'Z' then (c as int - 'A' as int + 'a' as int) as char else c
  }

  /** One step of String.regionMatches(ignoreCase = true): the characters are
      equal, or equal after upper-casing, or equal after upper- then lower-casing. */
  predicate CharEqualsIgnoreCase(a: char, b: char) {
    a == b || ToUpper(a) == ToUpper(b) || ToLower(ToUpper(a)) == ToLower(ToUpper(b))
  }

  /** String.equalsIgnoreCase: same length and pairwise case-insensitively
      equal; that is, the same characters once upper-cased. */
  function EqualsIgnoreCase(a: string, b: string): (r: bool)
    ensures r <==> |a| == |b| && forall i :: 0 <= i < |a| ==> ToUpper(a[i]) == ToUpper(b[i])
  {
    |a| == |b| && forall i :: 0 <= i < |a| ==> CharEqualsIgnoreCase(a[i], b[i])
  }

  /** The upper-case fold of a string: the reference notion of "same letters
      ignoring case". */
  function Fold(s: string): (r: string)
    ensures |r| == |s|
    ensures forall i :: 0 <= i < |s| ==> r[i] == ToUpper(s[i])
  {
    seq(|s|, i requires 0 <= i < |s| => ToUpper(s[i]))
  }

  /** The three-way character test collapses to comparing upper-case folds. */
  lemma CharEqualsIgnoreCaseIffFolded(a: char, b: char)
    ensures CharEqualsIgnoreCase(a, b) <==> ToUpper(a) == ToUpper(b)
  {
  }

  /** equalsIgnoreCase holds exactly when the folds coincide. */
  lemma EqualsIgnoreCaseIffFolded(a: string, b: string)
    ensures EqualsIgnoreCase(a, b) <==> Fold(a) == Fold(b)
  {
    forall i | 0 <= i < |a| && i < |b| {
      CharEqualsIgnoreCaseIffFolded(a[i], b[i]);
    }
    if Fold(a) == Fold(b) {
      assert |a| == |b|;
      forall i | 0 <= i < |a| ensures CharEqualsIgnoreCase(a[i], b[i]) {
        assert Fold(a)[i] == Fold(b)[i];
      }
    }
  }

  /** Case-insensitive equality is an equivalence relation. */
  lemma EqualsIgnoreCaseIsEquivalence(a: string, b: string, c: string)
    ensures EqualsIgnoreCase(a, a)
    ensures EqualsIgnoreCase(a, b) ==> EqualsIgnoreCase(b, a)
    ensures EqualsIgnoreCase(a, b) && EqualsIgnoreCase(b, c) ==> EqualsIgnoreCase(a, c)
  {
    EqualsIgnoreCaseIffFolded(a, a);
    EqualsIgnoreCaseIffFolded(a, b);
    EqualsIgnoreCaseIffFolded(b, a);
    EqualsIgnoreCaseIffFolded(b, c);
    EqualsIgnoreCaseIffFolded(a, c);
  }

  predicate IsPrefix(p: string, s: string) {
    |p| <= |s| && s[..|p|] == p
  }

  /** The reference meaning of `s.contains(t)`: `t` starts at some offset of `s`. */
  predicate Occurs(s: string, t: string) {
    exists i :: 0 <= i <= |s| && IsPrefix(t, s[i..])
  }

  /** An occurrence starts either at offset 0 or somewhere in the tail. */
  lemma {:induction false} OccursStep(s: string, t: string)
    ensures Occurs(s, t) <==> IsPrefix(t, s) || (|s| > 0 && Occurs(s[1..], t))
  {
    assert s[0..] == s;
    if |s| > 0 {
      if Occurs(s, t) && !IsPrefix(t, s) {
        var i :| 0 <= i <= |s| && IsPrefix(t, s[i..]);
        assert i > 0;
        assert s[1..][i - 1..] == s[i..];
      }
      if Occurs(s[1..], t) {
        var i :| 0 <= i <= |s[1..]| && IsPrefix(t, s[1..][i..]);
        assert s[1..][i..] == s[i + 1..];
      }
    } else if Occurs(s, t) {
      var i :| 0 <= i <= |s| && IsPrefix(t, s[i..]);
      assert s[i..] == s;
    }
  }

  /** String.contains as a left-to-right scan of the start offsets; it finds
      `t` exactly when `t` occurs somewhere in `s`. */
  function Contains(s: string, t: string): (r: bool)
    ensures r <==> Occurs(s, t)
    decreases |s|
  {
    OccursStep(s, t);
    IsPrefix(t, s) || (|s| > 0 && Contains(s[1..], t))
  }

  /** Every string contains the empty string (so an empty filter matches all). */
  lemma ContainsEmpty(s: string)
    ensures Contains(s, "")
  {
  }
}
