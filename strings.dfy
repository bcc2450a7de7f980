/**
 * The two string operations the Docker facade relies on: splitting an
 * entry on a separator, as Go's `strings.Split` does for a one-character
 * separator, and substring search, as Go's `strings.Contains` does.
 */
module Strings {

  /** Index of the first occurrence of `c` in `s`. */
  function FirstIndex(s: string, c: char): (i: nat)
    requires c in s
    ensures i < |s| && s[i] == c
    ensures c !in s[..i]
  {
    if s[0] == c then 0
    else
      var j := FirstIndex(s[1..], c);
      assert s[..j + 1] == [s[0]] + s[1..][..j];
      1 + j
  }

  /** The inverse of `Split`: the parts glued together with `sep` between them. */
  function Join(parts: seq<string>, sep: char): string
    requires |parts| >= 1
  {
    if |parts| == 1 then parts[0] else parts[0] + [sep] + Join(parts[1..], sep)
  }

  /**
   * Go's `strings.Split(s, string(sep))`: the maximal pieces of `s` between
   * occurrences of `sep`. There is always at least one piece, and there are
   * two or more exactly when `sep` occurs in `s`.
   */
  function Split(s: string, sep: char): (parts: seq<string>)
    ensures |parts| >= 1
    ensures (sep in s) <==> |parts| >= 2
    ensures forall k :: 0 <= k < |parts| ==> sep !in parts[k]
    ensures Join(parts, sep) == s
    decreases |s|
  {
    if sep !in s then [s]
    else
      var i := FirstIndex(s, sep);
      var rest := Split(s[i + 1..], sep);
      assert s == s[..i] + [sep] + s[i + 1..];
      assert ([s[..i]] + rest)[1..] == rest;
      [s[..i]] + rest
  }

  /** Splitting a joined sequence of separator-free pieces gives the pieces back. */
  lemma {:induction false} SplitJoin(parts: seq<string>, sep: char)
    requires |parts| >= 1
    requires forall k :: 0 <= k < |parts| ==> sep !in parts[k]
    ensures Split(Join(parts, sep), sep) == parts
    decreases |parts|
  {
    if |parts| > 1 {
      var s := Join(parts, sep);
      var p := parts[0];
      var rest := parts[1..];
      assert s == p + [sep] + Join(rest, sep);
      assert s[|p|] == sep;
      assert s[..|p|] == p;
      assert forall k :: 0 <= k < |p| ==> s[k] == p[k];
      var i := FirstIndex(s, sep);
      assert i == |p|;
      assert s[i + 1..] == Join(rest, sep);
      SplitJoin(rest, sep);
      assert Split(s, sep) == [p] + rest;
    }
  }

  /** `p` is a prefix of `s`. */
  predicate HasPrefix(s: string, p: string) {
    |p| <= |s| && s[..|p|] == p
  }

  /** Go's `strings.Contains(s, sub)`, computed by sliding over `s`. */
  predicate Contains(s: string, sub: string)
    decreases |s|
  {
    HasPrefix(s, sub) || (|s| > 0 && Contains(s[1..], sub))
  }

  /** `sub` occurs in `s` starting at index `i`. */
  ghost predicate OccursAt(s: string, sub: string, i: int) {
    0 <= i && i + |sub| <= |s| && s[i..i + |sub|] == sub
  }

  /** `Contains` finds `sub` exactly when it occurs somewhere in `s`. */
  lemma {:induction false} ContainsIff(s: string, sub: string)
    ensures Contains(s, sub) <==> exists i :: OccursAt(s, sub, i)
    decreases |s|
  {
    assert OccursAt(s, sub, 0) <==> HasPrefix(s, sub);
    if |s| > 0 {
      ContainsIff(s[1..], sub);
      forall i | 1 <= i
        ensures OccursAt(s, sub, i) <==> OccursAt(s[1..], sub, i - 1)
      {
        if i + |sub| <= |s| {
          assert s[1..][i - 1..i - 1 + |sub|] == s[i..i + |sub|];
        }
      }
      if Contains(s[1..], sub) {
        var i :| OccursAt(s[1..], sub, i);
        assert OccursAt(s, sub, i + 1);
      }
    }
  }
}
