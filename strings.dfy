/**
 * The three Python string primitives the fan-out relies on: the substring test
 * `p in s`, `s.replace(p, r)` (every non-overlapping occurrence, scanned left to
 * right) and, as its independent characterisation, `r.join(s.split(p))`.
 */
module Strings {

  predicate StartsWith(s: string, p: string) {
    |p| <= |s| && s[..|p|] == p
  }

  /** Python's `p in s`. */
  predicate Contains(s: string, p: string)
    decreases |s|
  {
    StartsWith(s, p) || (s != [] && Contains(s[1..], p))
  }

  /** Python's `s.replace(p, r)` for a non-empty `p`. */
  function ReplaceAll(s: string, p: string, r: string): string
    requires p != []
    decreases |s|
  {
    if s == [] then []
    else if StartsWith(s, p) then r + ReplaceAll(s[|p|..], p, r)
    else [s[0]] + ReplaceAll(s[1..], p, r)
  }

  /** Python's `s.split(p)` for a non-empty `p`: the pieces between the occurrences. */
  function Split(s: string, p: string): (parts: seq<string>)
    requires p != []
    ensures |parts| >= 1
    decreases |s|
  {
    if s == [] then [[]]
    else if StartsWith(s, p) then [[]] + Split(s[|p|..], p)
    else
      var rest := Split(s[1..], p);
      [[s[0]] + rest[0]] + rest[1..]
  }

  /** Python's `sep.join(parts)`. */
  function Join(parts: seq<string>, sep: string): string
    requires |parts| >= 1
    decreases |parts|
  {
    if |parts| == 1 then parts[0] else parts[0] + sep + Join(parts[1..], sep)
  }

  lemma JoinCons(c: char, parts: seq<string>, sep: string)
    requires |parts| >= 1
    ensures Join([[c] + parts[0]] + parts[1..], sep) == [c] + Join(parts, sep)
  {
    var first := [[c] + parts[0]] + parts[1..];
    assert first[1..] == parts[1..];
  }

  /** Splitting loses nothing: joining the pieces back with `p` gives `s`. */
  lemma {:induction false} JoinSplit(s: string, p: string)
    requires p != []
    ensures Join(Split(s, p), p) == s
    decreases |s|
  {
    if s == [] {
    } else if StartsWith(s, p) {
      var rest := Split(s[|p|..], p);
      JoinSplit(s[|p|..], p);
      var parts := [[]] + rest;
      assert parts[1..] == rest;
      assert Join(parts, p) == [] + p + Join(rest, p);
      assert s == p + s[|p|..];
    } else {
      var rest := Split(s[1..], p);
      JoinSplit(s[1..], p);
      JoinCons(s[0], rest, p);
      assert Split(s, p) == [[s[0]] + rest[0]] + rest[1..];
      assert s == [s[0]] + s[1..];
    }
  }

  /** `p` occurs in `s` exactly when the split yields more than one piece. */
  lemma {:induction false} ContainsIffSplits(s: string, p: string)
    requires p != []
    ensures Contains(s, p) <==> |Split(s, p)| > 1
    decreases |s|
  {
    if s != [] && !StartsWith(s, p) {
      ContainsIffSplits(s[1..], p);
    }
  }

  /** `s.replace(p, r) == r.join(s.split(p))`: every occurrence, and only those, becomes `r`. */
  lemma {:induction false} ReplaceAllIsJoinOfSplit(s: string, p: string, r: string)
    requires p != []
    ensures ReplaceAll(s, p, r) == Join(Split(s, p), r)
    decreases |s|
  {
    if s == [] {
    } else if StartsWith(s, p) {
      ReplaceAllIsJoinOfSplit(s[|p|..], p, r);
      var parts := [[]] + Split(s[|p|..], p);
      assert parts[1..] == Split(s[|p|..], p);
    } else {
      ReplaceAllIsJoinOfSplit(s[1..], p, r);
      JoinCons(s[0], Split(s[1..], p), r);
    }
  }

  /** A string without an occurrence of `p` is returned unchanged by `replace`. */
  lemma {:induction false} ReplaceAllAbsent(s: string, p: string, r: string)
    requires p != [] && !Contains(s, p)
    ensures ReplaceAll(s, p, r) == s
    decreases |s|
  {
    if s != [] {
      ReplaceAllAbsent(s[1..], p, r);
    }
  }

  /** Text before the first occurrence that cannot start one is copied unchanged. */
  lemma {:induction false} ReplaceAllSkipsPrefix(pre: string, t: string, p: string, r: string)
    requires p != [] && p[0] !in pre
    ensures ReplaceAll(pre + t, p, r) == pre + ReplaceAll(t, p, r)
    decreases |pre|
  {
    if pre != [] {
      var s := pre + t;
      assert s[0] == pre[0] != p[0];
      assert !StartsWith(s, p);
      assert s[1..] == pre[1..] + t;
      ReplaceAllSkipsPrefix(pre[1..], t, p, r);
      assert ReplaceAll(s, p, r) == [s[0]] + ReplaceAll(s[1..], p, r);
      assert pre == [pre[0]] + pre[1..];
    } else {
      assert pre + t == t;
    }
  }

  lemma {:induction false} ContainsAfter(pre: string, t: string, p: string)
    requires Contains(t, p)
    ensures Contains(pre + t, p)
    decreases |pre|
  {
    if pre != [] {
      assert (pre + t)[1..] == pre[1..] + t;
      ContainsAfter(pre[1..], t, p);
    } else {
      assert pre + t == t;
    }
  }
}
