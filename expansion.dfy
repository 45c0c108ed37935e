/**
 * List fan-out (`expand_list_params`): one command template becomes one
 * command per combination of the list parameters whose `{{key}}` marker it
 * mentions, after which every command gets one `safe_substitute` pass with
 * all parameters.
 */
module Expansion {
  import opened Strings
  import opened Template

  /**
   * A parameter value as loaded from the configuration.  `text` is Python's
   * `str()` of the whole value, which is what `safe_substitute` inserts for
   * `$key`; the items of a list are likewise already rendered.
   */
  datatype Param = Scalar(text: string) | List(items: seq<string>, text: string)

  /** The parameter dictionary, in its iteration (insertion) order. */
  type Params = seq<(string, Param)>

  /** The mapping `safe_substitute` receives: each key to its rendered value; the first binding of a key wins. */
  function Mapping(ps: Params): map<string, string>
    decreases |ps|
  {
    if ps == [] then map[] else Mapping(ps[1..])[ps[0].0 := ps[0].1.text]
  }

  /** A key is bound exactly when some parameter has that name. */
  lemma {:induction false} MappingKeys(ps: Params, k: string)
    ensures k in Mapping(ps) <==> exists i :: 0 <= i < |ps| && ps[i].0 == k
    decreases |ps|
  {
    if ps != [] {
      MappingKeys(ps[1..], k);
      if k in Mapping(ps[1..]) {
        var i :| 0 <= i < |ps[1..]| && ps[1..][i].0 == k;
        assert ps[i + 1].0 == k;
      }
      if exists i :: 0 <= i < |ps| && ps[i].0 == k {
        var i :| 0 <= i < |ps| && ps[i].0 == k;
        if i > 0 {
          assert ps[1..][i - 1].0 == k;
        }
      }
    }
  }

  /** A parameter whose name no earlier parameter has is bound to its rendered value. */
  lemma {:induction false} MappingFirst(ps: Params, i: nat)
    requires i < |ps| && forall j :: 0 <= j < i ==> ps[j].0 != ps[i].0
    ensures ps[i].0 in Mapping(ps) && Mapping(ps)[ps[i].0] == ps[i].1.text
    decreases i
  {
    if i > 0 {
      assert ps[1..][i - 1] == ps[i];
      MappingFirst(ps[1..], i - 1);
    }
  }

  /** The literal marker `{{key}}` of a list parameter. */
  function Marker(key: string): (m: string)
    ensures |m| == |key| + 4 && m[0] == '{'
  {
    "{{" + key + "}}"
  }

  /** A string without `{` mentions no marker. */
  lemma {:induction false} NoBraceNoMarker(t: string, key: string)
    requires '{' !in t
    ensures !Contains(t, Marker(key))
    decreases |t|
  {
    if t != [] {
      assert !StartsWith(t, Marker(key)) by {
        if |Marker(key)| <= |t| {
          assert t[..|Marker(key)|][0] == t[0];
        }
      }
      NoBraceNoMarker(t[1..], key);
    }
  }

  /**
   * Text without `{` around the marker of `k` mentions the marker of no key
   * that starts with another character: the only `{{` is the one of `k`'s
   * marker.
   */
  lemma {:induction false} LoneMarkerOnly(pre: string, k: string, post: string, r: string)
    requires '{' !in pre && '{' !in k && '{' !in post && k != [] && r != [] && k[0] != r[0]
    ensures !Contains(pre + Marker(k) + post, Marker(r))
    decreases |pre|
  {
    var s, m := pre + Marker(k) + post, Marker(r);
    if pre != [] {
      assert !StartsWith(s, m) by {
        if |m| <= |s| {
          assert s[..|m|][0] == pre[0];
        }
      }
      assert s[1..] == pre[1..] + Marker(k) + post;
      LoneMarkerOnly(pre[1..], k, post, r);
    } else {
      assert s == Marker(k) + post;
      assert !StartsWith(s, m) by {
        if |m| <= |s| {
          assert s[..|m|][2] == k[0] && m[2] == r[0];
        }
      }
      var t := s[1..];
      assert !StartsWith(t, m) by {
        if |m| <= |t| {
          assert t[..|m|][1] == k[0] && m[1] == '{';
        }
      }
      assert t[1..] == k + "}}" + post;
      NoBraceNoMarker(t[1..], r);
    }
  }

  /** An item as it is written into a command: `"item"`. */
  function Quote(item: string): string {
    "\"" + item + "\""
  }

  /** A quoted item is the item between two double quotes, and quoting loses nothing. */
  lemma QuoteShape(item: string, other: string)
    ensures |Quote(item)| == |item| + 2 && Quote(item)[0] == '"' && Quote(item)[|item| + 1] == '"'
    ensures Quote(item)[1..|item| + 1] == item
    ensures Quote(item) == Quote(other) <==> item == other
  {
    if Quote(item) == Quote(other) {
      assert item == Quote(item)[1..|item| + 1] && other == Quote(other)[1..|other| + 1];
    }
  }

  /** What one working string becomes when list `key` is processed: one copy per item, or itself. */
  function Variants(c: string, key: string, items: seq<string>): seq<string> {
    if Contains(c, Marker(key)) then
      seq(|items|, j requires 0 <= j < |items| => ReplaceAll(c, Marker(key), Quote(items[j])))
    else [c]
  }

  /** One pass of the fan-out over the working strings for list `key`. */
  function StepKey(cs: seq<string>, key: string, items: seq<string>): seq<string>
    decreases |cs|
  {
    if cs == [] then [] else StepKey(cs[..|cs| - 1], key, items) + Variants(cs[|cs| - 1], key, items)
  }

  /** The effect of one parameter on the working strings: lists fan out, other values do nothing. */
  function Stage(cs: seq<string>, binding: (string, Param)): seq<string> {
    match binding.1
    case Scalar(_) => cs
    case List(items, _) => StepKey(cs, binding.0, items)
  }

  /** The working strings after processing the parameters `ps` in order. */
  function FanOutFrom(cs: seq<string>, ps: Params): seq<string>
    decreases |ps|
  {
    if ps == [] then cs else Stage(FanOutFrom(cs, ps[..|ps| - 1]), ps[|ps| - 1])
  }

  function FanOut(cmd: string, ps: Params): seq<string> {
    FanOutFrom([cmd], ps)
  }

  /** The commands `expand_list_params(cmd, params)` returns. */
  function Expand(cmd: string, ps: Params): seq<string> {
    SubstituteAll(FanOut(cmd, ps), Mapping(ps))
  }

  /** Every string passed through `safe_substitute` with the same mapping, in order. */
  function SubstituteAll(cs: seq<string>, env: map<string, string>): seq<string> {
    seq(|cs|, i requires 0 <= i < |cs| => SafeSubstitute(cs[i], env))
  }

  /** The closing loop of `expand_list_params`, which builds `final_cmds`. */
  method SubstituteEach(cs: seq<string>, env: map<string, string>) returns (out: seq<string>)
    ensures out == SubstituteAll(cs, env)
  {
    ghost var all := SubstituteAll(cs, env);
    out := [];
    var i := 0;
    while i < |cs|
      invariant 0 <= i <= |cs| == |all|
      invariant out == all[..i]
    {
      assert all[..i + 1] == all[..i] + [SafeSubstitute(cs[i], env)];
      out := out + [SafeSubstitute(cs[i], env)];
      i := i + 1;
    }
    assert all[..i] == all;
  }

  /** The body of the outer loop of `expand_list_params` for a list-valued key: `temp_cmds` built from `result_cmds`. */
  method ExpandKey(resultCmds: seq<string>, key: string, items: seq<string>) returns (tempCmds: seq<string>)
    ensures tempCmds == StepKey(resultCmds, key, items)
  {
    tempCmds := [];
    var i := 0;
    while i < |resultCmds|
      invariant 0 <= i <= |resultCmds|
      invariant tempCmds == StepKey(resultCmds[..i], key, items)
    {
      var c := resultCmds[i];
      assert resultCmds[..i + 1][..i] == resultCmds[..i];
      ghost var before := tempCmds;
      ghost var variants := Variants(c, key, items);
      if Contains(c, Marker(key)) {
        var j := 0;
        while j < |items|
          invariant 0 <= j <= |items| == |variants|
          invariant tempCmds == before + variants[..j]
        {
          assert variants[j] == ReplaceAll(c, Marker(key), Quote(items[j]));
          assert variants[..j + 1] == variants[..j] + [variants[j]];
          tempCmds := tempCmds + [ReplaceAll(c, Marker(key), Quote(items[j]))];
          j := j + 1;
        }
        assert variants[..j] == variants;
      } else {
        tempCmds := tempCmds + [c];
      }
      i := i + 1;
    }
    assert resultCmds[..i] == resultCmds;
  }

  /** `expand_list_params`: every list-valued key rebuilds the working list in turn, then each string is substituted. */
  method ExpandListParams(cmd: string, params: Params) returns (finalCmds: seq<string>)
    ensures finalCmds == Expand(cmd, params)
  {
    var resultCmds := [cmd];
    var p := 0;
    while p < |params|
      invariant 0 <= p <= |params|
      invariant resultCmds == FanOutFrom([cmd], params[..p])
    {
      var (key, val) := params[p];
      assert params[..p + 1][..p] == params[..p];
      if val.List? {
        resultCmds := ExpandKey(resultCmds, key, val.items);
      }
      p := p + 1;
    }
    assert params[..p] == params;
    finalCmds := SubstituteEach(resultCmds, Mapping(params));
  }

  /** How many of the strings contain `pat`. */
  function Hits(cs: seq<string>, pat: string): nat
    decreases |cs|
  {
    if cs == [] then 0 else Hits(cs[..|cs| - 1], pat) + (if Contains(cs[|cs| - 1], pat) then 1 else 0)
  }

  /** The fan-out works string by string: processing a concatenation is concatenating the results. */
  lemma {:induction false} StepKeyAppend(a: seq<string>, b: seq<string>, key: string, items: seq<string>)
    ensures StepKey(a + b, key, items) == StepKey(a, key, items) + StepKey(b, key, items)
    decreases |b|
  {
    if b == [] {
      assert a + b == a;
    } else {
      var b' := b[..|b| - 1];
      assert (a + b)[..|a + b| - 1] == a + b';
      assert (a + b)[|a + b| - 1] == b[|b| - 1];
      StepKeyAppend(a, b', key, items);
    }
  }

  /** A string without the marker is carried over unchanged, in its place between the others. */
  lemma StepKeyKeepsMiss(a: seq<string>, c: string, b: seq<string>, key: string, items: seq<string>)
    requires !Contains(c, Marker(key))
    ensures StepKey(a + [c] + b, key, items) == StepKey(a, key, items) + [c] + StepKey(b, key, items)
  {
    StepKeyAppend(a + [c], b, key, items);
    StepKeyAppend(a, [c], key, items);
    assert [c][..0] == [];
  }

  lemma MulSucc(h: nat, n: nat)
    ensures (h + 1) * n == h * n + n
  {
  }

  /** The length law of one pass: a string with the marker becomes |items| strings, one without stays one. */
  lemma {:induction false} StepKeyLength(cs: seq<string>, key: string, items: seq<string>)
    ensures |StepKey(cs, key, items)| == |cs| - Hits(cs, Marker(key)) + Hits(cs, Marker(key)) * |items|
    decreases |cs|
  {
    if cs != [] {
      var front, last := cs[..|cs| - 1], cs[|cs| - 1];
      var m := Marker(key);
      StepKeyLength(front, key, items);
      var h := Hits(front, m);
      var v := Variants(last, key, items);
      assert StepKey(cs, key, items) == StepKey(front, key, items) + v;
      if Contains(last, m) {
        assert Hits(cs, m) == h + 1;
        assert |v| == |items|;
        MulSucc(h, |items|);
      } else {
        assert Hits(cs, m) == h;
        assert |v| == 1;
      }
    }
  }

  function Flatten<T>(bs: seq<seq<T>>): seq<T>
    decreases |bs|
  {
    if bs == [] then [] else Flatten(bs[..|bs| - 1]) + bs[|bs| - 1]
  }

  lemma {:induction false} FlattenLength<T>(bs: seq<seq<T>>, k: nat)
    requires forall a :: 0 <= a < |bs| ==> |bs[a]| == k
    ensures |Flatten(bs)| == |bs| * k
    decreases |bs|
  {
    if bs != [] {
      var n := |bs| - 1;
      var front := bs[..n];
      assert forall a :: 0 <= a < |front| ==> |front[a]| == k by {
        forall a | 0 <= a < |front| ensures |front[a]| == k {
          assert front[a] == bs[a];
        }
      }
      FlattenLength(front, k);
      assert Flatten(bs) == Flatten(front) + bs[n];
      assert |bs[n]| == k;
      MulSucc(n, k);
    }
  }

  /** In blocks of one length `k`, element j of block a sits at a * k + j of the flattening. */
  lemma {:induction false} FlattenAt<T>(bs: seq<seq<T>>, k: nat, a: nat, j: nat)
    requires forall b :: 0 <= b < |bs| ==> |bs[b]| == k
    requires a < |bs| && j < k
    ensures a * k + j < |Flatten(bs)| && Flatten(bs)[a * k + j] == bs[a][j]
    decreases |bs|
  {
    var n := |bs| - 1;
    var front := bs[..n];
    FlattenLength(front, k);
    assert Flatten(bs) == Flatten(front) + bs[n];
    if a < n {
      FlattenAt(front, k, a, j);
    } else {
      assert a * k == |Flatten(front)|;
    }
  }

  /** A pass is the concatenation, in order, of what each working string becomes. */
  lemma {:induction false} StepKeyIsFlatten(cs: seq<string>, key: string, items: seq<string>)
    ensures StepKey(cs, key, items) == Flatten(seq(|cs|, a requires 0 <= a < |cs| => Variants(cs[a], key, items)))
    decreases |cs|
  {
    var bs := seq(|cs|, a requires 0 <= a < |cs| => Variants(cs[a], key, items));
    if cs != [] {
      var n := |cs| - 1;
      StepKeyIsFlatten(cs[..n], key, items);
      assert bs[..n] == seq(n, a requires 0 <= a < n => Variants(cs[..n][a], key, items));
    }
  }

  /** When every working string carries the marker, a pass yields |cs| * |items| strings. */
  lemma StepKeyAllHitLength(cs: seq<string>, key: string, items: seq<string>)
    requires forall i :: 0 <= i < |cs| ==> Contains(cs[i], Marker(key))
    ensures |StepKey(cs, key, items)| == |cs| * |items|
  {
    var bs := seq(|cs|, a requires 0 <= a < |cs| => Variants(cs[a], key, items));
    StepKeyIsFlatten(cs, key, items);
    FlattenLength(bs, |items|);
  }

  /**
   * When every working string carries the marker, the pass is ordered by
   * working string first and item second: position a * |items| + j holds
   * string a with every occurrence of the marker replaced by the same j-th
   * item.
   */
  lemma StepKeyAllHitAt(cs: seq<string>, key: string, items: seq<string>, a: nat, j: nat)
    requires forall i :: 0 <= i < |cs| ==> Contains(cs[i], Marker(key))
    requires a < |cs| && j < |items|
    ensures a * |items| + j < |StepKey(cs, key, items)|
    ensures StepKey(cs, key, items)[a * |items| + j] == ReplaceAll(cs[a], Marker(key), Quote(items[j]))
  {
    var bs := seq(|cs|, a requires 0 <= a < |cs| => Variants(cs[a], key, items));
    StepKeyIsFlatten(cs, key, items);
    FlattenAt(bs, |items|, a, j);
  }

  /** With no marker in any working string, a pass changes nothing. */
  lemma {:induction false} StepKeyAllMiss(cs: seq<string>, key: string, items: seq<string>)
    requires forall i :: 0 <= i < |cs| ==> !Contains(cs[i], Marker(key))
    ensures StepKey(cs, key, items) == cs
    decreases |cs|
  {
    if cs != [] {
      StepKeyAllMiss(cs[..|cs| - 1], key, items);
      assert cs == cs[..|cs| - 1] + [cs[|cs| - 1]];
    }
  }

  lemma {:induction false} FanOutFromEmpty(ps: Params)
    ensures FanOutFrom([], ps) == []
    decreases |ps|
  {
    if ps != [] {
      FanOutFromEmpty(ps[..|ps| - 1]);
    }
  }

  /** Processing `ps1` then `ps2` is processing `ps1 + ps2`. */
  lemma {:induction false} FanOutFromAppend(cs: seq<string>, ps1: Params, ps2: Params)
    ensures FanOutFrom(cs, ps1 + ps2) == FanOutFrom(FanOutFrom(cs, ps1), ps2)
    decreases |ps2|
  {
    if ps2 == [] {
      assert ps1 + ps2 == ps1;
    } else {
      var ps2' := ps2[..|ps2| - 1];
      assert (ps1 + ps2)[..|ps1 + ps2| - 1] == ps1 + ps2';
      FanOutFromAppend(cs, ps1, ps2');
    }
  }

  /** Scalar parameters never fan out. */
  lemma {:induction false} FanOutFromScalars(cs: seq<string>, ps: Params)
    requires forall i :: 0 <= i < |ps| ==> ps[i].1.Scalar?
    ensures FanOutFrom(cs, ps) == cs
    decreases |ps|
  {
    if ps != [] {
      FanOutFromScalars(cs, ps[..|ps| - 1]);
    }
  }

  /** If no list marker occurs in any working string, nothing fans out. */
  lemma {:induction false} FanOutFromUnmarked(cs: seq<string>, ps: Params)
    requires forall i, c :: 0 <= i < |ps| && ps[i].1.List? && c in cs ==> !Contains(c, Marker(ps[i].0))
    ensures FanOutFrom(cs, ps) == cs
    decreases |ps|
  {
    if ps != [] {
      FanOutFromUnmarked(cs, ps[..|ps| - 1]);
      var last := ps[|ps| - 1];
      if last.1.List? {
        assert forall i :: 0 <= i < |cs| ==> cs[i] in cs;
        StepKeyAllMiss(cs, last.0, last.1.items);
      }
    }
  }

  /**
   * A command mentioning no list parameter's marker expands to exactly one
   * command: itself after one `safe_substitute` pass.  A scalar written as
   * `{{name}}` is therefore left as written.
   */
  lemma ExpandWithoutMarkers(cmd: string, ps: Params)
    requires forall i :: 0 <= i < |ps| && ps[i].1.List? ==> !Contains(cmd, Marker(ps[i].0))
    ensures Expand(cmd, ps) == [SafeSubstitute(cmd, Mapping(ps))]
  {
    FanOutFromUnmarked([cmd], ps);
  }

  /**
   * A command mentioning the marker of list parameter `p` and no other list
   * marker that is live at its turn expands to one command per item, in item
   * order, the j-th with every marker replaced by the quoted j-th item.
   * Other parameters may be scalars or lists the command never reaches.
   */
  lemma ExpandOneList(cmd: string, ps: Params, p: nat)
    requires p < |ps| && ps[p].1.List?
    requires forall q :: 0 <= q < p && ps[q].1.List? ==> !Contains(cmd, Marker(ps[q].0))
    requires forall q, c :: p < q < |ps| && ps[q].1.List? && c in Variants(cmd, ps[p].0, ps[p].1.items) ==> !Contains(c, Marker(ps[q].0))
    requires Contains(cmd, Marker(ps[p].0))
    ensures |Expand(cmd, ps)| == |ps[p].1.items|
    ensures forall j :: 0 <= j < |ps[p].1.items| ==>
      Expand(cmd, ps)[j] == SafeSubstitute(ReplaceAll(cmd, Marker(ps[p].0), Quote(ps[p].1.items[j])), Mapping(ps))
  {
    FanOutOneList(cmd, ps, p);
  }

  /**
   * The fan-out half of `ExpandOneList`: list parameters before `p` whose
   * marker the command lacks, and list parameters after `p` whose marker none
   * of the command's variants has, are skipped, so the working strings are
   * the command's variants for list `p`.
   */
  lemma FanOutOneList(cmd: string, ps: Params, p: nat)
    requires p < |ps| && ps[p].1.List?
    requires forall q :: 0 <= q < p && ps[q].1.List? ==> !Contains(cmd, Marker(ps[q].0))
    requires forall q, c :: p < q < |ps| && ps[q].1.List? && c in Variants(cmd, ps[p].0, ps[p].1.items) ==> !Contains(c, Marker(ps[q].0))
    ensures FanOut(cmd, ps) == Variants(cmd, ps[p].0, ps[p].1.items)
  {
    var (key, items) := (ps[p].0, ps[p].1.items);
    var vs := Variants(cmd, key, items);
    var front, back := ps[..p], ps[p + 1..];
    assert ps == front + [ps[p]] + back;
    assert forall i, c :: 0 <= i < |front| && front[i].1.List? && c in [cmd] ==> !Contains(c, Marker(front[i].0)) by {
      forall i, c | 0 <= i < |front| && front[i].1.List? && c in [cmd] ensures !Contains(c, Marker(front[i].0)) {
        assert front[i] == ps[i];
      }
    }
    assert forall i, c :: 0 <= i < |back| && back[i].1.List? && c in vs ==> !Contains(c, Marker(back[i].0)) by {
      forall i, c | 0 <= i < |back| && back[i].1.List? && c in vs ensures !Contains(c, Marker(back[i].0)) {
        assert back[i] == ps[p + 1 + i];
      }
    }
    FanOutFromUnmarked([cmd], front);
    FanOutFromAppend([cmd], front, [ps[p]]);
    assert FanOutFrom([cmd], front + [ps[p]]) == StepKey([cmd], key, items) by {
      assert (front + [ps[p]])[..p] == front;
    }
    StepKeySingle(cmd, key, items);
    FanOutFromAppend([cmd], front + [ps[p]], back);
    FanOutFromUnmarked(vs, back);
  }

  /**
   * The per-parameter form of "an unreferenced list is ignored": a list
   * parameter whose marker no working string mentions at its turn leaves
   * the fan-out as if it were absent.
   */
  lemma FanOutFromIgnoresList(cs: seq<string>, ps1: Params, key: string, items: seq<string>, text: string, ps2: Params)
    requires forall c :: c in FanOutFrom(cs, ps1) ==> !Contains(c, Marker(key))
    ensures FanOutFrom(cs, ps1 + [(key, List(items, text))] + ps2) == FanOutFrom(FanOutFrom(cs, ps1), ps2)
  {
    var b := (key, List(items, text));
    var ws := FanOutFrom(cs, ps1);
    assert forall i :: 0 <= i < |ws| ==> !Contains(ws[i], Marker(key)) by {
      forall i | 0 <= i < |ws| ensures !Contains(ws[i], Marker(key)) {
        assert ws[i] in ws;
      }
    }
    StepKeyAllMiss(ws, key, items);
    assert FanOutFrom(cs, ps1 + [b]) == Stage(ws, b) by {
      assert (ps1 + [b])[..|ps1|] == ps1;
    }
    FanOutFromAppend(cs, ps1 + [b], ps2);
  }

  /** Parameter `q` does nothing at its turn: it is a scalar, or no working string then mentions its marker. */
  ghost predicate Idle(cs: seq<string>, ps: Params, q: nat)
    requires q < |ps|
  {
    ps[q].1.List? ==> forall c :: c in FanOutFrom(cs, ps[..q]) ==> !Contains(c, Marker(ps[q].0))
  }

  /** The parameters at the positions in `at`, in their order. */
  function Keep(ps: Params, at: set<nat>): Params
    decreases |ps|
  {
    if ps == [] then [] else Keep(ps[..|ps| - 1], at) + (if |ps| - 1 in at then [ps[|ps| - 1]] else [])
  }

  /** Parameters idle at their turn can be dropped: the others alone decide the fan-out. */
  lemma {:induction false} FanOutFromKeep(cs: seq<string>, ps: Params, at: set<nat>)
    requires forall q :: 0 <= q < |ps| && q !in at ==> Idle(cs, ps, q)
    ensures FanOutFrom(cs, ps) == FanOutFrom(cs, Keep(ps, at))
    decreases |ps|
  {
    if ps != [] {
      var n := |ps| - 1;
      var front := ps[..n];
      forall q | 0 <= q < |front| && q !in at ensures Idle(cs, front, q) {
        assert front[..q] == ps[..q] && front[q] == ps[q];
        assert Idle(cs, ps, q);
      }
      FanOutFromKeep(cs, front, at);
      var kept := Keep(front, at);
      assert FanOutFrom(cs, ps) == Stage(FanOutFrom(cs, front), ps[n]);
      if n in at {
        var k := kept + [ps[n]];
        assert Keep(ps, at) == k;
        assert k[..|k| - 1] == kept && k[|k| - 1] == ps[n];
        assert FanOutFrom(cs, k) == Stage(FanOutFrom(cs, kept), ps[n]);
      } else {
        assert Idle(cs, ps, n);
        if ps[n].1.List? {
          var ws := FanOutFrom(cs, front);
          forall i | 0 <= i < |ws| ensures !Contains(ws[i], Marker(ps[n].0)) {
            assert ws[i] in ws;
          }
          StepKeyAllMiss(ws, ps[n].0, ps[n].1.items);
        }
        assert Keep(ps, at) == kept + [] == kept;
      }
    }
  }

  lemma {:induction false} KeepNone(ps: Params, at: set<nat>)
    requires forall q :: q in at ==> q >= |ps|
    ensures Keep(ps, at) == []
    decreases |ps|
  {
    if ps != [] {
      KeepNone(ps[..|ps| - 1], at);
    }
  }

  lemma {:induction false} KeepOne(ps: Params, at: set<nat>, p: nat)
    requires p < |ps| && p in at
    requires forall q :: q in at && q < |ps| ==> q == p
    ensures Keep(ps, at) == [ps[p]]
    decreases |ps|
  {
    var n := |ps| - 1;
    if n == p {
      KeepNone(ps[..n], at);
    } else {
      KeepOne(ps[..n], at, p);
      assert ps[..n][p] == ps[p];
    }
  }

  lemma {:induction false} KeepTwo(ps: Params, at: set<nat>, p1: nat, p2: nat)
    requires p1 < p2 < |ps| && p1 in at && p2 in at
    requires forall q :: q in at && q < |ps| ==> q == p1 || q == p2
    ensures Keep(ps, at) == [ps[p1], ps[p2]]
    decreases |ps|
  {
    var n := |ps| - 1;
    if n == p2 {
      KeepOne(ps[..n], at, p1);
      assert ps[..n][p1] == ps[p1];
    } else {
      KeepTwo(ps[..n], at, p1, p2);
      assert ps[..n][p1] == ps[p1] && ps[..n][p2] == ps[p2];
    }
  }

  /** The product of the lengths of the list parameters. */
  function ListProduct(ps: Params): nat
    decreases |ps|
  {
    if ps == [] then 1
    else
      var last := ps[|ps| - 1];
      ListProduct(ps[..|ps| - 1]) * (if last.1.List? then |last.1.items| else 1)
  }

  /** Every list parameter's marker is present in every working string when that parameter is processed. */
  ghost predicate Saturated(cmd: string, ps: Params) {
    forall p, c :: 0 <= p < |ps| && ps[p].1.List? && c in FanOut(cmd, ps[..p]) ==> Contains(c, Marker(ps[p].0))
  }

  /** The product law: a command that mentions every list parameter fans out into the product of their lengths. */
  lemma {:induction false} FanOutProduct(cmd: string, ps: Params)
    requires Saturated(cmd, ps)
    ensures |FanOut(cmd, ps)| == ListProduct(ps)
    decreases |ps|
  {
    if ps != [] {
      var front := ps[..|ps| - 1];
      var last := ps[|ps| - 1];
      assert Saturated(cmd, front) by {
        forall p, c | 0 <= p < |front| && front[p].1.List? && c in FanOut(cmd, front[..p])
          ensures Contains(c, Marker(front[p].0))
        {
          assert front[..p] == ps[..p];
          assert front[p] == ps[p];
        }
      }
      FanOutProduct(cmd, front);
      if last.1.List? {
        var cs := FanOut(cmd, front);
        assert ps[..|ps| - 1] == front;
        assert forall i :: 0 <= i < |cs| ==> Contains(cs[i], Marker(last.0)) by {
          forall i | 0 <= i < |cs| ensures Contains(cs[i], Marker(last.0)) {
            assert cs[i] in FanOut(cmd, ps[..|ps| - 1]);
          }
        }
        StepKeyAllHitLength(cs, last.0, last.1.items);
      }
    }
  }

  /** A list whose marker occurs in every working string, but which is empty, removes the command entirely. */
  lemma ExpandEmptyListDrops(cmd: string, ps: Params, p: nat)
    requires p < |ps| && ps[p].1.List? && ps[p].1.items == []
    requires forall c :: c in FanOut(cmd, ps[..p]) ==> Contains(c, Marker(ps[p].0))
    ensures Expand(cmd, ps) == []
  {
    var cs := FanOut(cmd, ps[..p]);
    assert forall i :: 0 <= i < |cs| ==> Contains(cs[i], Marker(ps[p].0)) by {
      forall i | 0 <= i < |cs| ensures Contains(cs[i], Marker(ps[p].0)) {
        assert cs[i] in cs;
      }
    }
    StepKeyAllHitLength(cs, ps[p].0, []);
    assert ps[..p + 1][..p] == ps[..p];
    assert FanOutFrom([cmd], ps[..p + 1]) == [];
    FanOutFromAppend([cmd], ps[..p + 1], ps[p + 1..]);
    assert ps[..p + 1] + ps[p + 1..] == ps;
    FanOutFromEmpty(ps[p + 1..]);
  }

  lemma StepKeySingle(c: string, key: string, items: seq<string>)
    ensures StepKey([c], key, items) == Variants(c, key, items)
  {
    assert [c][..0] == [];
  }

  /** Exactly two list parameters, processed one after the other. */
  lemma FanOutPair(cmd: string, ps: Params)
    requires |ps| == 2 && ps[0].1.List? && ps[1].1.List?
    ensures FanOut(cmd, ps) == StepKey(Variants(cmd, ps[0].0, ps[0].1.items), ps[1].0, ps[1].1.items)
  {
    var front := ps[..1];
    assert front[..0] == [] && front[0] == ps[0];
    assert FanOutFrom([cmd], front) == Stage([cmd], ps[0]);
    StepKeySingle(cmd, ps[0].0, ps[0].1.items);
    assert FanOutFrom([cmd], ps) == Stage(FanOutFrom([cmd], front), ps[1]);
  }

  /**
   * Two list parameters at positions p1 < p2, every other parameter idle at
   * its turn: the second list's pass runs over the first list's variants.
   */
  lemma FanOutTwoLists(cmd: string, ps: Params, p1: nat, p2: nat)
    requires p1 < p2 < |ps| && ps[p1].1.List? && ps[p2].1.List?
    requires forall q :: 0 <= q < |ps| && q != p1 && q != p2 ==> Idle([cmd], ps, q)
    ensures FanOut(cmd, ps) == StepKey(Variants(cmd, ps[p1].0, ps[p1].1.items), ps[p2].0, ps[p2].1.items)
  {
    FanOutFromKeep([cmd], ps, {p1, p2});
    KeepTwo(ps, {p1, p2}, p1, p2);
    FanOutPair(cmd, [ps[p1], ps[p2]]);
  }

  /**
   * The two-list length law: when the command mentions the first list's
   * marker and each of its variants the second's, the fan-out has |a| * |b|
   * strings, also when either list is empty.
   */
  lemma FanOutTwoListsLength(cmd: string, ps: Params, p1: nat, p2: nat)
    requires p1 < p2 < |ps| && ps[p1].1.List? && ps[p2].1.List?
    requires forall q :: 0 <= q < |ps| && q != p1 && q != p2 ==> Idle([cmd], ps, q)
    requires Contains(cmd, Marker(ps[p1].0))
    requires forall i :: 0 <= i < |ps[p1].1.items| ==>
      Contains(ReplaceAll(cmd, Marker(ps[p1].0), Quote(ps[p1].1.items[i])), Marker(ps[p2].0))
    ensures |FanOut(cmd, ps)| == |ps[p1].1.items| * |ps[p2].1.items|
    ensures |Expand(cmd, ps)| == |ps[p1].1.items| * |ps[p2].1.items|
  {
    var (k1, a, k2, b) := (ps[p1].0, ps[p1].1.items, ps[p2].0, ps[p2].1.items);
    var cs := Variants(cmd, k1, a);
    FanOutTwoLists(cmd, ps, p1, p2);
    assert |cs| == |a|;
    assert forall i :: 0 <= i < |cs| ==> Contains(cs[i], Marker(k2)) by {
      forall i | 0 <= i < |cs| ensures Contains(cs[i], Marker(k2)) {
        assert cs[i] == ReplaceAll(cmd, Marker(k1), Quote(a[i]));
      }
    }
    StepKeyAllHitLength(cs, k2, b);
  }

  /** The two-list fan-out: |a| * |b| strings, the first list outermost. */
  lemma FanOutTwoListsAt(cmd: string, ps: Params, p1: nat, p2: nat, x: nat, y: nat)
    requires p1 < p2 < |ps| && ps[p1].1.List? && ps[p2].1.List?
    requires forall q :: 0 <= q < |ps| && q != p1 && q != p2 ==> Idle([cmd], ps, q)
    requires Contains(cmd, Marker(ps[p1].0))
    requires forall i :: 0 <= i < |ps[p1].1.items| ==>
      Contains(ReplaceAll(cmd, Marker(ps[p1].0), Quote(ps[p1].1.items[i])), Marker(ps[p2].0))
    requires x < |ps[p1].1.items| && y < |ps[p2].1.items|
    ensures |FanOut(cmd, ps)| == |ps[p1].1.items| * |ps[p2].1.items|
    ensures x * |ps[p2].1.items| + y < |FanOut(cmd, ps)|
    ensures FanOut(cmd, ps)[x * |ps[p2].1.items| + y] ==
            ReplaceAll(ReplaceAll(cmd, Marker(ps[p1].0), Quote(ps[p1].1.items[x])), Marker(ps[p2].0), Quote(ps[p2].1.items[y]))
  {
    var (k1, a, k2, b) := (ps[p1].0, ps[p1].1.items, ps[p2].0, ps[p2].1.items);
    var cs := Variants(cmd, k1, a);
    FanOutTwoLists(cmd, ps, p1, p2);
    assert |cs| == |a|;
    assert forall i :: 0 <= i < |cs| ==> Contains(cs[i], Marker(k2)) by {
      forall i | 0 <= i < |cs| ensures Contains(cs[i], Marker(k2)) {
        assert cs[i] == ReplaceAll(cmd, Marker(k1), Quote(a[i]));
      }
    }
    assert cs[x] == ReplaceAll(cmd, Marker(k1), Quote(a[x]));
    StepKeyAllHitLength(cs, k2, b);
    StepKeyAllHitAt(cs, k2, b, x, y);
  }

  /**
   * Two list parameters, both of whose markers the command mentions (and
   * whose first items do not remove the second marker), every other
   * parameter a scalar or a list the command never reaches: the command at
   * x * |b| + y of the expansion carries item x of the first list and item y
   * of the second, the first parameter being the outer loop.
   */
  lemma ExpandTwoLists(cmd: string, ps: Params, p1: nat, p2: nat, x: nat, y: nat)
    requires p1 < p2 < |ps| && ps[p1].1.List? && ps[p2].1.List?
    requires forall q :: 0 <= q < |ps| && q != p1 && q != p2 ==> Idle([cmd], ps, q)
    requires Contains(cmd, Marker(ps[p1].0))
    requires forall i :: 0 <= i < |ps[p1].1.items| ==>
      Contains(ReplaceAll(cmd, Marker(ps[p1].0), Quote(ps[p1].1.items[i])), Marker(ps[p2].0))
    requires x < |ps[p1].1.items| && y < |ps[p2].1.items|
    ensures x * |ps[p2].1.items| + y < |Expand(cmd, ps)|
    ensures Expand(cmd, ps)[x * |ps[p2].1.items| + y] ==
            SafeSubstitute(ReplaceAll(ReplaceAll(cmd, Marker(ps[p1].0), Quote(ps[p1].1.items[x])), Marker(ps[p2].0), Quote(ps[p2].1.items[y])),
                           Mapping(ps))
  {
    FanOutTwoListsAt(cmd, ps, p1, p2, x, y);
    var n := x * |ps[p2].1.items| + y;
    ExpandAt(cmd, ps, n);
  }

  lemma ExpandAt(cmd: string, ps: Params, n: nat)
    requires n < |FanOut(cmd, ps)|
    ensures |Expand(cmd, ps)| == |FanOut(cmd, ps)|
    ensures Expand(cmd, ps)[n] == SafeSubstitute(FanOut(cmd, ps)[n], Mapping(ps))
  {
  }
}
