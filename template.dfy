/**
 * Python's `string.Template(s).safe_substitute(mapping)` with the default
 * delimiter `$` and the default identifier pattern `[_a-zA-Z][_a-zA-Z0-9]*`
 * (ASCII only).
 *
 * The standard library scans the template with one regular expression whose
 * alternatives are tried in order at each `$`: `$$` (escaped), `$name`
 * (named, longest identifier), `${name}` (braced) and, failing those, the
 * empty "invalid" alternative that matches the lone `$`.  Text between
 * matches is copied.  `Tokenize` cuts a template into exactly those matches
 * and single characters of text; `Render` is what `safe_substitute` puts in
 * place of each; `Unparse` is the original text of each.
 */
module Template {

  datatype Piece =
    | Text(c: char)          // a character outside any match
    | Escaped                // `$$`
    | Named(name: string)    // `$name`
    | Braced(name: string)   // `${name}`
    | Lone                   // a `$` that starts none of the above

  predicate IsIdentStart(c: char) {
    c == '_' || 'a' <= c <= 'z' || 'A' <= c <= 'Z'
  }

  predicate IsIdentChar(c: char) {
    IsIdentStart(c) || '0' <= c <= '9'
  }

  /** The length of the longest prefix of `t` made of identifier characters. */
  function IdentRun(t: string): (n: nat)
    ensures n <= |t|
    ensures forall i :: 0 <= i < n ==> IsIdentChar(t[i])
    ensures n < |t| ==> !IsIdentChar(t[n])
  {
    if t == [] || !IsIdentChar(t[0]) then 0 else 1 + IdentRun(t[1..])
  }

  /** The length of the longest prefix of `t` that is an identifier, 0 if none. */
  function IdentLength(t: string): (n: nat)
    ensures n <= |t|
    ensures n > 0 ==> IsIdentStart(t[0]) && forall i :: 0 <= i < n ==> IsIdentChar(t[i])
    ensures n == 0 ==> t == [] || !IsIdentStart(t[0])
    ensures 0 < n < |t| ==> !IsIdentChar(t[n])
  {
    if t == [] || !IsIdentStart(t[0]) then 0 else 1 + IdentRun(t[1..])
  }

  /** For the text `t` after a `$`: the length of the identifier when `t` starts with `{name}`, else 0. */
  function BracedLength(t: string): (n: nat)
    ensures n > 0 ==> n + 2 <= |t| && t[0] == '{' && t[n + 1] == '}' && IdentLength(t[1..]) == n
  {
    if t != [] && t[0] == '{' then
      var k := IdentLength(t[1..]);
      if 0 < k && k + 1 < |t| && t[k + 1] == '}' then k else 0
    else 0
  }

  /** The matches of the template pattern in `s`, in order, with the text between them. */
  function Tokenize(s: string): seq<Piece>
    decreases |s|
  {
    if s == [] then []
    else if s[0] != '$' then [Text(s[0])] + Tokenize(s[1..])
    else if |s| > 1 && s[1] == '$' then [Escaped] + Tokenize(s[2..])
    else if IdentLength(s[1..]) > 0 then
      var n := IdentLength(s[1..]);
      [Named(s[1..n + 1])] + Tokenize(s[n + 1..])
    else if BracedLength(s[1..]) > 0 then
      var n := BracedLength(s[1..]);
      [Braced(s[2..n + 2])] + Tokenize(s[n + 3..])
    else [Lone] + Tokenize(s[1..])
  }

  /** The text a piece was cut from. */
  function PieceText(p: Piece): string {
    match p
    case Text(c) => [c]
    case Escaped => "$$"
    case Named(n) => "$" + n
    case Braced(n) => "${" + n + "}"
    case Lone => "$"
  }

  /** What `safe_substitute` writes for a piece: a bound name becomes its value, anything else stays as written. */
  function PieceValue(p: Piece, m: map<string, string>): string {
    match p
    case Text(c) => [c]
    case Escaped => "$"
    case Named(n) => if n in m then m[n] else "$" + n
    case Braced(n) => if n in m then m[n] else "${" + n + "}"
    case Lone => "$"
  }

  function Unparse(ps: seq<Piece>): string {
    if ps == [] then [] else PieceText(ps[0]) + Unparse(ps[1..])
  }

  function Render(ps: seq<Piece>, m: map<string, string>): string {
    if ps == [] then [] else PieceValue(ps[0], m) + Render(ps[1..], m)
  }

  function SafeSubstitute(s: string, m: map<string, string>): string {
    Render(Tokenize(s), m)
  }

  /** The pieces that `safe_substitute` leaves exactly as written under `m`. */
  predicate Untouched(ps: seq<Piece>, m: map<string, string>) {
    forall i :: 0 <= i < |ps| ==>
      && !ps[i].Escaped?
      && (ps[i].Named? ==> ps[i].name !in m)
      && (ps[i].Braced? ==> ps[i].name !in m)
  }

  lemma UnparseCons(p: Piece, ps: seq<Piece>)
    ensures Unparse([p] + ps) == PieceText(p) + Unparse(ps)
  {
    assert ([p] + ps)[1..] == ps;
  }

  lemma LosslessStep(s: string, p: Piece, k: nat)
    requires 0 < k <= |s|
    requires Tokenize(s) == [p] + Tokenize(s[k..])
    requires PieceText(p) == s[..k]
    requires Unparse(Tokenize(s[k..])) == s[k..]
    ensures Unparse(Tokenize(s)) == s
  {
    UnparseCons(p, Tokenize(s[k..]));
    assert s == s[..k] + s[k..];
  }

  /** The first match (or text character) of a non-empty template, and how many characters it spans. */
  lemma FirstPiece(s: string) returns (p: Piece, k: nat)
    requires s != []
    ensures 0 < k <= |s|
    ensures Tokenize(s) == [p] + Tokenize(s[k..])
    ensures PieceText(p) == s[..k]
  {
    if s[0] != '$' {
      p, k := Text(s[0]), 1;
    } else if |s| > 1 && s[1] == '$' {
      p, k := Escaped, 2;
      assert s[..2] == "$$";
    } else if IdentLength(s[1..]) > 0 {
      var n := IdentLength(s[1..]);
      p, k := Named(s[1..n + 1]), n + 1;
      assert s[..n + 1] == [s[0]] + s[1..n + 1];
    } else if BracedLength(s[1..]) > 0 {
      var n := BracedLength(s[1..]);
      p, k := Braced(s[2..n + 2]), n + 3;
      assert s[..n + 3] == [s[0], s[1]] + s[2..n + 2] + [s[n + 2]];
    } else {
      p, k := Lone, 1;
    }
  }

  /** Tokenizing loses nothing: the matches and the text between them spell the template. */
  lemma {:induction false} TokenizeIsLossless(s: string)
    ensures Unparse(Tokenize(s)) == s
    decreases |s|
  {
    if s != [] {
      var p, k := FirstPiece(s);
      TokenizeIsLossless(s[k..]);
      LosslessStep(s, p, k);
    }
  }

  lemma {:induction false} RenderUntouched(ps: seq<Piece>, m: map<string, string>)
    requires Untouched(ps, m)
    ensures Render(ps, m) == Unparse(ps)
    decreases |ps|
  {
    if ps != [] {
      assert Untouched(ps[1..], m) by {
        forall i | 0 <= i < |ps[1..]| ensures !ps[1..][i].Escaped? {
          assert ps[1..][i] == ps[i + 1];
        }
      }
      RenderUntouched(ps[1..], m);
    }
  }

  /**
   * The leniency of `safe_substitute`: a template with no `$$` escape and no
   * reference to a bound name comes back exactly as written, however
   * malformed its other `$` forms are.
   */
  lemma SafeSubstituteIsLenient(s: string, m: map<string, string>)
    requires Untouched(Tokenize(s), m)
    ensures SafeSubstitute(s, m) == s
  {
    RenderUntouched(Tokenize(s), m);
    TokenizeIsLossless(s);
  }

  lemma {:induction false} TokenizeWithoutDollar(s: string)
    requires '$' !in s
    ensures forall i :: 0 <= i < |Tokenize(s)| ==> Tokenize(s)[i].Text?
    decreases |s|
  {
    if s != [] {
      assert '$' !in s[1..] by {
        assert forall k :: 0 <= k < |s[1..]| ==> s[1..][k] == s[k + 1];
      }
      TokenizeWithoutDollar(s[1..]);
      assert s[0] != '$';
      var ps := [Text(s[0])] + Tokenize(s[1..]);
      forall i | 0 <= i < |ps| ensures ps[i].Text? {
        if i > 0 {
          assert ps[i] == Tokenize(s[1..])[i - 1];
        }
      }
    }
  }

  /** Text without a `$` is never changed, whatever the mapping binds. */
  lemma NoDollarIsVerbatim(s: string, m: map<string, string>)
    requires '$' !in s
    ensures SafeSubstitute(s, m) == s
  {
    TokenizeWithoutDollar(s);
    SafeSubstituteIsLenient(s, m);
  }

  /** Text before the first `$` is copied as it is, whatever follows. */
  lemma {:induction false} TextPrefixIsKept(pre: string, t: string, m: map<string, string>)
    requires '$' !in pre
    ensures SafeSubstitute(pre + t, m) == pre + SafeSubstitute(t, m)
    decreases |pre|
  {
    if pre == [] {
      assert pre + t == t;
    } else {
      var s := pre + t;
      assert s[0] == pre[0] && s[0] != '$';
      assert s[1..] == pre[1..] + t;
      assert '$' !in pre[1..] by {
        assert forall k :: 0 <= k < |pre[1..]| ==> pre[1..][k] == pre[k + 1];
      }
      TextPrefixIsKept(pre[1..], t, m);
      assert pre == [pre[0]] + pre[1..];
    }
  }

  /** `$$` becomes a single `$`. */
  lemma EscapeCollapses(t: string, m: map<string, string>)
    ensures SafeSubstitute("$$" + t, m) == "$" + SafeSubstitute(t, m)
  {
    var s := "$$" + t;
    assert s[2..] == t;
  }

  /** `${name}` is replaced by the bound value, whatever follows it. */
  lemma BracedIsReplaced(name: string, t: string, m: map<string, string>)
    requires IdentLength(name) == |name| > 0 && name in m
    ensures SafeSubstitute("${" + name + "}" + t, m) == m[name] + SafeSubstitute(t, m)
  {
    var s := "${" + name + "}" + t;
    var n := |name|;
    var after := s[1..];
    assert after == "{" + (name + ("}" + t));
    assert after[1..] == name + ("}" + t);
    assert IdentLength(after) == 0;
    IdentLengthOfPrefix(name, "}" + t);
    assert after[n + 1] == '}';
    assert BracedLength(after) == n;
    assert s[2..n + 2] == name;
    assert s[n + 3..] == t;
  }

  /** `$name` is replaced by the bound value when the identifier ends there. */
  lemma NamedIsReplaced(name: string, t: string, m: map<string, string>)
    requires IdentLength(name) == |name| > 0 && name in m
    requires t == [] || !IsIdentChar(t[0])
    ensures SafeSubstitute("$" + name + t, m) == m[name] + SafeSubstitute(t, m)
  {
    var s := "$" + name + t;
    var n := |name|;
    assert s[1..] == name + t;
    IdentLengthOfPrefix(name, t);
    assert s[1..n + 1] == name;
    assert s[n + 1..] == t;
  }

  lemma {:induction false} IdentRunOfPrefix(w: string, t: string)
    requires forall i :: 0 <= i < |w| ==> IsIdentChar(w[i])
    requires t == [] || !IsIdentChar(t[0])
    ensures IdentRun(w + t) == |w|
    decreases |w|
  {
    if w == [] {
      assert w + t == t;
    } else {
      assert (w + t)[1..] == w[1..] + t;
      IdentRunOfPrefix(w[1..], t);
    }
  }

  lemma IdentLengthOfPrefix(name: string, t: string)
    requires IdentLength(name) == |name| > 0
    requires t == [] || !IsIdentChar(t[0])
    ensures IdentLength(name + t) == |name|
  {
    var u := name + t;
    assert u[0] == name[0];
    assert u[1..] == name[1..] + t;
    IdentRunOfPrefix(name[1..], t);
  }

  /** An unbound `$name` is left as written. */
  lemma UnboundNamedIsKept(name: string, t: string, m: map<string, string>)
    requires IdentLength(name) == |name| > 0 && name !in m
    requires t == [] || !IsIdentChar(t[0])
    ensures SafeSubstitute("$" + name + t, m) == "$" + name + SafeSubstitute(t, m)
  {
    var s := "$" + name + t;
    var n := |name|;
    assert s[1..] == name + t;
    IdentLengthOfPrefix(name, t);
    assert s[1..n + 1] == name;
    assert s[n + 1..] == t;
  }
}
