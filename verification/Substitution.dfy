/** Variable references in compose values: ${VAR}, ${VAR:-default} and $VAR. The regular expression
    is a concrete matcher; its language is stated separately. */
module Substitution {
  import opened Options

  // Where names are looked up: the given context first, then the host environment.
  datatype Scope = Scope(context: map<string, string>, environ: map<string, string>)

  predicate IdentStart(c: char) {
    'A' <= c <= 'Z' || 'a' <= c <= 'z' || c == '_'
  }

  predicate IdentChar(c: char) {
    IdentStart(c) || '0' <= c <= '9'
  }

  // ---------------------------------------------------------------- the language of varPattern

  predicate IsBraced(t: string) {
    |t| >= 4 && t[0] == '$' && t[1] == '{' && t[|t| - 1] == '}' && forall i :: 2 <= i < |t| - 1 ==> t[i] != '}'
  }

  predicate IsBare(t: string) {
    |t| >= 2 && t[0] == '$' && IdentStart(t[1]) && forall i :: 2 <= i < |t| ==> IdentChar(t[i])
  }

  predicate IsRef(t: string) {
    IsBraced(t) || IsBare(t)
  }

  // ---------------------------------------------------------------- the matcher

  function BraceAt(s: string, i: nat): (e: nat)
    requires i <= |s|
    ensures i <= e <= |s| && (e < |s| ==> s[e] == '}') && forall j :: i <= j < e ==> s[j] != '}'
    decreases |s| - i
  {
    if i == |s| || s[i] == '}' then i else BraceAt(s, i + 1)
  }

  function IdentEnd(s: string, i: nat): (e: nat)
    requires i <= |s|
    ensures i <= e <= |s| && (e < |s| ==> !IdentChar(s[e])) && forall j :: i <= j < e ==> IdentChar(s[j])
    decreases |s| - i
  {
    if i == |s| || !IdentChar(s[i]) then i else IdentEnd(s, i + 1)
  }

  // Length of the match at the start of s, 0 if there is none.
  function MatchLen(s: string): (n: nat)
    ensures n <= |s|
  {
    if |s| < 2 || s[0] != '$' then 0
    else if s[1] == '{' then
      var e := BraceAt(s, 2);
      if 2 < e < |s| then e + 1 else 0
    else if IdentStart(s[1]) then IdentEnd(s, 2) else 0
  }

  /** The matcher finds the longest reference at the start of a text, and finds none only if there
      is none. */
  lemma MatchIsLongest(s: string, m: nat)
    requires m <= |s|
    ensures MatchLen(s) > 0 ==> IsRef(s[..MatchLen(s)])
    ensures IsRef(s[..m]) ==> 0 < m <= MatchLen(s)
  {
    var n, t := MatchLen(s), s[..m];
    if IsBraced(t) {
      assert t[1] == s[1] && s[m - 1] == '}';
      assert forall i :: 2 <= i < m - 1 ==> s[i] == t[i];
    } else if IsBare(t) {
      assert t[1] == s[1];
      assert forall i :: 2 <= i < m ==> s[i] == t[i];
    }
  }

  // ---------------------------------------------------------------- the scanner

  datatype Piece = Lit(c: char) | Ref(text: string)

  function Scan(s: string): seq<Piece>
    decreases |s|
  {
    if s == "" then []
    else if MatchLen(s) > 0 then [Ref(s[..MatchLen(s)])] + Scan(s[MatchLen(s)..])
    else [Lit(s[0])] + Scan(s[1..])
  }

  function PieceText(p: Piece): string {
    match p
    case Lit(c) => [c]
    case Ref(t) => t
  }

  function Text(ps: seq<Piece>): string {
    if ps == [] then "" else PieceText(ps[0]) + Text(ps[1..])
  }

  // p is the longest reference at the start of s, or a single character where no reference starts.
  ghost predicate StartsLeftmost(p: Piece, s: string) {
    match p
    case Ref(t) => IsRef(t) && forall m :: 0 <= m <= |s| && IsRef(s[..m]) ==> m <= |t|
    case Lit(_) => forall m :: 0 <= m <= |s| ==> !IsRef(s[..m])
  }

  // Leftmost-first, greedy.
  ghost predicate LeftmostFirst(ps: seq<Piece>) {
    ps != [] ==> StartsLeftmost(ps[0], Text(ps)) && LeftmostFirst(ps[1..])
  }

  function First(s: string): Piece
    requires s != ""
  {
    if MatchLen(s) > 0 then Ref(s[..MatchLen(s)]) else Lit(s[0])
  }

  lemma FirstIsLeftmost(s: string)
    requires s != ""
    ensures StartsLeftmost(First(s), s)
  {
    forall m | 0 <= m <= |s| ensures IsRef(s[..m]) ==> 0 < m <= MatchLen(s) {
      MatchIsLongest(s, m);
    }
    MatchIsLongest(s, 0);
  }

  lemma LeftmostIsFirst(p: Piece, rest: string)
    requires StartsLeftmost(p, PieceText(p) + rest)
    ensures p == First(PieceText(p) + rest)
  {
    var s := PieceText(p) + rest;
    MatchIsLongest(s, MatchLen(s));
    assert s[..|PieceText(p)|] == PieceText(p);
    MatchIsLongest(s, |PieceText(p)|);
  }

  lemma ScanCons(p: Piece, rest: string)
    requires PieceText(p) != "" && p == First(PieceText(p) + rest)
    ensures Scan(PieceText(p) + rest) == [p] + Scan(rest)
  {
    var s := PieceText(p) + rest;
    assert s[|PieceText(p)|..] == rest;
    assert MatchLen(s) > 0 ==> |PieceText(p)| == MatchLen(s);
  }

  /** The scanner splits every string into leftmost-first pieces that concatenate to it. */
  lemma {:induction false} ScanSplits(s: string)
    ensures Text(Scan(s)) == s && LeftmostFirst(Scan(s))
    decreases |s|
  {
    if s != "" {
      var p := First(s);
      var rest := s[|PieceText(p)|..];
      assert s == PieceText(p) + rest;
      ScanCons(p, rest);
      ScanSplits(rest);
      assert Scan(s)[1..] == Scan(rest);
      FirstIsLeftmost(s);
    }
  }

  /** It is the only way to split: pieces that are leftmost-first are the scan of their text. */
  lemma {:induction false} ScanUnique(ps: seq<Piece>)
    requires LeftmostFirst(ps)
    ensures Scan(Text(ps)) == ps
    decreases |ps|
  {
    if ps != [] {
      ScanUnique(ps[1..]);
      LeftmostIsFirst(ps[0], Text(ps[1..]));
      ScanCons(ps[0], Text(ps[1..]));
      assert ps == [ps[0]] + ps[1..];
    }
  }

  lemma MatchInPrefix(a: string, b: string)
    requires MatchLen(a + b) <= |a|
    ensures MatchLen(a) == MatchLen(a + b)
  {
    var n := MatchLen(a + b);
    assert (a + b)[..n] == a[..n];
    assert (a + b)[..MatchLen(a)] == a[..MatchLen(a)];
    MatchIsLongest(a + b, n);
    MatchIsLongest(a + b, MatchLen(a));
    MatchIsLongest(a, n);
    MatchIsLongest(a, MatchLen(a));
  }

  // No reference of the scan runs across position n.
  ghost predicate Boundary(s: string, n: nat) {
    exists k :: 0 <= k <= |Scan(s)| && |Text(Scan(s)[..k])| == n
  }

  lemma {:induction false} TextConcat(ps: seq<Piece>, qs: seq<Piece>)
    ensures Text(ps + qs) == Text(ps) + Text(qs)
  {
    if ps == [] {
      assert ps + qs == qs;
    } else {
      assert (ps + qs)[1..] == ps[1..] + qs;
      TextConcat(ps[1..], qs);
    }
  }

  lemma BoundaryStep(s: string, n: nat)
    requires s != "" && n > 0 && Boundary(s, n)
    ensures
      var step := if MatchLen(s) > 0 then MatchLen(s) else 1;
      step <= n && Boundary(s[step..], n - step)
  {
    var step := if MatchLen(s) > 0 then MatchLen(s) else 1;
    var ps := Scan(s);
    var k :| 0 <= k <= |ps| && |Text(ps[..k])| == n;
    assert ps[1..] == Scan(s[step..]) && |PieceText(ps[0])| == step;
    assert k > 0;
    assert ps[..k][1..] == ps[1..][..k - 1];
  }

  lemma Assoc<T>(x: seq<T>, y: seq<T>, z: seq<T>)
    ensures x + (y + z) == (x + y) + z
  {
  }

  lemma {:induction false} SplitScan(a: string, b: string)
    requires Boundary(a + b, |a|)
    ensures Scan(a + b) == Scan(a) + Scan(b)
    decreases |a|
  {
    var s := a + b;
    if a == "" {
      assert s == b;
    } else {
      BoundaryStep(s, |a|);
      var step := if MatchLen(s) > 0 then MatchLen(s) else 1;
      assert s[step..] == a[step..] + b && s[..step] == a[..step];
      MatchInPrefix(a, b);
      SplitScan(a[step..], b);
      var first := if MatchLen(s) > 0 then Ref(s[..step]) else Lit(s[0]);
      assert Scan(s) == [first] + Scan(a[step..] + b);
      assert Scan(a) == [first] + Scan(a[step..]);
      Assoc([first], Scan(a[step..]), Scan(b));
    }
  }

  /** Two texts can be scanned apart exactly when no reference runs across the seam. */
  lemma ScanSplitsAtBoundary(a: string, b: string)
    ensures Scan(a + b) == Scan(a) + Scan(b) <==> Boundary(a + b, |a|)
  {
    if Boundary(a + b, |a|) {
      SplitScan(a, b);
    }
    if Scan(a + b) == Scan(a) + Scan(b) {
      assert Scan(a + b)[..|Scan(a)|] == Scan(a);
      ScanSplits(a);
    }
  }

  // ---------------------------------------------------------------- resolution

  function Lookup(name: string, sc: Scope): Option<string> {
    if name in sc.context then Some(sc.context[name])
    else if name in sc.environ then Some(sc.environ[name])
    else None
  }

  predicate SeparatorAt(s: string, i: nat) {
    i + 2 <= |s| && s[i] == ':' && s[i + 1] == '-'
  }

  // strings.Cut(s, ":-"): where the separator first occurs from i on, |s| if it does not.
  function CutAt(s: string, i: nat := 0): (e: nat)
    requires i <= |s|
    ensures i <= e <= |s| && (e < |s| ==> SeparatorAt(s, e)) && forall j :: i <= j < e ==> !SeparatorAt(s, j)
    decreases |s| - i
  {
    if i == |s| || SeparatorAt(s, i) then i else CutAt(s, i + 1)
  }

  // The replacement for one match.
  function Value(t: string, sc: Scope): string
    requires IsRef(t)
  {
    if t[1] == '{' then
      var inner := t[2..|t| - 1];
      var i := CutAt(inner);
      if i < |inner| then
        var found := Lookup(inner[..i], sc);
        if found.Some? && found.value != "" then found.value else inner[i + 2..]
      else
        var found := Lookup(inner, sc);
        if found.Some? then found.value else ""
    else
      var found := Lookup(t[1..], sc);
      if found.Some? then found.value else ""
  }

  // resolveValue: every match replaced, everything else copied, the result never looked at again.
  function Resolve(s: string, sc: Scope): string
    decreases |s|
  {
    if s == "" then ""
    else if MatchLen(s) > 0 then
      MatchIsLongest(s, 0);
      Value(s[..MatchLen(s)], sc) + Resolve(s[MatchLen(s)..], sc)
    else [s[0]] + Resolve(s[1..], sc)
  }

  function PieceValue(p: Piece, sc: Scope): string {
    match p
    case Lit(c) => [c]
    case Ref(t) => if IsRef(t) then Value(t, sc) else ""
  }

  function Render(ps: seq<Piece>, sc: Scope): string {
    if ps == [] then "" else PieceValue(ps[0], sc) + Render(ps[1..], sc)
  }

  lemma {:induction false} RenderConcat(ps: seq<Piece>, qs: seq<Piece>, sc: Scope)
    ensures Render(ps + qs, sc) == Render(ps, sc) + Render(qs, sc)
  {
    if ps == [] {
      assert ps + qs == qs;
    } else {
      assert (ps + qs)[0] == ps[0] && (ps + qs)[1..] == ps[1..] + qs;
      RenderConcat(ps[1..], qs, sc);
      var v, x, y := PieceValue(ps[0], sc), Render(ps[1..], sc), Render(qs, sc);
      assert v + (x + y) == (v + x) + y;
    }
  }

  /** For every leftmost-first split of a text, resolving the text is putting the values of the
      pieces one after the other; inserted values are never scanned. */
  lemma {:induction false} ResolveIsPiecewise(ps: seq<Piece>, sc: Scope)
    requires LeftmostFirst(ps)
    ensures Resolve(Text(ps), sc) == Render(ps, sc)
    decreases |ps|
  {
    if ps != [] {
      var s := Text(ps);
      ScanUnique(ps);
      ResolveIsPiecewise(ps[1..], sc);
      MatchIsLongest(s, 0);
      var n := MatchLen(s);
      assert ps[0] == if n > 0 then Ref(s[..n]) else Lit(s[0]);
      assert s[|PieceText(ps[0])|..] == Text(ps[1..]);
    }
  }

  /** Resolution splits at every seam that no reference runs across. */
  lemma ResolveSplits(a: string, b: string, sc: Scope)
    requires Boundary(a + b, |a|)
    ensures Resolve(a + b, sc) == Resolve(a, sc) + Resolve(b, sc)
  {
    ScanSplits(a);
    ScanSplits(b);
    ScanSplits(a + b);
    SplitScan(a, b);
    ResolveIsPiecewise(Scan(a), sc);
    ResolveIsPiecewise(Scan(b), sc);
    ResolveIsPiecewise(Scan(a + b), sc);
    RenderConcat(Scan(a), Scan(b), sc);
  }

  // What a name stands for: its value in the context, else in the environment, else nothing.
  function Meaning(name: string, sc: Scope): string {
    if name in sc.context then sc.context[name] else if name in sc.environ then sc.environ[name] else ""
  }

  /** ${name}: the value in the context, else that in the environment, else nothing. */
  lemma BracedForm(name: string, sc: Scope)
    requires name != "" && '}' !in name && CutAt(name) == |name|
    ensures IsRef("${" + name + "}") && Resolve("${" + name + "}", sc) == Meaning(name, sc)
  {
    var t := "${" + name + "}";
    assert t[2..|t| - 1] == name;
    forall i | 2 <= i < |t| - 1 ensures t[i] != '}' {
      assert t[i] == name[i - 2] && name[i - 2] in name;
    }
    WholeRef(t, sc);
  }

  /** $NAME: the same. */
  lemma BareForm(name: string, sc: Scope)
    requires name != "" && IdentStart(name[0]) && forall i :: 1 <= i < |name| ==> IdentChar(name[i])
    ensures IsRef("$" + name) && Resolve("$" + name, sc) == Meaning(name, sc)
  {
    var t := "$" + name;
    assert t[1..] == name && t[1] == name[0];
    forall i | 2 <= i < |t| ensures IdentChar(t[i]) {
      assert t[i] == name[i - 1];
    }
    WholeRef(t, sc);
  }

  /** A name starts with a letter or an underscore and goes on with letters, digits and underscores. */
  lemma NamesAreAscii(c: char)
    ensures IdentStart(c) <==> c == '_' || ('a' <= c <= 'z') || ('A' <= c <= 'Z')
    ensures IdentChar(c) <==> IdentStart(c) || c in "0123456789"
  {
    if IdentChar(c) && !IdentStart(c) {
      assert "0123456789"[(c - '0') as int] == c;
    }
  }

  /** Empty braces and a digit behind the dollar sign are text, and so are the characters of a text
      without a dollar sign. */
  lemma NoReference(s: string, sc: Scope)
    requires s == "${}" || s == "$0" || s == "$" || '$' !in s
    ensures Resolve(s, sc) == s
    decreases |s|
  {
    if s != "" {
      assert MatchLen(s) == 0 by {
        assert '$' !in s ==> s[0] in s;
      }
      if s == "${}" {
        assert s[1..] == "{}";
        NoReference("{}", sc);
      } else if s == "$0" {
        assert s[1..] == "0";
        NoReference("0", sc);
      } else if s == "$" {
        assert s[1..] == "";
      } else {
        assert '$' !in s[1..];
        NoReference(s[1..], sc);
      }
      assert s == [s[0]] + s[1..];
    }
  }

  /** ${name:-default}: the value if it is set and not empty, else the default. */
  lemma DefaultForm(name: string, default: string, sc: Scope)
    requires name + default != "" && CutAt(name + ":-" + default) == |name|
    requires forall i :: 0 <= i < |name + default| ==> (name + default)[i] != '}'
    ensures IsRef("${" + name + ":-" + default + "}")
    ensures Resolve("${" + name + ":-" + default + "}", sc) ==
      if Meaning(name, sc) != "" then Meaning(name, sc) else default
  {
    var inner := name + ":-" + default;
    var t := "${" + name + ":-" + default + "}";
    assert t[2..|t| - 1] == inner && inner[..|name|] == name && inner[|name| + 2..] == default;
    forall i | 2 <= i < |t| - 1 ensures t[i] != '}' {
      var j := i - 2;
      assert t[i] == inner[j];
      assert j < |name| ==> inner[j] == (name + default)[j];
      assert j >= |name| + 2 ==> inner[j] == (name + default)[j - 2];
    }
    WholeRef(t, sc);
  }

  lemma WholeRef(t: string, sc: Scope)
    requires IsRef(t)
    ensures Resolve(t, sc) == Value(t, sc)
  {
    assert t[..|t|] == t && t[|t|..] == "";
    MatchIsLongest(t, |t|);
    ResolveCons(t, sc);
    var v := Value(t, sc);
    assert v + "" == v;
  }

  lemma ResolveCons(s: string, sc: Scope)
    requires MatchLen(s) > 0 && IsRef(s[..MatchLen(s)])
    ensures Resolve(s, sc) == Value(s[..MatchLen(s)], sc) + Resolve(s[MatchLen(s)..], sc)
  {
  }

  /** substituteVars resolves the values of a map and keeps its keys. */
  method SubstituteVars(env: map<string, string>, sc: Scope) returns (result: map<string, string>)
    ensures result.Keys == env.Keys
    ensures forall k :: k in env ==> result[k] == Resolve(env[k], sc)
  {
    result := map[];
    var todo := env.Keys;
    while todo != {}
      invariant todo <= env.Keys && result.Keys == env.Keys - todo
      invariant forall k :: k in result ==> result[k] == Resolve(env[k], sc)
    {
      var k :| k in todo;
      result := result[k := Resolve(env[k], sc)];
      todo := todo - {k};
    }
  }
}
