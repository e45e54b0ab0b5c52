/** The OTP template renderer: two ReplaceAll passes per variable, in map order. */
module Template {

  // strings.ReplaceAll for a non-empty pattern.
  function ReplaceAll(s: string, pat: string, rep: string): string
    requires pat != ""
  {
    if |s| < |pat| then s
    else if s[..|pat|] == pat then rep + ReplaceAll(s[|pat|..], pat, rep)
    else [s[0]] + ReplaceAll(s[1..], pat, rep)
  }

  function Braced(key: string, double: bool): string {
    if double then "{{" + key + "}}" else "{" + key + "}"
  }

  // One round of the loop.
  function Step(s: string, key: string, value: string): string {
    ReplaceAll(ReplaceAll(s, Braced(key, true), value), Braced(key, false), value)
  }

  // The loop, for one order in which the map happens to be visited.
  function RenderInOrder(s: string, vars: map<string, string>, order: seq<string>): string
    requires forall k :: k in order ==> k in vars
    decreases order
  {
    if order == [] then s
    else RenderInOrder(Step(s, order[0], vars[order[0]]), vars, order[1..])
  }

  // A visit of the map: every key exactly once.
  ghost predicate IsOrder(vars: map<string, string>, order: seq<string>) {
    && (forall k :: k in order <==> k in vars)
    && (forall i, j :: 0 <= i < j < |order| ==> order[i] != order[j])
  }

  // A template seen as literals and variable marks.
  datatype Token = Lit(text: string) | Var(key: string, double: bool)

  predicate NoOpen(s: string) {
    forall i :: 0 <= i < |s| ==> s[i] != '{'
  }

  predicate BraceFree(s: string) {
    forall i :: 0 <= i < |s| ==> s[i] != '{' && s[i] != '}'
  }

  // Literals hold no opening brace, keys hold no brace at all.
  predicate WellFormed(ts: seq<Token>) {
    forall i :: 0 <= i < |ts| ==> if ts[i].Lit? then NoOpen(ts[i].text) else BraceFree(ts[i].key)
  }

  function TokenText(t: Token): string {
    match t
    case Lit(text) => text
    case Var(key, double) => Braced(key, double)
  }

  function Flatten(ts: seq<Token>): string {
    if ts == [] then "" else TokenText(ts[0]) + Flatten(ts[1..])
  }

  // The intended meaning: all marks are replaced at once, unknown ones stay as they are.
  function Substitute(ts: seq<Token>, vars: map<string, string>): string {
    if ts == [] then ""
    else
      (match ts[0]
       case Lit(text) => text
       case Var(key, double) => if key in vars then vars[key] else Braced(key, double))
      + Substitute(ts[1..], vars)
  }

  // What one pass does to the tokens.
  function Fill(ts: seq<Token>, key: string, double: bool, value: string): seq<Token> {
    seq(|ts|, i requires 0 <= i < |ts| => if ts[i] == Var(key, double) then Lit(value) else ts[i])
  }

  lemma {:induction false} ReplaceSkips(p: string, s: string, pat: string, rep: string)
    requires pat != ""
    requires forall i :: 0 <= i < |p| ==> !(pat <= (p + s)[i..])
    ensures ReplaceAll(p + s, pat, rep) == p + ReplaceAll(s, pat, rep)
  {
    var w := p + s;
    if p == "" {
      assert w == s;
    } else {
      assert w[1..] == p[1..] + s;
      assert w[0..] == w;
      if |w| < |pat| {
        assert ReplaceAll(s, pat, rep) == s;
      } else {
        assert !(pat <= w[0..]);
        forall i | 0 <= i < |p[1..]| ensures !(pat <= (p[1..] + s)[i..]) {
          assert (p[1..] + s)[i..] == w[i + 1..];
        }
        ReplaceSkips(p[1..], s, pat, rep);
        assert p == [p[0]] + p[1..];
      }
    }
  }

  lemma KeyEnds(a: string, b: string, rest: string)
    requires BraceFree(a) && BraceFree(b)
    requires a + "}" <= b + "}" + rest
    ensures a == b
  {
    var u, w := a + "}", b + "}" + rest;
    assert forall i :: 0 <= i < |u| ==> u[i] == w[i];
    assert u[|a|] == '}' && w[|b|] == '}';
    assert |b| <= |a|;
    assert |a| <= |b| by { assert |b| < |u| && u[|b|] == '}'; }
    assert a == u[..|a|] && b == w[..|b|];
  }

  lemma InnerMark(k: string, j: string, rest: string)
    requires BraceFree(k) && BraceFree(j)
    requires "{" + k + "}" <= "{" + j + "}" + rest
    ensures k == j
  {
    var p, w := "{" + k + "}", "{" + j + "}" + rest;
    PrefixDrop(p, w, 1);
    assert p[1..] == k + "}";
    assert w[1..] == j + "}" + rest;
    KeyEnds(k, j, rest);
  }

  // A mark of key k begins no other mark.
  lemma MarkMismatch(k: string, double: bool, t: Token, rest: string)
    requires BraceFree(k) && t.Var? && BraceFree(t.key)
    requires Braced(k, double) <= Braced(t.key, t.double) + rest
    ensures t == Var(k, double)
  {
    var p, w := Braced(k, double), Braced(t.key, t.double) + rest;
    assert p[1] == w[..|p|][1] == w[1];
    assert double == t.double;
    if double {
      PrefixDrop(p, w, 1);
      assert p[1..] == ("{" + k + "}") + "}";
      assert w[1..] == "{" + t.key + "}" + ("}" + rest);
      assert "{" + k + "}" <= p[1..];
      InnerMark(k, t.key, "}" + rest);
    } else {
      InnerMark(k, t.key, rest);
    }
  }

  lemma PrefixDrop(p: string, w: string, d: nat)
    requires p <= w && d <= |p|
    ensures p[d..] <= w[d..]
  {
    assert p[d..] == w[d..][..|p| - d];
  }

  // No mark of key k begins anywhere inside token t, unless t is that mark.
  lemma NoMatchInside(k: string, double: bool, t: Token, rest: string)
    requires BraceFree(k)
    requires if t.Lit? then NoOpen(t.text) else BraceFree(t.key)
    requires t != Var(k, double) && (!double ==> t != Var(k, true))
    ensures forall i :: 0 <= i < |TokenText(t)| ==> !(Braced(k, double) <= (TokenText(t) + rest)[i..])
  {
    var pat := Braced(k, double);
    var w := TokenText(t) + rest;
    forall i | 0 <= i < |TokenText(t)| ensures !(pat <= w[i..]) {
      if pat <= w[i..] {
        assert pat[0] == '{' == w[i..][0] == w[i];
        MatchInside(k, double, t, rest, i);
      }
    }
  }

  lemma OpeningPositions(t: Token, i: nat)
    requires i < |TokenText(t)| && TokenText(t)[i] == '{'
    requires if t.Lit? then NoOpen(t.text) else BraceFree(t.key)
    ensures t.Var? && i <= 1 && (i == 1 ==> t.double)
  {
  }

  lemma MatchInside(k: string, double: bool, t: Token, rest: string, i: nat)
    requires BraceFree(k) && i < |TokenText(t)| && TokenText(t)[i] == '{'
    requires if t.Lit? then NoOpen(t.text) else BraceFree(t.key)
    requires Braced(k, double) <= (TokenText(t) + rest)[i..]
    ensures t == Var(k, double) || (!double && t == Var(k, true))
  {
    var w := TokenText(t) + rest;
    OpeningPositions(t, i);
    if i == 0 {
      assert w[0..] == w;
      MarkMismatch(k, double, t, rest);
    } else {
      assert w[1..] == Braced(t.key, false) + ("}" + rest);
      MarkMismatch(k, double, Var(t.key, false), "}" + rest);
    }
  }

  lemma {:induction false} PassFills(ts: seq<Token>, key: string, double: bool, value: string)
    requires WellFormed(ts) && BraceFree(key)
    requires !double ==> Var(key, true) !in ts
    ensures ReplaceAll(Flatten(ts), Braced(key, double), value) == Flatten(Fill(ts, key, double, value))
  {
    var pat := Braced(key, double);
    if ts != [] {
      var s := Flatten(ts[1..]);
      PassFills(ts[1..], key, double, value);
      assert Fill(ts, key, double, value)[1..] == Fill(ts[1..], key, double, value);
      if ts[0] == Var(key, double) {
        assert (pat + s)[..|pat|] == pat && (pat + s)[|pat|..] == s;
      } else {
        NoMatchInside(key, double, ts[0], s);
        ReplaceSkips(TokenText(ts[0]), s, pat, value);
      }
    }
  }

  // One round fills exactly the marks of its key.
  lemma StepFills(ts: seq<Token>, key: string, value: string)
    requires WellFormed(ts) && BraceFree(key) && NoOpen(value)
    ensures var filled := Fill(Fill(ts, key, true, value), key, false, value);
            WellFormed(filled) && Step(Flatten(ts), key, value) == Flatten(filled)
  {
    PassFills(ts, key, true, value);
    PassFills(Fill(ts, key, true, value), key, false, value);
  }

  // Filling one key first does not change the meaning under the whole map.
  lemma {:induction false} FillKeepsMeaning(ts: seq<Token>, key: string, double: bool, vars: map<string, string>)
    requires key in vars
    ensures Substitute(Fill(ts, key, double, vars[key]), vars) == Substitute(ts, vars)
  {
    if ts != [] {
      assert Fill(ts, key, double, vars[key])[1..] == Fill(ts[1..], key, double, vars[key]);
      FillKeepsMeaning(ts[1..], key, double, vars);
    }
  }

  lemma {:induction false} NothingLeftToFill(ts: seq<Token>, vars: map<string, string>)
    requires forall i :: 0 <= i < |ts| && ts[i].Var? ==> ts[i].key !in vars
    ensures Flatten(ts) == Substitute(ts, vars)
  {
    if ts != [] { NothingLeftToFill(ts[1..], vars); }
  }

  lemma {:induction false} RenderFills(ts: seq<Token>, vars: map<string, string>, order: seq<string>)
    requires WellFormed(ts)
    requires forall k :: k in vars ==> BraceFree(k) && NoOpen(vars[k])
    requires forall k :: k in order ==> k in vars
    requires forall i :: 0 <= i < |ts| && ts[i].Var? && ts[i].key in vars ==> ts[i].key in order
    ensures RenderInOrder(Flatten(ts), vars, order) == Substitute(ts, vars)
    decreases order
  {
    if order == [] {
      NothingLeftToFill(ts, vars);
    } else {
      var k := order[0];
      var half := Fill(ts, k, true, vars[k]);
      var filled := Fill(half, k, false, vars[k]);
      StepFills(ts, k, vars[k]);
      FillKeepsMeaning(ts, k, true, vars);
      FillKeepsMeaning(half, k, false, vars);
      RenderFills(filled, vars, order[1..]);
    }
  }

  /** Order independence: whatever order the map is visited in, the loop is one simultaneous
      substitution. Literals and values may even hold closing braces. */
  lemma RenderIsSimultaneous(ts: seq<Token>, vars: map<string, string>, order: seq<string>)
    requires WellFormed(ts)
    requires forall k :: k in vars ==> BraceFree(k) && NoOpen(vars[k])
    requires IsOrder(vars, order)
    ensures RenderInOrder(Flatten(ts), vars, order) == Substitute(ts, vars)
  {
    RenderFills(ts, vars, order);
  }

  /** Without the restriction on values the visiting order shows in the result. */
  lemma ValueWithBraceShowsOrder()
    ensures var vars := map["a" := "{b}", "b" := "x"];
            && IsOrder(vars, ["a", "b"]) && IsOrder(vars, ["b", "a"])
            && RenderInOrder("{a}", vars, ["a", "b"]) == "x"
            && RenderInOrder("{a}", vars, ["b", "a"]) == "{b}"
  {
    var vars := map["a" := "{b}", "b" := "x"];
    assert Step("{a}", "a", "{b}") == "{b}" by {
      assert ReplaceAll("{a}", "{{a}}", "{b}") == "{a}";
      assert "{a}"[3..] == "" && "{a}"[..3] == "{a}";
      assert ReplaceAll("{a}", "{a}", "{b}") == "{b}" + ReplaceAll("", "{a}", "{b}");
    }
    assert Step("{b}", "b", "x") == "x" by {
      assert ReplaceAll("{b}", "{{b}}", "x") == "{b}";
      assert "{b}"[3..] == "" && "{b}"[..3] == "{b}";
      assert ReplaceAll("{b}", "{b}", "x") == "x" + ReplaceAll("", "{b}", "x");
    }
    assert Step("{a}", "b", "x") == "{a}" by {
      assert ReplaceAll("{a}", "{{b}}", "x") == "{a}";
      assert "{a}"[..3] == "{a}" && "{a}"[..3][1] != "{b}"[1];
      assert "{a}"[1..] == "a}";
      assert ReplaceAll("a}", "{b}", "x") == "a}";
    }
    assert ["a", "b"][1..] == ["b"] && ["b", "a"][1..] == ["a"];
    assert ["b"][1..] == [] && ["a"][1..] == [];
    assert RenderInOrder("{b}", vars, ["b"]) == RenderInOrder(Step("{b}", "b", "x"), vars, []);
    assert RenderInOrder("{a}", vars, ["a"]) == RenderInOrder(Step("{a}", "a", "{b}"), vars, []);
  }

  ghost predicate Occurs(s: string, pat: string) {
    exists i :: 0 <= i <= |s| && pat <= s[i..]
  }

  // Replacing by something longer makes a text longer exactly when the pattern occurs.
  lemma {:induction false} ReplaceGrows(s: string, pat: string, rep: string)
    requires pat != "" && |pat| < |rep|
    ensures if Occurs(s, pat) then |s| < |ReplaceAll(s, pat, rep)| else ReplaceAll(s, pat, rep) == s
    decreases |s|
  {
    if |s| >= |pat| {
      assert s[0..] == s;
      if s[..|pat|] == pat {
        assert pat <= s[0..];
        ReplaceGrows(s[|pat|..], pat, rep);
      } else {
        ReplaceGrows(s[1..], pat, rep);
        OccursLater(s, pat);
      }
    }
  }

  lemma OccursLater(s: string, pat: string)
    requires s != "" && !(pat <= s)
    ensures Occurs(s, pat) <==> Occurs(s[1..], pat)
  {
    if Occurs(s, pat) {
      var i :| 0 <= i <= |s| && pat <= s[i..];
      assert s[0..] == s;
      assert s[1..][i - 1..] == s[i..];
    }
    if Occurs(s[1..], pat) {
      var i :| 0 <= i <= |s[1..]| && pat <= s[1..][i..];
      assert s[i + 1..] == s[1..][i..];
    }
  }

  // A round changes every text that holds a mark of its key, if the value is longer than the mark.
  lemma StepChanges(s: string, key: string, value: string)
    requires |Braced(key, true)| < |value| && Occurs(s, Braced(key, false))
    ensures Step(s, key, value) != s
  {
    var half := ReplaceAll(s, Braced(key, true), value);
    ReplaceGrows(s, Braced(key, true), value);
    ReplaceGrows(half, Braced(key, false), value);
  }

  // Behind its last opening brace a value has the beginning of a mark, closed by itself or by the template.
  lemma LastMark(w: string) returns (key: string, closing: string)
    requires !NoOpen(w)
    ensures BraceFree(key) && (closing == "" || closing == "}")
    ensures Occurs(w + closing, Braced(key, false))
  {
    var i := LastOpen(w);
    var q := w[i + 1..];
    var j := FirstClose(q);
    key, closing := q[..j], if j == |q| then "}" else "";
    var t := w + closing;
    assert t[i..] == "{" + q + closing;
    assert (q + closing)[..j + 1] == key + "}";
    assert Braced(key, false) == t[i..][..j + 2];
  }

  lemma {:induction false} LastOpen(w: string) returns (i: nat)
    requires !NoOpen(w)
    ensures i < |w| && w[i] == '{' && NoOpen(w[i + 1..])
  {
    i := |w| - 1;
    if w[i] != '{' {
      i := LastOpen(w[..i]);
    }
  }

  lemma {:induction false} FirstClose(q: string) returns (j: nat)
    requires NoOpen(q)
    ensures j <= |q| && BraceFree(q[..j]) && (j < |q| ==> q[j] == '}')
  {
    j := 0;
    if q != "" && q[0] != '}' {
      j := FirstClose(q[1..]);
      j := j + 1;
      assert q[..j] == [q[0]] + q[1..][..j - 1];
    }
  }

  // The loop is the simultaneous substitution whatever the template, the other variables and the order.
  ghost predicate OrderSafe(w: string) {
    forall ts: seq<Token>, vars: map<string, string>, order: seq<string>, key: string ::
      WellFormed(ts) && IsOrder(vars, order) && OnlyUnsafe(vars, key, w) ==>
        RenderInOrder(Flatten(ts), vars, order) == Substitute(ts, vars)
  }

  // One variable has this value, the others have values without an opening brace.
  ghost predicate OnlyUnsafe(vars: map<string, string>, key: string, w: string) {
    && key in vars && vars[key] == w
    && (forall k :: k in vars ==> BraceFree(k) && (k == key || NoOpen(vars[k])))
  }

  // A value with an opening brace: the variable it spells is replaced inside it.
  lemma OpenBraceBreaks(w: string)
    requires !NoOpen(w)
    ensures !OrderSafe(w)
  {
    var r, closing := LastMark(w);
    var a := r + "x";
    var v := seq(|r| + 5, _ => 'x');
    var vars, order := map[a := w, r := v], [a, r];
    var ts := if closing == "" then [Var(a, false)] else [Var(a, false), Lit(closing)];
    assert NoOpen(v) && BraceFree(a);
    assert |a| != |r|;
    assert IsOrder(vars, order);
    var text := Braced(a, false) + closing;
    FlattenMark(a, closing);
    assert ReplaceAll(text, Braced(a, true), w) == text;
    assert text[..|Braced(a, false)|] == Braced(a, false) && text[|Braced(a, false)|..] == closing;
    assert ReplaceAll(closing, Braced(a, false), w) == closing;
    assert Step(text, a, w) == w + closing;
    StepChanges(w + closing, r, v);
    assert order[1..] == [r] && [r][1..] == [];
    assert RenderInOrder(text, vars, order) == RenderInOrder(w + closing, vars, [r]) == Step(w + closing, r, v);
    SubstituteMark(a, closing, vars);
    assert WellFormed(ts) && OnlyUnsafe(vars, a, w);
  }

  lemma FlattenMark(a: string, closing: string)
    ensures Flatten([Var(a, false)]) == Braced(a, false) + ""
    ensures Flatten([Var(a, false), Lit(closing)]) == Braced(a, false) + closing
  {
    assert [Var(a, false)][1..] == [];
    assert [Var(a, false), Lit(closing)][1..] == [Lit(closing)] && [Lit(closing)][1..] == [];
  }

  lemma SubstituteMark(a: string, closing: string, vars: map<string, string>)
    requires a in vars
    ensures Substitute([Var(a, false)], vars) == vars[a] + ""
    ensures Substitute([Var(a, false), Lit(closing)], vars) == vars[a] + closing
  {
    assert [Var(a, false)][1..] == [];
    assert [Var(a, false), Lit(closing)][1..] == [Lit(closing)] && [Lit(closing)][1..] == [];
  }

  /** Exactly which values are safe: a value keeps the loop equal to the simultaneous substitution, in
      every template, beside all other variables and in every order, if and only if it has no opening brace. */
  lemma OrderSafeIsNoOpen(w: string)
    ensures OrderSafe(w) <==> NoOpen(w)
  {
    if NoOpen(w) {
      forall ts: seq<Token>, vars: map<string, string>, order: seq<string>, key: string
        | WellFormed(ts) && IsOrder(vars, order) && OnlyUnsafe(vars, key, w)
        ensures RenderInOrder(Flatten(ts), vars, order) == Substitute(ts, vars)
      {
        RenderIsSimultaneous(ts, vars, order);
      }
    } else {
      OpenBraceBreaks(w);
    }
  }

  /** The loop itself. The order is whatever the map iteration chose. */
  method RenderTemplate(tmpl: string, vars: map<string, string>) returns (out: string, ghost order: seq<string>)
    ensures IsOrder(vars, order)
    ensures out == RenderInOrder(tmpl, vars, order)
    ensures forall ts: seq<Token> ::
              WellFormed(ts) && Flatten(ts) == tmpl && (forall k :: k in vars ==> BraceFree(k) && NoOpen(vars[k]))
              ==> out == Substitute(ts, vars)
  {
    out, order := tmpl, [];
    var left := vars.Keys;
    while left != {}
      invariant left <= vars.Keys
      invariant forall k :: k in order <==> k in vars && k !in left
      invariant forall i, j :: 0 <= i < j < |order| ==> order[i] != order[j]
      invariant out == RenderInOrder(tmpl, vars, order)
      decreases left
    {
      var key :| key in left;
      RenderSnoc(tmpl, vars, order, key);
      out := ReplaceAll(out, "{{" + key + "}}", vars[key]);
      out := ReplaceAll(out, "{" + key + "}", vars[key]);
      order := order + [key];
      left := left - {key};
    }
    forall ts: seq<Token> | WellFormed(ts) && Flatten(ts) == tmpl
                            && (forall k :: k in vars ==> BraceFree(k) && NoOpen(vars[k]))
      ensures out == Substitute(ts, vars)
    {
      RenderIsSimultaneous(ts, vars, order);
    }
  }

  lemma {:induction false} RenderSnoc(s: string, vars: map<string, string>, order: seq<string>, key: string)
    requires key in vars && forall k :: k in order ==> k in vars
    ensures RenderInOrder(s, vars, order + [key]) == Step(RenderInOrder(s, vars, order), key, vars[key])
    decreases order
  {
    if order == [] {
      assert order + [key] == [key] && [key][1..] == [];
    } else {
      assert (order + [key])[0] == order[0];
      assert (order + [key])[1..] == order[1..] + [key];
      RenderSnoc(Step(s, order[0], vars[order[0]]), vars, order[1..], key);
    }
  }
}
