/**
 * What processTemplate means for a template written as literal text and
 * `{word}` placeholders: each placeholder is replaced by the first value
 * supplied for it, a placeholder brought in by a value is resolved only by
 * the values after it, and a placeholder nobody fills is blanked.
 */
module Pieces {
  import opened Templates
  import opened Php

  /** A run of literal text without braces, or a `{name}` placeholder. */
  datatype Piece = Lit(text: string) | Hole(name: string)

  function PieceText(p: Piece): string {
    match p
    case Lit(t) => t
    case Hole(k) => Placeholder(k)
  }

  /** The template text the pieces spell. */
  function Join(ps: seq<Piece>): string {
    if ps == [] then "" else PieceText(ps[0]) + Join(ps[1..])
  }

  lemma {:induction false} JoinAppend(a: seq<Piece>, b: seq<Piece>)
    ensures Join(a + b) == Join(a) + Join(b)
  {
    if a == [] {
      assert a + b == b;
    } else {
      assert (a + b)[1..] == a[1..] + b;
      JoinAppend(a[1..], b);
    }
  }

  /** Literal runs hold no brace and placeholder names are words. */
  predicate WellFormed(ps: seq<Piece>) {
    forall i :: 0 <= i < |ps| ==>
      (ps[i].Lit? ==> NoBrace(ps[i].text)) && (ps[i].Hole? ==> IsWord(ps[i].name))
  }

  lemma WellFormedAppend(a: seq<Piece>, b: seq<Piece>)
    requires WellFormed(a) && WellFormed(b)
    ensures WellFormed(a + b)
  {
    forall i | 0 <= i < |a + b|
      ensures ((a + b)[i].Lit? ==> NoBrace((a + b)[i].text)) && ((a + b)[i].Hole? ==> IsWord((a + b)[i].name))
    {
      if i >= |a| {
        assert (a + b)[i] == b[i - |a|];
      }
    }
  }

  /** A key without a closing brace, whose placeholder cannot run past another one. */
  predicate KeyOk(k: string) {
    forall i :: 0 <= i < |k| ==> k[i] != '}'
  }

  /** Every `{k}` placeholder replaced by the pieces `vs`. */
  function Plug(ps: seq<Piece>, k: string, vs: seq<Piece>): seq<Piece> {
    if ps == [] then []
    else (if ps[0] == Hole(k) then vs else [ps[0]]) + Plug(ps[1..], k, vs)
  }

  lemma {:induction false} PlugWellFormed(ps: seq<Piece>, k: string, vs: seq<Piece>)
    requires WellFormed(ps) && WellFormed(vs)
    ensures WellFormed(Plug(ps, k, vs))
  {
    if ps != [] {
      PlugWellFormed(ps[1..], k, vs);
      var head := if ps[0] == Hole(k) then vs else [ps[0]];
      assert WellFormed(head);
      var r := Plug(ps, k, vs);
      assert r == head + Plug(ps[1..], k, vs);
      forall i | 0 <= i < |r|
        ensures (r[i].Lit? ==> NoBrace(r[i].text)) && (r[i].Hole? ==> IsWord(r[i].name))
      {
        if i >= |head| {
          assert r[i] == Plug(ps[1..], k, vs)[i - |head|];
        }
      }
    }
  }

  /** str_replace skips a different word placeholder as a whole. */
  lemma ReplacePastHole(k': string, b: string, k: string, rep: string)
    requires IsWord(k') && KeyOk(k) && k != k'
    ensures ReplaceAll(Placeholder(k') + b, Placeholder(k), rep) == Placeholder(k') + ReplaceAll(b, Placeholder(k), rep)
  {
    var s := Placeholder(k') + b;
    var pat := Placeholder(k);
    var rest := k' + "}";
    assert s[1..] == rest + b && s[0] == '{';
    CloseNoBrace(k');
    ReplacePrefix(rest, b, pat, rep);
    if |s| >= |pat| {
      OtherHoleNoMatch(k', b, k);
      ConcatAssoc("{", k', "}");
      ConcatAssoc("{", rest, ReplaceAll(b, pat, rep));
    } else {
      assert ReplaceAll(b, pat, rep) == b;
    }
  }

  lemma CloseNoBrace(k': string)
    requires IsWord(k')
    ensures forall i :: 0 <= i < |k' + "}"| ==> (k' + "}")[i] != '{'
  {
    var rest := k' + "}";
    forall i | 0 <= i < |rest| ensures rest[i] != '{' {
      if i < |k'| {
        assert rest[i] == k'[i] && IsWordChar(k'[i]);
      }
    }
  }

  /** A different placeholder name never matches at the front. */
  lemma OtherHoleNoMatch(k': string, b: string, k: string)
    requires IsWord(k') && KeyOk(k) && k != k'
    requires |Placeholder(k') + b| >= |Placeholder(k)|
    ensures (Placeholder(k') + b)[..|Placeholder(k)|] != Placeholder(k)
  {
    var s := Placeholder(k') + b;
    var pat := Placeholder(k);
    var head := s[..|pat|];
    if |k| < |k'| {
      assert head[|k| + 1] == k'[|k|] && IsWordChar(k'[|k|]);
      assert pat[|k| + 1] == '}';
    } else if |k| > |k'| {
      assert head[|k'| + 1] == '}';
      assert pat[|k'| + 1] == k[|k'|];
    } else {
      assert exists j :: 0 <= j < |k| && k[j] != k'[j];
      var j :| 0 <= j < |k| && k[j] != k'[j];
      assert head[j + 1] == k'[j] && pat[j + 1] == k[j];
    }
  }

  /** One str_replace over a well-formed template plugs the value's pieces into every matching placeholder. */
  lemma {:induction false} ReplaceJoin(ps: seq<Piece>, k: string, vs: seq<Piece>)
    requires WellFormed(ps) && KeyOk(k)
    ensures ReplaceAll(Join(ps), Placeholder(k), Join(vs)) == Join(Plug(ps, k, vs))
  {
    var pat := Placeholder(k);
    if ps == [] {
      assert ReplaceAll([], pat, Join(vs)) == [];
    } else {
      var rest := Join(ps[1..]);
      assert WellFormed(ps[1..]) by {
        forall i | 0 <= i < |ps[1..]|
          ensures (ps[1..][i].Lit? ==> NoBrace(ps[1..][i].text)) && (ps[1..][i].Hole? ==> IsWord(ps[1..][i].name))
        {
          assert ps[1..][i] == ps[i + 1];
        }
      }
      ReplaceJoin(ps[1..], k, vs);
      match ps[0]
      case Lit(t) =>
        assert NoBrace(t) by { assert ps[0].Lit?; }
        ReplacePrefix(t, rest, pat, Join(vs));
      case Hole(k') =>
        if k' == k {
          ReplaceHead(rest, pat, Join(vs));
          JoinAppend(vs, Plug(ps[1..], k, vs));
        } else {
          assert IsWord(k') by { assert ps[0].Hole?; }
          ReplacePastHole(k', rest, k, Join(vs));
        }
    }
  }

  // ---- the meaning ----

  /** A supplied value, as the pieces its text spells. */
  type Binding = (string, seq<Piece>)

  function Strings(vals: seq<Binding>): (values: seq<(string, string)>)
    ensures |values| == |vals|
    ensures forall i :: 0 <= i < |vals| ==> values[i] == (vals[i].0, Join(vals[i].1))
  {
    seq(|vals|, i requires 0 <= i < |vals| => (vals[i].0, Join(vals[i].1)))
  }

  /** The first value for `k` at or after position `from`, or -1. */
  function FindFrom(vals: seq<Binding>, k: string, from: nat): (j: int)
    requires from <= |vals|
    ensures -1 <= j < |vals|
    ensures j >= 0 ==> from <= j && vals[j].0 == k && forall l :: from <= l < j ==> vals[l].0 != k
    ensures j < 0 ==> forall l :: from <= l < |vals| ==> vals[l].0 != k
    decreases |vals| - from
  {
    if from == |vals| then -1
    else if vals[from].0 == k then from
    else FindFrom(vals, k, from + 1)
  }

  /**
   * The text processTemplate produces from `ps` when the values from
   * position `from` on are still to be applied: literal text stays, a
   * placeholder becomes its first remaining value (itself rendered with the
   * values after that one) or nothing.
   */
  function Render(ps: seq<Piece>, vals: seq<Binding>, from: nat): string
    requires from <= |vals|
    decreases |vals| - from, |ps|
  {
    if ps == [] then "" else RenderPiece(ps[0], vals, from) + Render(ps[1..], vals, from)
  }

  function RenderPiece(p: Piece, vals: seq<Binding>, from: nat): string
    requires from <= |vals|
    decreases |vals| - from, 0
  {
    match p
    case Lit(t) => t
    case Hole(k) =>
      var j := FindFrom(vals, k, from);
      if j < 0 then "" else Render(vals[j].1, vals, j + 1)
  }

  lemma {:induction false} RenderAppend(a: seq<Piece>, b: seq<Piece>, vals: seq<Binding>, from: nat)
    requires from <= |vals|
    ensures Render(a + b, vals, from) == Render(a, vals, from) + Render(b, vals, from)
  {
    if a == [] {
      assert a + b == b;
    } else {
      assert (a + b)[1..] == a[1..] + b;
      assert (a + b)[0] == a[0];
      RenderAppend(a[1..], b, vals, from);
      ConcatAssoc(RenderPiece(a[0], vals, from), Render(a[1..], vals, from), Render(b, vals, from));
    }
  }

  /** Text made of literal runs only renders as itself. */
  lemma {:induction false} RenderText(ps: seq<Piece>, vals: seq<Binding>, from: nat)
    requires from <= |vals|
    requires forall i :: 0 <= i < |ps| ==> ps[i].Lit?
    ensures Render(ps, vals, from) == Join(ps)
  {
    if ps != [] {
      RenderText(ps[1..], vals, from);
    }
  }

  /** Plugging in the value at `from` and rendering with the rest is rendering from `from`. */
  lemma {:induction false} RenderPlug(ps: seq<Piece>, vals: seq<Binding>, from: nat)
    requires from < |vals|
    ensures Render(Plug(ps, vals[from].0, vals[from].1), vals, from + 1) == Render(ps, vals, from)
  {
    if ps != [] {
      var k := vals[from].0;
      var vs := vals[from].1;
      var tail := Plug(ps[1..], k, vs);
      RenderPlug(ps[1..], vals, from);
      if ps[0] == Hole(k) {
        RenderAppend(vs, tail, vals, from + 1);
      } else {
        RenderAppend([ps[0]], tail, vals, from + 1);
        assert ([ps[0]] + tail)[1..] == tail;
        if ps[0].Hole? {
          assert FindFrom(vals, ps[0].name, from) == FindFrom(vals, ps[0].name, from + 1);
        }
      }
    }
  }

  /** With no values left, the blanking pass drops every placeholder. */
  lemma {:induction false} StripJoin(ps: seq<Piece>, vals: seq<Binding>)
    requires WellFormed(ps)
    ensures StripTokens(Join(ps)) == Render(ps, vals, |vals|)
  {
    if ps != [] {
      assert WellFormed(ps[1..]) by {
        forall i | 0 <= i < |ps[1..]|
          ensures (ps[1..][i].Lit? ==> NoBrace(ps[1..][i].text)) && (ps[1..][i].Hole? ==> IsWord(ps[1..][i].name))
        {
          assert ps[1..][i] == ps[i + 1];
        }
      }
      StripJoin(ps[1..], vals);
      match ps[0]
      case Lit(t) =>
        assert NoBrace(t) by { assert ps[0].Lit?; }
        StripPrefix(t, Join(ps[1..]));
      case Hole(k) =>
        assert IsWord(k) by { assert ps[0].Hole?; }
        StripToken(k, Join(ps[1..]));
    }
  }

  /** Every key usable and every value a well-formed run of pieces. */
  predicate GoodValues(vals: seq<Binding>) {
    forall i :: 0 <= i < |vals| ==> KeyOk(vals[i].0) && WellFormed(vals[i].1)
  }

  lemma {:induction false} FillRenderFrom(ps: seq<Piece>, vals: seq<Binding>, from: nat)
    requires from <= |vals| && WellFormed(ps) && GoodValues(vals)
    ensures Fill(Join(ps), Strings(vals)[from..]) == Render(ps, vals, from)
    decreases |vals| - from
  {
    var values := Strings(vals)[from..];
    if from == |vals| {
      assert values == [];
      StripJoin(ps, vals);
    } else {
      var k := vals[from].0;
      var vs := vals[from].1;
      assert values[0] == (k, Join(vs));
      assert values[1..] == Strings(vals)[from + 1..];
      ReplaceJoin(ps, k, vs);
      PlugWellFormed(ps, k, vs);
      FillRenderFrom(Plug(ps, k, vs), vals, from + 1);
      RenderPlug(ps, vals, from);
    }
  }

  /**
   * processTemplate on a well-formed template: the result is the rendering
   * of the template by the values in map order.
   */
  lemma FillMeaning(ps: seq<Piece>, vals: seq<Binding>)
    requires WellFormed(ps) && GoodValues(vals)
    ensures Fill(Join(ps), Strings(vals)) == Render(ps, vals, 0)
  {
    FillRenderFrom(ps, vals, 0);
    assert Strings(vals)[0..] == Strings(vals);
  }

  // ---- values given as a PHP array ----

  /**
   * The values of `h` as pieces: the keys in `special` spell the pieces
   * given there, every other value is one literal run.
   */
  function Lift(h: seq<(string, string)>, special: map<string, seq<Piece>>): (vals: seq<Binding>)
    ensures |vals| == |h|
    ensures forall i :: 0 <= i < |h| ==>
              vals[i] == (h[i].0, if h[i].0 in special then special[h[i].0] else [Lit(h[i].1)])
  {
    seq(|h|, i requires 0 <= i < |h| => (h[i].0, if h[i].0 in special then special[h[i].0] else [Lit(h[i].1)]))
  }

  /** Keys free of `}`, special values spelled by their pieces, all other values free of braces. */
  predicate PlainValues(h: seq<(string, string)>, special: map<string, seq<Piece>>) {
    (forall k :: k in special ==> WellFormed(special[k]))
    && forall i :: 0 <= i < |h| ==>
         KeyOk(h[i].0)
         && (h[i].0 in special ==> h[i].1 == Join(special[h[i].0]))
         && (h[i].0 !in special ==> NoBrace(h[i].1))
  }

  lemma LiftSpells(h: seq<(string, string)>, special: map<string, seq<Piece>>)
    requires PlainValues(h, special)
    ensures Strings(Lift(h, special)) == h
    ensures GoodValues(Lift(h, special))
  {
    var vals := Lift(h, special);
    forall i | 0 <= i < |h| ensures Strings(vals)[i] == h[i] && WellFormed(vals[i].1) {
      if h[i].0 !in special {
        assert Join([Lit(h[i].1)]) == h[i].1;
      }
    }
  }

  /** In an array with unique keys, the first value for `k` from `from` on is the only one, if it is there. */
  lemma FindFromUnique(h: PhpArray<string>, special: map<string, seq<Piece>>, k: string, from: nat)
    requires from <= |h|
    ensures FindFrom(Lift(h, special), k, from) == if Find(h, k) >= from then Find(h, k) else -1
  {
    var vals := Lift(h, special);
    var j := FindFrom(vals, k, from);
    if j >= 0 {
      assert h[j].0 == k;
    }
  }

  /** A placeholder for a plain value renders as that value, or as nothing once it is behind. */
  lemma SlotPlain(h: PhpArray<string>, special: map<string, seq<Piece>>, k: string, from: nat)
    requires from <= |h| && k !in special
    ensures Render([Hole(k)], Lift(h, special), from) == if Find(h, k) >= from then Get(h, k, "") else ""
  {
    FindFromUnique(h, special, k, from);
    var vals := Lift(h, special);
    var j := FindFrom(vals, k, from);
    if j >= 0 {
      assert vals[j].1 == [Lit(h[j].1)];
      assert Render([Lit(h[j].1)], vals, j + 1) == h[j].1;
    }
    assert [Hole(k)][1..] == [];
  }

  /** The template with each placeholder replaced by its value in `h`, or by nothing. */
  function Instantiate(ps: seq<Piece>, h: seq<(string, string)>): string {
    if ps == [] then ""
    else
      (match ps[0]
       case Lit(t) => t
       case Hole(k) => Get(h, k, "")) + Instantiate(ps[1..], h)
  }

  lemma {:induction false} InstantiateAppend(a: seq<Piece>, b: seq<Piece>, h: seq<(string, string)>)
    ensures Instantiate(a + b, h) == Instantiate(a, h) + Instantiate(b, h)
  {
    if a == [] {
      assert a + b == b;
    } else {
      assert (a + b)[1..] == a[1..] + b;
      assert (a + b)[0] == a[0];
      InstantiateAppend(a[1..], b, h);
    }
  }

  /** Text made of literal runs only is its own instance. */
  lemma {:induction false} InstantiateText(ps: seq<Piece>, h: seq<(string, string)>)
    requires forall i :: 0 <= i < |ps| ==> ps[i].Lit?
    ensures Instantiate(ps, h) == Join(ps)
  {
    if ps != [] {
      InstantiateText(ps[1..], h);
    }
  }

  lemma {:induction false} RenderLifted(ps: seq<Piece>, h: PhpArray<string>)
    ensures Render(ps, Lift(h, map[]), 0) == Instantiate(ps, h)
  {
    if ps != [] {
      RenderLifted(ps[1..], h);
      if ps[0].Hole? {
        SlotPlain(h, map[], ps[0].name, 0);
        assert [Hole(ps[0].name)][1..] == [];
      }
    }
  }

  /**
   * With brace-free values, map order does not matter: processTemplate
   * replaces each placeholder by its value and blanks the others.
   */
  lemma FillPlain(ps: seq<Piece>, h: PhpArray<string>)
    requires WellFormed(ps) && PlainValues(h, map[])
    ensures Fill(Join(ps), h) == Instantiate(ps, h)
  {
    LiftSpells(h, map[]);
    FillMeaning(ps, Lift(h, map[]));
    RenderLifted(ps, h);
  }

  /** A word names a placeholder and holds no brace. */
  lemma WordNoBrace(s: string)
    requires IsWord(s)
    ensures NoBrace(s) && KeyOk(s)
  {
  }

  /**
   * A rendering is an instance once every placeholder, rendered on its own,
   * reads as the value `h` has for it.
   */
  lemma {:induction false} RenderAsInstance(ps: seq<Piece>, vals: seq<Binding>, from: nat, h: seq<(string, string)>)
    requires from <= |vals|
    requires forall i :: 0 <= i < |ps| && ps[i].Hole? ==> Render([ps[i]], vals, from) == Get(h, ps[i].name, "")
    ensures Render(ps, vals, from) == Instantiate(ps, h)
  {
    if ps != [] {
      forall i | 0 <= i < |ps[1..]| && ps[1..][i].Hole?
        ensures Render([ps[1..][i]], vals, from) == Get(h, ps[1..][i].name, "")
      {
        assert ps[1..][i] == ps[i + 1];
      }
      RenderAsInstance(ps[1..], vals, from, h);
      RenderCons(ps, vals, from);
    }
  }

  /** A rendering is the rendering of its first piece followed by that of the rest. */
  lemma RenderCons(ps: seq<Piece>, vals: seq<Binding>, from: nat)
    requires from <= |vals| && ps != []
    ensures Render(ps, vals, from) == Render([ps[0]], vals, from) + Render(ps[1..], vals, from)
    ensures ps[0].Lit? ==> Render([ps[0]], vals, from) == ps[0].text
  {
    RenderFirst(ps, vals, from);
    if ps[0].Lit? {
      RenderLit(ps[0].text, vals, from);
    }
  }

  lemma RenderFirst(ps: seq<Piece>, vals: seq<Binding>, from: nat)
    requires from <= |vals| && ps != []
    ensures Render(ps, vals, from) == Render([ps[0]], vals, from) + Render(ps[1..], vals, from)
  {
    RenderSingle(ps[0], vals, from);
  }

  lemma RenderSingle(p: Piece, vals: seq<Binding>, from: nat)
    requires from <= |vals|
    ensures Render([p], vals, from) == RenderPiece(p, vals, from)
  {
    assert [p][1..] == [];
    AppendEmpty(RenderPiece(p, vals, from));
  }

  lemma RenderLit(t: string, vals: seq<Binding>, from: nat)
    requires from <= |vals|
    ensures Render([Lit(t)], vals, from) == t
  {
    RenderSingle(Lit(t), vals, from);
  }

  /** Setting a key to a plain value keeps the values plain. */
  lemma PutPlain(h: PhpArray<string>, special: map<string, seq<Piece>>, k: string, v: string)
    requires PlainValues(h, special) && KeyOk(k)
    requires k in special ==> v == Join(special[k])
    requires k !in special ==> NoBrace(v)
    ensures PlainValues(Put(h, k, v), special)
  {
    var r := Put(h, k, v);
    forall i | 0 <= i < |r|
      ensures KeyOk(r[i].0)
              && (r[i].0 in special ==> r[i].1 == Join(special[r[i].0]))
              && (r[i].0 !in special ==> NoBrace(r[i].1))
    {
      if i < |h| && h[i].0 != k {
        assert r[i] == h[i];
      } else {
        assert r[i] == (k, v);
      }
    }
  }

  /** array_merge of two arrays of plain values is plain. */
  lemma MergePlain(a: PhpArray<string>, b: PhpArray<string>, special: map<string, seq<Piece>>)
    requires PlainValues(a, special) && PlainValues(b, special)
    ensures PlainValues(Merge(a, b), special)
  {
    var r := Merge(a, b);
    MergeEntries(a, b);
    forall i | 0 <= i < |r|
      ensures KeyOk(r[i].0)
              && (r[i].0 in special ==> r[i].1 == Join(special[r[i].0]))
              && (r[i].0 !in special ==> NoBrace(r[i].1))
    {
      if r[i] in a {
        var l :| 0 <= l < |a| && a[l] == r[i];
      } else {
        var l :| 0 <= l < |b| && b[l] == r[i];
      }
    }
  }
}
