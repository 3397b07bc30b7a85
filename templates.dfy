/**
 * processTemplate: every `{name}` placeholder of a supplied value is
 * replaced, value after value in map order, and whatever
 * `{[a-zA-Z0-9_]+}` token is left afterwards is blanked in one pass.
 */
module Templates {
  import opened Php

  predicate IsWordChar(c: char) {
    ('a' <= c <= 'z') || ('A' <= c <= 'Z') || ('0' <= c <= '9') || c == '_'
  }

  /** A placeholder name the blanking pass recognises. */
  predicate IsWord(k: string) {
    k != [] && forall i :: 0 <= i < |k| ==> IsWordChar(k[i])
  }

  predicate NoBrace(s: string) {
    forall i :: 0 <= i < |s| ==> s[i] != '{'
  }

  function Placeholder(name: string): (p: string)
    ensures |p| == |name| + 2 && p[0] == '{' && p[|p| - 1] == '}'
  {
    "{" + name + "}"
  }

  /** The number of word characters at the start of `s`. */
  function WordRun(s: string): (n: nat)
    ensures n <= |s|
    ensures forall i :: 0 <= i < n ==> IsWordChar(s[i])
    ensures n < |s| ==> !IsWordChar(s[n])
  {
    if s != [] && IsWordChar(s[0]) then 1 + WordRun(s[1..]) else 0
  }

  /** The length of the `{word+}` token `s` starts with, or 0 when it starts with none. */
  function TokenLength(s: string): (n: nat)
    ensures n <= |s|
    ensures n > 0 ==> n >= 3 && s[0] == '{' && s[n - 1] == '}' && IsWord(s[1..n - 1])
    ensures s != [] && s[0] != '{' ==> n == 0
  {
    if s != [] && s[0] == '{' then
      var w := WordRun(s[1..]);
      if w > 0 && 1 + w < |s| && s[1 + w] == '}' then
        assert IsWord(s[1..1 + w]) by {
          var k := s[1..1 + w];
          forall i | 0 <= i < |k| ensures IsWordChar(k[i]) {
            assert k[i] == s[1..][i];
          }
        }
        w + 2
      else 0
    else 0
  }

  predicate HasToken(s: string) {
    exists i :: 0 <= i < |s| && TokenLength(s[i..]) > 0
  }

  /** Every opening brace of `s` starts a `{word+}` token. */
  predicate BracesOpenTokens(s: string) {
    forall i :: 0 <= i < |s| && s[i] == '{' ==> TokenLength(s[i..]) > 0
  }

  /**
   * preg_replace("/{[a-zA-Z0-9_]+}/", "", s): one left-to-right pass that
   * drops every token found and resumes right after it.
   */
  function StripTokens(s: string): (r: string)
    ensures |r| <= |s|
    decreases |s|
  {
    if s == [] then []
    else
      var n := TokenLength(s);
      if n > 0 then StripTokens(s[n..]) else [s[0]] + StripTokens(s[1..])
  }

  /**
   * str_replace(pat, rep, s): occurrences of `pat` are found left to right,
   * never overlapping, and the replacement text is not searched again.
   */
  function ReplaceAll(s: string, pat: string, rep: string): string
    requires pat != []
    decreases |s|
  {
    if |s| < |pat| then s
    else if s[..|pat|] == pat then rep + ReplaceAll(s[|pat|..], pat, rep)
    else [s[0]] + ReplaceAll(s[1..], pat, rep)
  }

  /** The foreach of processTemplate: one str_replace per value, in map order. */
  function Substitute(t: string, values: seq<(string, string)>): string
    decreases |values|
  {
    if values == [] then t
    else Substitute(ReplaceAll(t, Placeholder(values[0].0), values[0].1), values[1..])
  }

  /** processTemplate(t, values) as a value. */
  function Fill(t: string, values: seq<(string, string)>): string {
    StripTokens(Substitute(t, values))
  }

  /** processTemplate, step by step: `$template` is reassigned once per value. */
  method ProcessTemplate(template: string, values: seq<(string, string)>) returns (r: string)
    ensures r == Fill(template, values)
  {
    var t := template;
    var i := 0;
    while i < |values|
      invariant 0 <= i <= |values|
      invariant Substitute(t, values[i..]) == Substitute(template, values)
    {
      assert values[i..][1..] == values[i + 1..];
      t := ReplaceAll(t, Placeholder(values[i].0), values[i].1);
      i := i + 1;
    }
    assert values[i..] == [];
    r := StripTokens(t);
  }

  // ---- the blanking pass ----

  /** A string without a token goes through the blanking pass unchanged. */
  lemma {:induction false} StripNoToken(s: string)
    requires !HasToken(s)
    ensures StripTokens(s) == s
    decreases |s|
  {
    if s != [] {
      assert s[0..] == s;
      assert TokenLength(s) == 0;
      assert !HasToken(s[1..]) by {
        forall i | 0 <= i < |s[1..]| ensures TokenLength(s[1..][i..]) == 0 {
          assert s[1..][i..] == s[i + 1..];
        }
      }
      StripNoToken(s[1..]);
    }
  }

  /** Without an opening brace there is no token. */
  lemma NoBraceNoToken(s: string)
    requires NoBrace(s)
    ensures !HasToken(s)
  {
    forall i | 0 <= i < |s| ensures TokenLength(s[i..]) == 0 {
      assert s[i..][0] == s[i];
    }
  }

  /** A brace-free prefix is copied through the blanking pass. */
  lemma {:induction false} StripPrefix(a: string, b: string)
    requires NoBrace(a)
    ensures StripTokens(a + b) == a + StripTokens(b)
    decreases |a|
  {
    if a != [] {
      var s := a + b;
      assert s[0] == a[0];
      StripCopies(s);
      assert s[1..] == a[1..] + b;
      StripPrefix(a[1..], b);
      assert [a[0]] + (a[1..] + StripTokens(b)) == a + StripTokens(b);
    } else {
      assert a + b == b;
    }
  }

  /** A character that does not open a token is copied. */
  lemma StripCopies(s: string)
    requires s != [] && TokenLength(s) == 0
    ensures StripTokens(s) == [s[0]] + StripTokens(s[1..])
  {
  }

  lemma {:induction false} WordRunOf(k: string, rest: string)
    requires forall i :: 0 <= i < |k| ==> IsWordChar(k[i])
    requires rest != [] && !IsWordChar(rest[0])
    ensures WordRun(k + rest) == |k|
    decreases |k|
  {
    if k == [] {
      assert k + rest == rest;
    } else {
      assert (k + rest)[1..] == k[1..] + rest;
      WordRunOf(k[1..], rest);
    }
  }

  /** A placeholder with a word name is recognised as a whole token. */
  lemma TokenOf(k: string, b: string)
    requires IsWord(k)
    ensures TokenLength(Placeholder(k) + b) == |k| + 2
  {
    var s := Placeholder(k) + b;
    assert s[1..] == k + ("}" + b);
    WordRunOf(k, "}" + b);
  }

  /** The blanking pass drops a word placeholder at the front. */
  lemma StripToken(k: string, b: string)
    requires IsWord(k)
    ensures StripTokens(Placeholder(k) + b) == StripTokens(b)
  {
    TokenOf(k, b);
    assert (Placeholder(k) + b)[|k| + 2..] == b;
  }

  /** When every brace opens a token, the blanking pass leaves no brace at all. */
  lemma {:induction false} StripRemovesOpenTokens(s: string)
    requires BracesOpenTokens(s)
    ensures NoBrace(StripTokens(s))
    decreases |s|
  {
    if s != [] {
      var n := TokenLength(s);
      var m := if n > 0 then n else 1;
      SuffixOpensTokens(s, m);
      StripRemovesOpenTokens(s[m..]);
      if n == 0 {
        assert s[0..] == s;
        NoBraceCons(s[0], StripTokens(s[1..]));
      }
    }
  }

  lemma SuffixOpensTokens(s: string, m: nat)
    requires BracesOpenTokens(s) && m <= |s|
    ensures BracesOpenTokens(s[m..])
  {
    forall i | 0 <= i < |s[m..]| && s[m..][i] == '{' ensures TokenLength(s[m..][i..]) > 0 {
      assert s[m..][i..] == s[m + i..];
    }
  }

  lemma NoBraceCons(c: char, t: string)
    requires c != '{' && NoBrace(t)
    ensures NoBrace([c] + t)
  {
    forall i | 0 <= i < |[c] + t| ensures ([c] + t)[i] != '{' {
      if i > 0 {
        assert ([c] + t)[i] == t[i - 1];
      }
    }
  }

  /**
   * The pass is single: a token exposed by removing an inner one survives,
   * so the output of processTemplate can still hold a token.
   */
  lemma NestedTokenSurvives(a: string, b: string)
    requires IsWord(a) && IsWord(b)
    ensures StripTokens("{" + a + Placeholder(b) + "}") == Placeholder(a)
    ensures HasToken(StripTokens("{" + a + Placeholder(b) + "}"))
  {
    RightNested("{", a, Placeholder(b), "}");
    StripNested(a, b);
    WholeToken(a);
  }

  lemma StripNested(a: string, b: string)
    requires IsWord(a) && IsWord(b)
    ensures StripTokens("{" + (a + (Placeholder(b) + "}"))) == Placeholder(a)
  {
    var t := Placeholder(b) + "}";
    OuterBraceCopied(a, t);
    assert NoBrace(a);
    StripPrefix(a, t);
    StripToken(b, "}");
    CloseBrace();
    RightNested("", "{", a, "}");
  }

  lemma CloseBrace()
    ensures StripTokens("}") == "}"
  {
    StripCopies("}");
  }

  lemma WholeToken(a: string)
    requires IsWord(a)
    ensures HasToken(Placeholder(a))
  {
    TokenOf(a, "");
    assert Placeholder(a) + "" == Placeholder(a) && Placeholder(a)[0..] == Placeholder(a);
  }

  lemma RightNested(w: string, x: string, y: string, z: string)
    ensures w + x + y + z == w + (x + (y + z))
  {
  }

  /** An opening brace followed by a word and another brace is no token and is copied. */
  lemma OuterBraceCopied(a: string, rest: string)
    requires IsWord(a) && rest != [] && rest[0] == '{'
    ensures StripTokens("{" + (a + rest)) == "{" + StripTokens(a + rest)
  {
    var s := "{" + (a + rest);
    assert s[1..] == a + rest;
    WordRunOf(a, rest);
    assert s[1 + |a|] == '{';
    assert TokenLength(s) == 0;
    StripCopies(s);
  }

  // ---- str_replace ----

  /** A string in which the pattern's first character never occurs is left alone. */
  lemma {:induction false} ReplaceAbsent(s: string, pat: string, rep: string)
    requires pat != []
    requires forall i :: 0 <= i < |s| ==> s[i] != pat[0]
    ensures ReplaceAll(s, pat, rep) == s
    decreases |s|
  {
    if |s| >= |pat| {
      assert s[..|pat|][0] != pat[0];
      ReplaceAbsent(s[1..], pat, rep);
    }
  }

  /** A prefix free of the pattern's first character is copied unchanged. */
  lemma {:induction false} ReplacePrefix(a: string, b: string, pat: string, rep: string)
    requires pat != []
    requires forall i :: 0 <= i < |a| ==> a[i] != pat[0]
    ensures ReplaceAll(a + b, pat, rep) == a + ReplaceAll(b, pat, rep)
    decreases |a|
  {
    if a != [] {
      var s := a + b;
      assert s[0] == a[0];
      assert s[1..] == a[1..] + b;
      if |s| < |pat| {
        assert ReplaceAll(b, pat, rep) == b;
      } else {
        assert s[..|pat|][0] != pat[0];
        ReplacePrefix(a[1..], b, pat, rep);
        assert [a[0]] + (a[1..] + ReplaceAll(b, pat, rep)) == a + ReplaceAll(b, pat, rep);
      }
    } else {
      assert a + b == b;
    }
  }

  /** An occurrence at the front is replaced and the scan resumes after it. */
  lemma ReplaceHead(b: string, pat: string, rep: string)
    requires pat != []
    ensures ReplaceAll(pat + b, pat, rep) == rep + ReplaceAll(b, pat, rep)
  {
    assert (pat + b)[..|pat|] == pat;
    assert (pat + b)[|pat|..] == b;
  }

  /** A word placeholder does not occur inside another one. */
  lemma ReplaceOtherPlaceholder(k: string, k': string, rep: string)
    requires IsWord(k) && IsWord(k') && k != k'
    ensures ReplaceAll(Placeholder(k), Placeholder(k'), rep) == Placeholder(k)
  {
    var s := Placeholder(k);
    var pat := Placeholder(k');
    if |s| >= |pat| {
      var head := s[..|pat|];
      if |k'| < |k| {
        assert head[|k'| + 1] == k[|k'|] && IsWordChar(k[|k'|]);
        assert pat[|k'| + 1] == '}';
      } else {
        assert |k'| == |k|;
        assert exists j :: 0 <= j < |k| && k[j] != k'[j];
        var j :| 0 <= j < |k| && k[j] != k'[j];
        assert head[j + 1] == k[j] && pat[j + 1] == k'[j];
      }
      assert head != pat;
      assert s[1..] == k + "}";
      ReplaceAbsent(s[1..], pat, rep);
    }
  }

  // ---- processTemplate ----

  /** A template without braces comes out unchanged, whatever the values. */
  lemma {:induction false} FillNoBrace(t: string, values: seq<(string, string)>)
    requires NoBrace(t)
    ensures Substitute(t, values) == t
    ensures Fill(t, values) == t
    decreases |values|
  {
    if values != [] {
      ReplaceAbsent(t, Placeholder(values[0].0), values[0].1);
      FillNoBrace(t, values[1..]);
    }
    NoBraceNoToken(t);
    StripNoToken(t);
  }

  /** A supplied placeholder is replaced by its value, verbatim, in place. */
  lemma FillOne(a: string, k: string, b: string, v: string)
    requires NoBrace(a) && NoBrace(b) && NoBrace(v)
    ensures Fill(a + Placeholder(k) + b, [(k, v)]) == a + v + b
  {
    var pat := Placeholder(k);
    assert a + pat + b == a + (pat + b);
    ReplacePrefix(a, pat + b, pat, v);
    ReplaceHead(b, pat, v);
    ReplaceAbsent(b, pat, v);
    assert Substitute(a + pat + b, [(k, v)]) == a + v + b;
    assert NoBrace(a + v + b);
    NoBraceNoToken(a + v + b);
    StripNoToken(a + v + b);
  }

  /** A placeholder nobody supplies is blanked. */
  lemma FillMissing(a: string, k: string, b: string)
    requires NoBrace(a) && NoBrace(b) && IsWord(k)
    ensures Fill(a + Placeholder(k) + b, []) == a + b
  {
    assert a + Placeholder(k) + b == a + (Placeholder(k) + b);
    StripPrefix(a, Placeholder(k) + b);
    StripToken(k, b);
    NoBraceNoToken(b);
    StripNoToken(b);
  }

  /**
   * Map order decides: a placeholder brought in by an earlier value is
   * filled by a later one, while one brought in by a later value is only
   * blanked.
   */
  lemma FillInOrder(k1: string, a: string, k2: string, b: string, v: string)
    requires IsWord(k1) && IsWord(k2) && k1 != k2
    requires NoBrace(a) && NoBrace(b) && NoBrace(v)
    ensures Fill(Placeholder(k1), [(k1, a + Placeholder(k2) + b), (k2, v)]) == a + v + b
    ensures Fill(Placeholder(k1), [(k2, v), (k1, a + Placeholder(k2) + b)]) == a + b
  {
    var inner := a + Placeholder(k2) + b;
    ReplaceHead([], Placeholder(k1), inner);
    assert Placeholder(k1) + [] == Placeholder(k1);
    assert inner + [] == inner;
    FillOne(a, k2, b, v);
    ReplaceOtherPlaceholder(k1, k2, v);
    assert [(k2, v), (k1, inner)][1..] == [(k1, inner)];
    assert ReplaceAll([], Placeholder(k1), inner) == [];
    calc {
      Substitute(Placeholder(k1), [(k2, v), (k1, inner)]);
      Substitute(ReplaceAll(Placeholder(k1), Placeholder(k2), v), [(k1, inner)]);
      Substitute(Placeholder(k1), [(k1, inner)]);
      Substitute(ReplaceAll(Placeholder(k1), Placeholder(k1), inner), []);
      inner;
    }
    FillMissing(a, k2, b);
  }

  // ---- joining texts ----

  /** Brace-free texts stay brace-free when joined. */
  lemma NoBraceAppend(a: string, b: string)
    requires NoBrace(a) && NoBrace(b)
    ensures NoBrace(a + b)
  {
    forall i | 0 <= i < |a + b| ensures (a + b)[i] != '{' {
      if i >= |a| {
        assert (a + b)[i] == b[i - |a|];
      }
    }
  }

  lemma EmptyConcat(s: string)
    ensures "" + s == s
  {
  }

  lemma AppendEmpty(s: string)
    ensures s + "" == s
  {
  }
}
