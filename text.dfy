/**
  The string operations the handlers chain together: `\s` and `trim()`,
  `replace(/\s+/g, " ")`, `toUpperCase()` / `toLowerCase()`, prefix and
  substring tests and `replace(/\/+$/, "")`.
*/
module Text {

  /** The characters JavaScript's `\s` matches; `String.prototype.trim` strips the same set. */
  predicate IsSpace(c: char) {
    || c == '\t' || c == '\n' || c == '\U{B}' || c == '\U{C}' || c == '\r' || c == ' '
    || c == '\U{A0}' || c == '\U{1680}' || ('\U{2000}' <= c <= '\U{200A}')
    || c == '\U{2028}' || c == '\U{2029}' || c == '\U{202F}' || c == '\U{205F}'
    || c == '\U{3000}' || c == '\U{FEFF}'
  }

  predicate AllSpace(s: string) {
    forall i :: 0 <= i < |s| ==> IsSpace(s[i])
  }

  /** Neither end of `s` is whitespace, which is what `trim()` leaves. */
  predicate Trimmed(s: string) {
    s == [] || (!IsSpace(s[0]) && !IsSpace(s[|s| - 1]))
  }

  /** No two neighbouring characters of `s` are both whitespace. */
  predicate NoDoubleSpace(s: string) {
    forall i :: 0 <= i < |s| - 1 ==> !(IsSpace(s[i]) && IsSpace(s[i + 1]))
  }

  /** The only whitespace character in `s` is the plain space. */
  predicate PlainSpacesOnly(s: string) {
    forall i :: 0 <= i < |s| && IsSpace(s[i]) ==> s[i] == ' '
  }

  /** The number of whitespace characters `s` starts with. */
  function LeadingSpaces(s: string): (k: nat)
    ensures k <= |s|
    ensures forall i :: 0 <= i < k ==> IsSpace(s[i])
    ensures k == |s| || !IsSpace(s[k])
  {
    if s != [] && IsSpace(s[0]) then 1 + LeadingSpaces(s[1..]) else 0
  }

  function TrimStart(s: string): (r: string)
    ensures |r| <= |s| && r == s[|s| - |r|..]
    ensures r == [] || !IsSpace(r[0])
    ensures AllSpace(s[..|s| - |r|])
  {
    var k := LeadingSpaces(s);
    assert forall i :: 0 <= i < k ==> s[..k][i] == s[i];
    s[k..]
  }

  function TrimEnd(s: string): (r: string)
    ensures |r| <= |s| && r == s[..|r|]
    ensures r == [] || !IsSpace(r[|r| - 1])
    ensures AllSpace(s[|r|..])
  {
    if s != [] && IsSpace(s[|s| - 1]) then
      var p := s[..|s| - 1];
      var r := TrimEnd(p);
      assert s[|r|..] == p[|r|..] + [s[|s| - 1]];
      AllSpaceConcat(p[|r|..], [s[|s| - 1]]);
      r
    else s
  }

  lemma AllSpaceConcat(a: string, b: string)
    ensures AllSpace(a + b) <==> AllSpace(a) && AllSpace(b)
  {
    assert forall i :: 0 <= i < |a| ==> (a + b)[i] == a[i];
    assert forall i :: 0 <= i < |b| ==> (a + b)[|a| + i] == b[i];
  }

  lemma TrimStartBlank(s: string)
    ensures TrimStart(s) == [] <==> AllSpace(s)
  {
    var t := TrimStart(s);
    var k := |s| - |t|;
    if t == [] {
      assert s[..k] == s;
    } else {
      assert s[k] == t[0];
      NotAllSpace(s, k);
    }
  }

  lemma TrimEndBlank(s: string)
    ensures TrimEnd(s) == [] <==> AllSpace(s)
  {
    var t := TrimEnd(s);
    if t == [] {
      assert s[|t|..] == s;
    } else {
      assert s[|t| - 1] == t[|t| - 1];
      NotAllSpace(s, |t| - 1);
    }
  }

  /** A text with a non-whitespace character is not blank. */
  lemma NotAllSpace(t: string, i: nat)
    requires i < |t| && !IsSpace(t[i])
    ensures !AllSpace(t)
  {
  }

  /** `s.trim()`. */
  function Trim(s: string): (r: string)
    ensures Trimmed(r)
    ensures |r| <= |s|
    ensures r == [] <==> AllSpace(s)
  {
    var t := TrimStart(s);
    var r := TrimEnd(t);
    TrimStartBlank(s);
    TrimEndBlank(t);
    assert r != [] ==> r[0] == t[0];
    r
  }

  lemma TrimStartKeeps(w: string, t: string)
    requires AllSpace(w)
    requires t == [] || !IsSpace(t[0])
    ensures TrimStart(w + t) == t
  {
    LeadingSpacesOf(w, t);
    assert (w + t)[|w|..] == t;
  }

  lemma {:induction false} LeadingSpacesOf(w: string, t: string)
    requires AllSpace(w)
    requires t == [] || !IsSpace(t[0])
    ensures LeadingSpaces(w + t) == |w|
    decreases |w|
  {
    if w != [] {
      assert (w + t)[0] == w[0];
      assert (w + t)[1..] == w[1..] + t;
      LeadingSpacesOf(w[1..], t);
    } else {
      assert w + t == t;
    }
  }

  lemma {:induction false} TrimEndKeeps(t: string, w: string)
    requires AllSpace(w)
    requires t == [] || !IsSpace(t[|t| - 1])
    ensures TrimEnd(t + w) == t
    decreases |w|
  {
    if w != [] {
      assert (t + w)[..|t + w| - 1] == t + w[..|w| - 1];
      TrimEndKeeps(t, w[..|w| - 1]);
    } else {
      assert t + w == t;
    }
  }

  /** Whitespace around an already trimmed text is exactly what `trim()` removes. */
  lemma TrimPadded(w1: string, t: string, w2: string)
    requires AllSpace(w1) && AllSpace(w2) && Trimmed(t)
    ensures Trim(w1 + t + w2) == t
  {
    assert w1 + t + w2 == w1 + (t + w2);
    if t == [] {
      assert AllSpace(t + w2);
      TrimStartKeeps(w1 + w2, []);
      assert w1 + t + w2 == (w1 + w2) + [];
    } else {
      assert (t + w2)[0] == t[0];
      TrimStartKeeps(w1, t + w2);
      TrimEndKeeps(t, w2);
    }
  }

  /** `trim()` leaves an already trimmed text alone. */
  lemma TrimOfTrimmed(t: string)
    requires Trimmed(t)
    ensures Trim(t) == t
  {
    TrimPadded([], t, []);
    assert [] + t + [] == t;
  }

  /** `s.replace(/\s+/g, " ")`: every maximal run of whitespace becomes one plain space. */
  function Collapse(s: string): (r: string)
    ensures |r| <= |s|
    ensures r == [] <==> s == []
    ensures s != [] && IsSpace(s[0]) ==> r[0] == ' '
    ensures s != [] && !IsSpace(s[0]) ==> r[0] == s[0]
    decreases |s|
  {
    if s == [] then []
    else if IsSpace(s[0]) then " " + Collapse(TrimStart(s))
    else [s[0]] + Collapse(s[1..])
  }

  lemma ConsSpacing(c: char, t: string)
    requires NoDoubleSpace(t) && PlainSpacesOnly(t)
    requires IsSpace(c) ==> c == ' ' && (t == [] || !IsSpace(t[0]))
    ensures NoDoubleSpace([c] + t) && PlainSpacesOnly([c] + t)
  {
    var r := [c] + t;
    forall i | 0 <= i < |r| - 1 ensures !(IsSpace(r[i]) && IsSpace(r[i + 1])) {
      if i > 0 {
        assert r[i] == t[i - 1] && r[i + 1] == t[i];
      }
    }
    forall i | 0 <= i < |r| && IsSpace(r[i]) ensures r[i] == ' ' {
      if i > 0 {
        assert r[i] == t[i - 1];
      }
    }
  }

  /** After collapsing, no two whitespace characters touch and the only one left is the plain space. */
  lemma {:induction false} CollapseSpacing(s: string)
    ensures NoDoubleSpace(Collapse(s)) && PlainSpacesOnly(Collapse(s))
    decreases |s|
  {
    if s != [] {
      if IsSpace(s[0]) {
        CollapseSpacing(TrimStart(s));
        ConsSpacing(' ', Collapse(TrimStart(s)));
      } else {
        CollapseSpacing(s[1..]);
        ConsSpacing(s[0], Collapse(s[1..]));
      }
    }
  }

  /** Leading whitespace of a text that ends in a non-space is its own: what follows it is kept whole. */
  lemma TrimStartAppend(a: string, u: string)
    requires a != [] && !IsSpace(a[|a| - 1])
    ensures TrimStart(a + u) == TrimStart(a) + u
    ensures |TrimStart(a)| > 0 && TrimStart(a)[|TrimStart(a)| - 1] == a[|a| - 1]
  {
    var t := TrimStart(a);
    var v := a[..|a| - |t|];
    assert a == v + t;
    assert a + u == v + (t + u);
    assert (t + u)[0] == t[0];
    TrimStartKeeps(v, t + u);
  }

  /** A run of whitespace opening the text collapses to one space before the rest. */
  lemma CollapseLeadingRun(w: string, b: string)
    requires w != [] && AllSpace(w)
    requires b == [] || !IsSpace(b[0])
    ensures Collapse(w + b) == " " + Collapse(b)
  {
    assert (w + b)[0] == w[0];
    TrimStartKeeps(w, b);
  }

  /**
    A whitespace run between two non-whitespace neighbours (or an end of
    the text) becomes exactly one plain space, and the text on either side
    is collapsed on its own.
  */
  lemma CollapseRun(a: string, w: string, b: string)
    requires w != [] && AllSpace(w)
    requires a == [] || !IsSpace(a[|a| - 1])
    requires b == [] || !IsSpace(b[0])
    ensures Collapse(a + w + b) == Collapse(a) + " " + Collapse(b)
  {
    var u := w + b;
    CollapseLeadingRun(w, b);
    CollapseAppend(a, u);
    ConcatAssoc(a, w, b);
    Regroup(Collapse(a + u), Collapse(a), Collapse(u), " ", Collapse(b), Collapse(a) + " ");
  }

  /** No whitespace run crosses the end of a text that ends in a non-space, so each side collapses on its own. */
  lemma {:induction false} CollapseAppend(a: string, u: string)
    requires a == [] || !IsSpace(a[|a| - 1])
    ensures Collapse(a + u) == Collapse(a) + Collapse(u)
    decreases |a|
  {
    if a == [] {
      assert a + u == u;
    } else {
      var t, h := CollapseStep(a, u);
      CollapseAppend(t, u);
      Regroup(Collapse(a + u), h, Collapse(t + u), Collapse(t), Collapse(u), Collapse(a));
    }
  }

  lemma ConcatAssoc(x: string, y: string, z: string)
    ensures x + y + z == x + (y + z)
  {
  }

  lemma Regroup(x: string, h: string, p: string, y: string, z: string, q: string)
    requires x == h + p && p == y + z && q == h + y
    ensures x == q + z
  {
  }

  /**
    One step of `Collapse` on a text ending in a non-space, with anything
    appended: the head `h` it emits and the shorter rest `t` it goes on with.
  */
  lemma CollapseStep(a: string, u: string) returns (t: string, h: string)
    requires a != [] && !IsSpace(a[|a| - 1])
    ensures |t| < |a| && (t == [] || !IsSpace(t[|t| - 1]))
    ensures Collapse(a + u) == h + Collapse(t + u)
    ensures Collapse(a) == h + Collapse(t)
  {
    assert (a + u)[0] == a[0];
    if IsSpace(a[0]) {
      t, h := TrimStart(a), " ";
      TrimStartAppend(a, u);
    } else {
      t, h := a[1..], [a[0]];
      assert (a + u)[1..] == a[1..] + u;
      if |a| > 1 {
        assert a[1..][|a| - 2] == a[|a| - 1];
      }
    }
  }

  /** The text with every whitespace character removed. */
  function NonSpace(s: string): (r: string)
    ensures |r| <= |s|
  {
    if s == [] then [] else (if IsSpace(s[0]) then [] else [s[0]]) + NonSpace(s[1..])
  }

  lemma {:induction false} NonSpaceConcat(a: string, b: string)
    ensures NonSpace(a + b) == NonSpace(a) + NonSpace(b)
    decreases |a|
  {
    if a != [] {
      var c := a + b;
      var h := if IsSpace(a[0]) then [] else [a[0]];
      assert c[0] == a[0] && c[1..] == a[1..] + b;
      NonSpaceConcat(a[1..], b);
      assert NonSpace(c) == h + NonSpace(c[1..]);
      assert NonSpace(a) == h + NonSpace(a[1..]);
      assert h + (NonSpace(a[1..]) + NonSpace(b)) == (h + NonSpace(a[1..])) + NonSpace(b);
    } else {
      assert a + b == b;
    }
  }

  lemma {:induction false} NonSpaceBlank(w: string)
    requires AllSpace(w)
    ensures NonSpace(w) == []
    decreases |w|
  {
    if w != [] {
      assert IsSpace(w[0]);
      NonSpaceBlank(w[1..]);
    }
  }

  /** Collapsing whitespace keeps every other character, in order. */
  lemma {:induction false} CollapseKeepsText(s: string)
    ensures NonSpace(Collapse(s)) == NonSpace(s)
    decreases |s|
  {
    if s != [] {
      if IsSpace(s[0]) {
        var rest := TrimStart(s);
        var k := |s| - |rest|;
        assert s == s[..k] + rest;
        NonSpaceConcat(s[..k], rest);
        NonSpaceBlank(s[..k]);
        CollapseKeepsText(rest);
        var c := " " + Collapse(rest);
        assert c[0] == ' ' && c[1..] == Collapse(rest);
      } else {
        CollapseKeepsText(s[1..]);
        var c := [s[0]] + Collapse(s[1..]);
        assert c[0] == s[0] && c[1..] == Collapse(s[1..]);
      }
    }
  }

  lemma NonSpaceTrimStart(s: string)
    ensures NonSpace(TrimStart(s)) == NonSpace(s)
  {
    var t := TrimStart(s);
    var w := s[..|s| - |t|];
    assert s == w + t;
    NonSpaceConcat(w, t);
    NonSpaceBlank(w);
  }

  lemma NonSpaceTrimEnd(s: string)
    ensures NonSpace(TrimEnd(s)) == NonSpace(s)
  {
    var t := TrimEnd(s);
    var w := s[|t|..];
    assert s == t + w;
    NonSpaceConcat(t, w);
    NonSpaceBlank(w);
  }

  /** Trimming removes whitespace only. */
  lemma TrimKeepsText(s: string)
    ensures NonSpace(Trim(s)) == NonSpace(s)
  {
    NonSpaceTrimStart(s);
    NonSpaceTrimEnd(TrimStart(s));
  }

  lemma ConsBlank(c: char, t: string)
    ensures AllSpace([c] + t) <==> IsSpace(c) && AllSpace(t)
  {
    var r := [c] + t;
    assert r[0] == c;
    assert forall i :: 0 <= i < |t| ==> r[i + 1] == t[i];
    if IsSpace(c) && AllSpace(t) {
      forall i | 0 <= i < |r| ensures IsSpace(r[i]) {
        if i > 0 { assert r[i] == t[i - 1]; }
      }
    }
  }

  /** Collapsing leaves a text blank exactly when it was blank. */
  lemma {:induction false} CollapseBlank(s: string)
    ensures AllSpace(Collapse(s)) <==> AllSpace(s)
    decreases |s|
  {
    if s != [] {
      if IsSpace(s[0]) {
        var rest := TrimStart(s);
        assert s == s[..|s| - |rest|] + rest;
        assert AllSpace(s) <==> rest == [];
        CollapseBlank(rest);
        ConsBlank(' ', Collapse(rest));
      } else {
        assert !AllSpace(s);
        ConsBlank(s[0], Collapse(s[1..]));
      }
    }
  }

  function UpperChar(c: char): char {
    if 'a' <= c <= 'z' then (c as int - 32) as char else c
  }

  function LowerChar(c: char): char {
    if 'A' <= c <= 'Z' then (c as int + 32) as char else c
  }

  /** `s.toUpperCase()`, letter by letter. */
  function Upper(s: string): (r: string)
    ensures |r| == |s|
    ensures forall i :: 0 <= i < |s| ==> r[i] == UpperChar(s[i])
  {
    seq(|s|, i requires 0 <= i < |s| => UpperChar(s[i]))
  }

  /** `s.toLowerCase()`, letter by letter. */
  function Lower(s: string): (r: string)
    ensures |r| == |s|
    ensures forall i :: 0 <= i < |s| ==> r[i] == LowerChar(s[i])
  {
    seq(|s|, i requires 0 <= i < |s| => LowerChar(s[i]))
  }

  /** Lower-casing commutes with concatenation. */
  lemma LowerConcat(a: string, b: string)
    ensures Lower(a + b) == Lower(a) + Lower(b)
  {
    assert forall i :: 0 <= i < |a + b| ==> Lower(a + b)[i] == (Lower(a) + Lower(b))[i];
  }

  predicate StartsWith(s: string, prefix: string) {
    |prefix| <= |s| && s[..|prefix|] == prefix
  }

  /** `s.includes(sub)`. */
  predicate Contains(s: string, sub: string) {
    exists i :: 0 <= i <= |s| - |sub| && OccursAt(s, sub, i)
  }

  predicate OccursAt(s: string, sub: string, i: nat) {
    i + |sub| <= |s| && s[i..i + |sub|] == sub
  }

  /** `s.replace(/\/+$/, "")`: drops every trailing slash. */
  function StripTrailingSlashes(s: string): (r: string)
    ensures |r| <= |s| && r == s[..|r|]
    ensures r == [] || r[|r| - 1] != '/'
    ensures forall i :: |r| <= i < |s| ==> s[i] == '/'
  {
    if s != [] && s[|s| - 1] == '/' then StripTrailingSlashes(s[..|s| - 1]) else s
  }
}
