/**
  Access codes: the `BS-XXXXX-XXXXX` tokens `randomCode` builds from a
  32-symbol alphabet without I, O, 0 and 1, and the normalisation
  (`trim()` then `toUpperCase()`) every handler applies to a submitted code.
  `Math.random` is replaced by draws the caller supplies.
*/
module AccessCode {
  import opened JsValues
  import opened Text

  const Alphabet: string := "ABCDEFGHJKLMNPQRSTUVWXYZ23456789"

  /** One `Math.floor(Math.random() * alphabet.length)`. */
  type Draw = i: nat | i < 32

  /** The ten draws one call of `randomCode` makes. */
  type Roll = s: seq<Draw> | |s| == 10 witness [0, 0, 0, 0, 0, 0, 0, 0, 0, 0]

  /** Letters before digits, each group in character order: the order the alphabet lists its symbols in. */
  function Rank(c: char): int {
    if c >= 'A' then c as int else c as int + 100
  }

  lemma AlphabetOrdered()
    ensures |Alphabet| == 32
    ensures forall i :: 0 <= i < 31 ==> Rank(Alphabet[i]) < Rank(Alphabet[i + 1])
  {
    assert forall i :: 0 <= i < 23 ==> Alphabet[i] < Alphabet[i + 1];
    assert forall i :: 24 <= i < 31 ==> Alphabet[i] < Alphabet[i + 1];
  }

  lemma AlphabetSymbols()
    ensures |Alphabet| == 32
    ensures forall i :: 0 <= i < |Alphabet| ==> Alphabet[i] !in {'I', 'O', '0', '1', '-'}
    ensures forall i :: 0 <= i < |Alphabet| ==> 'A' <= Alphabet[i] <= 'Z' || '2' <= Alphabet[i] <= '9'
  {
  }

  lemma {:induction false} RankIncreasing(i: nat, j: nat)
    requires i < j < 32
    ensures Rank(Alphabet[i]) < Rank(Alphabet[j])
    decreases j - i
  {
    AlphabetOrdered();
    if j > i + 1 {
      RankIncreasing(i, j - 1);
    }
  }

  /** The 32 symbols are distinct, and none is I, O, 0, 1 or the dash. */
  lemma AlphabetFacts()
    ensures |Alphabet| == 32
    ensures forall i, j :: 0 <= i < j < |Alphabet| ==> Alphabet[i] != Alphabet[j]
    ensures forall i :: 0 <= i < |Alphabet| ==> Alphabet[i] !in {'I', 'O', '0', '1', '-'}
    ensures forall i :: 0 <= i < |Alphabet| ==> 'A' <= Alphabet[i] <= 'Z' || '2' <= Alphabet[i] <= '9'
  {
    AlphabetSymbols();
    forall i, j | 0 <= i < j < |Alphabet| ensures Alphabet[i] != Alphabet[j] {
      RankIncreasing(i, j);
    }
  }

  /** The alphabet holds only upper-case ASCII letters and digits. */
  lemma AlphabetPlain(c: char)
    requires c in Alphabet
    ensures !IsSpace(c) && UpperChar(c) == c
  {
    AlphabetFacts();
    var i :| 0 <= i < |Alphabet| && Alphabet[i] == c;
  }

  function Symbols(ds: seq<Draw>): (r: string)
    ensures |r| == |ds|
    ensures forall i :: 0 <= i < |ds| ==> r[i] == Alphabet[ds[i]]
  {
    seq(|ds|, i requires 0 <= i < |ds| => Alphabet[ds[i]])
  }

  /** The code `randomCode` returns for the draws `roll`. */
  function CodeOf(roll: Roll): string {
    "BS-" + Symbols(roll[..5]) + "-" + Symbols(roll[5..])
  }

  /** Where the `k`-th drawn symbol lands in a code. */
  function Slot(k: nat): nat {
    if k < 5 then 3 + k else 4 + k
  }

  /** The shape `randomCode` promises: "BS-", five alphabet symbols, "-", five alphabet symbols. */
  predicate IsAccessCode(s: string) {
    && |s| == 14
    && s[..3] == "BS-"
    && s[8] == '-'
    && forall k :: 0 <= k < 10 ==> s[Slot(k)] in Alphabet
  }

  lemma CodeOfAt(roll: Roll)
    ensures |CodeOf(roll)| == 14
    ensures CodeOf(roll)[..3] == "BS-" && CodeOf(roll)[8] == '-'
    ensures forall k :: 0 <= k < 10 ==> CodeOf(roll)[Slot(k)] == Alphabet[roll[k]]
  {
    var c := CodeOf(roll);
    assert c == ("BS-" + Symbols(roll[..5])) + ("-" + Symbols(roll[5..]));
    forall k | 0 <= k < 10 ensures c[Slot(k)] == Alphabet[roll[k]] {
      if k < 5 {
        assert c[3 + k] == Symbols(roll[..5])[k];
      } else {
        assert c[4 + k] == Symbols(roll[5..])[k - 5];
      }
    }
  }

  /** Every code `randomCode` returns has the access-code shape. */
  lemma CodeOfIsAccessCode(roll: Roll)
    ensures IsAccessCode(CodeOf(roll))
  {
    CodeOfAt(roll);
  }

  /** The loop of `randomCode`: ten symbols, with a dash after the fifth. */
  method RandomCode(roll: Roll) returns (s: string)
    ensures s == CodeOf(roll)
    ensures IsAccessCode(s)
  {
    s := "BS-";
    for i := 0 to 10
      invariant |s| == 3 + i + (if i >= 5 then 1 else 0)
      invariant s[..3] == "BS-"
      invariant i >= 5 ==> s[8] == '-'
      invariant forall k :: 0 <= k < i ==> s[Slot(k)] == Alphabet[roll[k]]
    {
      s := s + [Alphabet[roll[i]]];
      if i == 4 {
        s := s + "-";
      }
    }
    CodeOfAt(roll);
    CodeOfIsAccessCode(roll);
    SameSymbols(s, CodeOf(roll));
  }

  /** Position of `c` in `s`. */
  function IndexIn(s: string, c: char): (r: nat)
    requires c in s
    ensures r < |s| && s[r] == c
    ensures forall j :: 0 <= j < r ==> s[j] != c
  {
    if s[0] == c then 0 else 1 + IndexIn(s[1..], c)
  }

  /** Two access codes with the same ten symbols are the same code. */
  lemma SameSymbols(a: string, b: string)
    requires IsAccessCode(a) && IsAccessCode(b)
    requires forall k :: 0 <= k < 10 ==> a[Slot(k)] == b[Slot(k)]
    ensures a == b
  {
    forall j | 0 <= j < 14 ensures a[j] == b[j] {
      if 3 <= j < 8 {
        assert j == Slot(j - 3);
      } else if 9 <= j {
        assert j == Slot(j - 4);
      } else if j < 3 {
        assert a[j] == a[..3][j] && b[j] == b[..3][j];
      }
    }
  }

  /** Looking a symbol up in the alphabet gives back its draw. */
  lemma IndexOfSymbol(d: Draw)
    ensures IndexIn(Alphabet, Alphabet[d]) == d
  {
    AlphabetFacts();
    var r := IndexIn(Alphabet, Alphabet[d]);
    assert Alphabet[r] == Alphabet[d];
  }

  /** The draws that produce an access code: the inverse of `CodeOf`. */
  function RollsOf(s: string): (r: Roll)
    requires IsAccessCode(s)
  {
    seq(10, k requires 0 <= k < 10 => IndexIn(Alphabet, s[Slot(k)]) as Draw)
  }

  /** Every string of the access-code shape is the code of exactly one roll. */
  lemma RollsOfRoundTrip(s: string)
    requires IsAccessCode(s)
    ensures CodeOf(RollsOf(s)) == s
  {
    var roll := RollsOf(s);
    CodeOfAt(roll);
    CodeOfIsAccessCode(roll);
    forall k | 0 <= k < 10 ensures CodeOf(roll)[Slot(k)] == s[Slot(k)] {
      assert roll[k] == IndexIn(Alphabet, s[Slot(k)]);
    }
    SameSymbols(CodeOf(roll), s);
  }

  /** The draws can be read back from the code they produced. */
  lemma CodeOfRoundTrip(roll: Roll)
    ensures IsAccessCode(CodeOf(roll)) && RollsOf(CodeOf(roll)) == roll
  {
    CodeOfAt(roll);
    CodeOfIsAccessCode(roll);
    var r := RollsOf(CodeOf(roll));
    forall k | 0 <= k < 10 ensures r[k] == roll[k] {
      IndexOfSymbol(roll[k]);
    }
  }

  /** Different draws give different codes. */
  lemma CodeOfInjective(r1: Roll, r2: Roll)
    ensures CodeOf(r1) == CodeOf(r2) ==> r1 == r2
  {
    CodeOfRoundTrip(r1);
    CodeOfRoundTrip(r2);
  }

  /** `String(body.code || "").trim().toUpperCase()`. */
  function NormalizeCode(v: Json): string {
    Upper(Trim(StrOr(v)))
  }

  /** `c` read with any letters in either case. */
  predicate SameLetters(t: string, c: string) {
    |t| == |c| && forall i :: 0 <= i < |t| ==> UpperChar(t[i]) == c[i]
  }

  lemma UpperKeepsSpace(c: char)
    ensures IsSpace(UpperChar(c)) <==> IsSpace(c)
  {
  }

  lemma UpperCharIdempotent(c: char)
    ensures UpperChar(UpperChar(c)) == UpperChar(c)
  {
  }

  lemma UpperIdempotent(t: string)
    ensures Upper(Upper(t)) == Upper(t)
  {
    forall i | 0 <= i < |t| ensures Upper(Upper(t))[i] == Upper(t)[i] {
      UpperCharIdempotent(t[i]);
    }
  }

  lemma UpperKeepsTrimmed(t: string)
    requires Trimmed(t)
    ensures Trimmed(Upper(t))
  {
    if t != [] {
      UpperKeepsSpace(t[0]);
      UpperKeepsSpace(t[|t| - 1]);
    }
  }

  /** An issued code typed in any letter case, with whitespace around it, normalises back to the code. */
  lemma NormalizeIssuedCode(c: string, w1: string, t: string, w2: string)
    requires IsAccessCode(c)
    requires AllSpace(w1) && AllSpace(w2) && SameLetters(t, c)
    ensures NormalizeCode(JStr(w1 + t + w2)) == c
  {
    assert c[Slot(0)] == c[3];
    assert c[0] == c[..3][0] == 'B';
    assert c[13] == c[Slot(9)];
    assert c[13] in Alphabet;
    AlphabetPlain(c[13]);
    UpperKeepsSpace(t[0]);
    UpperKeepsSpace(t[13]);
    assert Trimmed(t);
    TrimPadded(w1, t, w2);
    assert Upper(t) == c;
    assert StrOr(JStr(w1 + t + w2)) == w1 + t + w2 by {
      assert |w1 + t + w2| >= 14;
    }
  }

  /** Normalising twice changes nothing. */
  lemma NormalizeIdempotent(v: Json)
    ensures NormalizeCode(JStr(NormalizeCode(v))) == NormalizeCode(v)
  {
    var t := Trim(StrOr(v));
    var u := Upper(t);
    assert NormalizeCode(v) == u;
    assert StrOr(JStr(u)) == u by {
      if u == [] {
        assert !Truthy(JStr(u));
      } else {
        assert Truthy(JStr(u));
      }
    }
    UpperKeepsTrimmed(t);
    TrimOfTrimmed(u);
    assert Trim(StrOr(JStr(u))) == u;
    UpperIdempotent(t);
    assert Upper(u) == u;
  }
}
