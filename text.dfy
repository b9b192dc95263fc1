/** The string operations the Python code relies on, restricted to ASCII:
    `str.lower`, the `in` substring test, `str.split()` and `str(int)`. */
module TextOps {

  function LowerChar(c: char): char
  {
    if 'A' <= c <= 'Z' then (c as int + 32) as char else c
  }

  /** ASCII lower-casing, character by character. */
  function Lower(s: string): (r: string)
    ensures |r| == |s|
    ensures forall i :: 0 <= i < |s| ==> r[i] == LowerChar(s[i])
  {
    if s == [] then [] else [LowerChar(s[0])] + Lower(s[1..])
  }

  /** `p` is a prefix of `s`. */
  predicate StartsWith(s: string, p: string)
  {
    |p| <= |s| && s[..|p|] == p
  }

  /** Python's `p in s` on strings: `p` occurs in `s` as a contiguous substring. */
  predicate Contains(s: string, p: string)
    decreases |s|
  {
    StartsWith(s, p) || (s != [] && Contains(s[1..], p))
  }

  /** `p` occurs in `s` starting at position `i`. */
  predicate OccursAt(s: string, p: string, i: int)
  {
    0 <= i <= |s| - |p| && s[i..i + |p|] == p
  }

  /** `Contains` is exactly "some window of `s` equals `p`". */
  lemma {:induction false} ContainsAt(s: string, p: string)
    ensures Contains(s, p) <==> exists i :: OccursAt(s, p, i)
    decreases |s|
  {
    if StartsWith(s, p) {
      assert OccursAt(s, p, 0);
    }
    if s != [] {
      ContainsAt(s[1..], p);
      if Contains(s[1..], p) {
        var i :| OccursAt(s[1..], p, i);
        assert s[1..][i..i + |p|] == s[i + 1..i + 1 + |p|];
        assert OccursAt(s, p, i + 1);
      }
      if exists i :: OccursAt(s, p, i) {
        var i :| OccursAt(s, p, i);
        if i > 0 {
          assert s[1..][i - 1..i - 1 + |p|] == s[i..i + |p|];
          assert OccursAt(s[1..], p, i - 1);
        }
      }
    } else if exists i :: OccursAt(s, p, i) {
      var i :| OccursAt(s, p, i);
      assert StartsWith(s, p);
    }
  }

  /** Number of entries of `words` that occur in `text` (each listed word counts once). */
  function CountHits(words: seq<string>, text: string): (n: nat)
    ensures n <= |words|
  {
    if words == [] then 0
    else (if Contains(text, words[0]) then 1 else 0) + CountHits(words[1..], text)
  }

  /** Python's `any(w in text for w in words)`. */
  predicate AnyHit(words: seq<string>, text: string)
  {
    exists i :: 0 <= i < |words| && Contains(text, words[i])
  }

  /** No hit at all gives a count of zero, and at least one hit a positive count. */
  lemma {:induction false} CountHitsPositive(words: seq<string>, text: string)
    ensures CountHits(words, text) > 0 <==> AnyHit(words, text)
    decreases |words|
  {
    if words != [] {
      CountHitsPositive(words[1..], text);
      if AnyHit(words[1..], text) {
        var i :| 0 <= i < |words[1..]| && Contains(text, words[1..][i]);
        assert Contains(text, words[i + 1]);
      }
      if AnyHit(words, text) && !Contains(text, words[0]) {
        var i :| 0 <= i < |words| && Contains(text, words[i]);
        assert Contains(text, words[1..][i - 1]);
      }
    }
  }

  /** The ASCII characters Python's `str.split()` treats as separators. */
  predicate IsSpace(c: char)
  {
    c == ' ' || 9 <= c as int <= 13 || 28 <= c as int <= 31
  }

  /** Length of the leading run of non-separator characters. */
  function TokenLength(s: string): (n: nat)
    ensures n <= |s|
    ensures forall i :: 0 <= i < n ==> !IsSpace(s[i])
    ensures n < |s| ==> IsSpace(s[n])
  {
    if s == [] || IsSpace(s[0]) then 0 else 1 + TokenLength(s[1..])
  }

  /** Python's `s.split()`: the maximal runs of non-separator characters, in order. */
  function Words(s: string): (ws: seq<string>)
    ensures forall i :: 0 <= i < |ws| ==> ws[i] != [] && forall j :: 0 <= j < |ws[i]| ==> !IsSpace(ws[i][j])
    decreases |s|
  {
    if s == [] then []
    else if IsSpace(s[0]) then Words(s[1..])
    else
      var n := TokenLength(s);
      [s[..n]] + Words(s[n..])
  }

  /** A text with no separator is one run. */
  lemma {:induction false} TokenLengthOfToken(s: string)
    requires forall i :: 0 <= i < |s| ==> !IsSpace(s[i])
    ensures TokenLength(s) == |s|
    decreases |s|
  {
    if s != [] {
      TokenLengthOfToken(s[1..]);
    }
  }

  /** Splitting a text with no separator and at least one character gives that text as the only word. */
  lemma WordsOfToken(s: string)
    requires s != [] && forall i :: 0 <= i < |s| ==> !IsSpace(s[i])
    ensures Words(s) == [s]
  {
    TokenLengthOfToken(s);
    assert s[..|s|] == s && s[|s|..] == [];
  }

  /** A text made only of separators has no words. */
  lemma {:induction false} WordsOfSpaces(s: string)
    requires forall i :: 0 <= i < |s| ==> IsSpace(s[i])
    ensures Words(s) == []
    decreases |s|
  {
    if s != [] {
      WordsOfSpaces(s[1..]);
    }
  }

  /** The leading run is not changed by what follows a separator. */
  lemma TokenLengthBeforeSpace(a: string, t: string)
    requires t != [] && IsSpace(t[0])
    ensures TokenLength(a + t) == TokenLength(a)
  {
    var s := a + t;
    assert forall i :: 0 <= i < |a| ==> s[i] == a[i];
    assert s[|a|] == t[0];
  }

  /** A separator splits a text into the words before it followed by the words after it. */
  lemma {:induction false} WordsSplitAtSpace(a: string, c: char, b: string)
    requires IsSpace(c)
    ensures Words(a + [c] + b) == Words(a) + Words(b)
    decreases |a|
  {
    var s := a + [c] + b;
    if a == [] {
      assert s[1..] == b;
    } else if IsSpace(a[0]) {
      assert s[1..] == a[1..] + [c] + b;
      WordsSplitAtSpace(a[1..], c, b);
    } else {
      TokenLengthBeforeSpace(a, [c] + b);
      assert s == a + ([c] + b);
      var m := TokenLength(a);
      assert s[..m] == a[..m];
      assert s[m..] == a[m..] + [c] + b;
      WordsSplitAtSpace(a[m..], c, b);
    }
  }

  function DigitChar(d: nat): char
    requires d < 10
  {
    "0123456789"[d]
  }

  /** Decimal digits of a natural number, most significant first, without leading zeros. */
  function NatToDecimal(n: nat): (s: string)
    ensures s != []
    ensures forall i :: 0 <= i < |s| ==> '0' <= s[i] <= '9'
    ensures n >= 10 ==> |s| >= 2
    decreases n
  {
    if n < 10 then [DigitChar(n)] else NatToDecimal(n / 10) + [DigitChar(n % 10)]
  }

  /** Python's `str(i)` for an integer id: the key the engagement store is indexed by. */
  function IdKey(id: int): (r: string)
    ensures r != []
    ensures forall i :: 0 < i < |r| ==> '0' <= r[i] <= '9'
    ensures id >= 0 ==> '0' <= r[0] <= '9'
    ensures id < 0 ==> r[0] == '-'
  {
    if id < 0 then "-" + NatToDecimal(-id) else NatToDecimal(id)
  }

  lemma {:induction false} NatToDecimalInjective(a: nat, b: nat)
    requires NatToDecimal(a) == NatToDecimal(b)
    ensures a == b
    decreases a
  {
    var sa, sb := NatToDecimal(a), NatToDecimal(b);
    if a < 10 && b < 10 {
      assert sa[0] == DigitChar(a) && sb[0] == DigitChar(b);
    } else if a >= 10 && b >= 10 {
      assert sa[|sa| - 1] == DigitChar(a % 10) && sb[|sb| - 1] == DigitChar(b % 10);
      assert sa[..|sa| - 1] == NatToDecimal(a / 10);
      assert sb[..|sb| - 1] == NatToDecimal(b / 10);
      NatToDecimalInjective(a / 10, b / 10);
    }
  }

  /** A key starts with a minus sign exactly when the id is negative. */
  lemma IdKeySign(x: int)
    ensures IdKey(x) != [] && (IdKey(x)[0] == '-' <==> x < 0)
  {
    if x >= 0 {
      assert '0' <= NatToDecimal(x)[0] <= '9';
    }
  }

  /** Distinct ids have distinct keys, so writing one event's engagement record leaves every
      other event's record alone. */
  lemma IdKeyInjective(a: int, b: int)
    ensures IdKey(a) == IdKey(b) <==> a == b
  {
    if IdKey(a) == IdKey(b) {
      IdKeySign(a);
      IdKeySign(b);
      if a < 0 {
        assert b < 0;
        assert NatToDecimal(-a) == IdKey(a)[1..] == IdKey(b)[1..] == NatToDecimal(-b);
        NatToDecimalInjective(-a, -b);
      } else {
        assert b >= 0;
        NatToDecimalInjective(a, b);
      }
    }
  }

  lemma IdKeyExamples()
    ensures IdKey(1) == "1" && IdKey(42) == "42" && IdKey(-7) == "-7"
  {
  }
}
