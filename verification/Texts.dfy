/** Decimal numbers and separated lists in text.

    The pairing payload is built from them: a host is four decimal numbers between dots, the
    query is three fields between ampersands. Printing and reading either is shown to be
    inverse on the canonical texts. */
module Texts {
  import opened Numbers
  import opened Text

  // ----- decimal numbers -----

  function Digit(d: nat): char
    requires d < 10
  {
    '0' + d as char
  }

  function DigitValue(c: char): nat
    requires IsDigit(c)
  {
    (c - '0') as int
  }

  /** The decimal text of `n`, without leading zeros. */
  function Decimal(n: nat): (text: string)
    ensures text != "" && forall c <- text :: IsDigit(c)
  {
    if n < 10 then [Digit(n)] else Decimal(n / 10) + [Digit(n % 10)]
  }

  function DecimalValue(text: string): nat
    requires forall c <- text :: IsDigit(c)
  {
    if text == "" then 0 else 10 * DecimalValue(text[..|text| - 1]) + DigitValue(text[|text| - 1])
  }

  /** Digits without a leading zero, or a single digit. */
  predicate IsCanonical(text: string) {
    text != "" && (forall c <- text :: IsDigit(c)) && (|text| == 1 || text[0] != '0')
  }

  lemma {:induction false} DecimalIsCanonical(n: nat)
    ensures IsCanonical(Decimal(n)) && DecimalValue(Decimal(n)) == n
    ensures Decimal(n)[0] == '0' <==> n == 0
  {
    if n >= 10 {
      DecimalIsCanonical(n / 10);
      assert Decimal(n)[..|Decimal(n)| - 1] == Decimal(n / 10);
    } else {
      assert [Digit(n)][..0] == "";
    }
  }

  /** A canonical text is the decimal text of its value. */
  lemma {:induction false} CanonicalIsDecimal(text: string)
    requires IsCanonical(text)
    ensures Decimal(DecimalValue(text)) == text
    ensures text[0] != '0' ==> DecimalValue(text) > 0
  {
    var n := |text| - 1;
    var front := text[..n];
    assert text == front + [text[n]];
    assert DecimalValue(text) == 10 * DecimalValue(front) + DigitValue(text[n]);
    if n > 0 {
      CanonicalIsDecimal(front);
    }
  }

  /** As long as the number has digits. */
  lemma {:induction false} DecimalLength(n: nat, k: nat)
    requires k > 0
    ensures |Decimal(n)| <= k <==> n < Power10(k)
  {
    if n >= 10 {
      if k > 1 {
        DecimalLength(n / 10, k - 1);
      }
    } else {
      PowerGrows(k);
    }
  }

  function Power10(k: nat): nat { if k == 0 then 1 else 10 * Power10(k - 1) }

  lemma {:induction false} PowerGrows(k: nat)
    requires k > 0
    ensures Power10(k) >= 10
  {
    if k > 1 {
      PowerGrows(k - 1);
    }
  }

  /** `String.toIntOrNull` on a text of digits: a 32-bit value or nothing. */
  function ToInt(text: string): Option<nat> {
    if text == "" || exists c <- text :: !IsDigit(c) then None
    else if DecimalValue(text) < HALF_U32 then Some(DecimalValue(text)) else None
  }

  // ----- separated lists -----

  function IndexOf(s: string, c: char): (i: nat)
    ensures i <= |s| && c !in s[..i] && (i < |s| ==> s[i] == c)
  {
    if s == "" || s[0] == c then 0 else 1 + IndexOf(s[1..], c)
  }

  /** The parts of `s` between the separators. */
  function Split(s: string, c: char): (parts: seq<string>)
    ensures parts != []
    decreases |s|
  {
    var i := IndexOf(s, c);
    if i == |s| then [s] else [s[..i]] + Split(s[i + 1..], c)
  }

  function Join(parts: seq<string>, c: char): string
    requires parts != []
  {
    if |parts| == 1 then parts[0] else parts[0] + [c] + Join(parts[1..], c)
  }

  lemma JoinThree(x: string, y: string, z: string, c: char)
    ensures Join([x, y, z], c) == x + [c] + y + [c] + z
  {
    assert [x, y, z][1..] == [y, z] && [y, z][1..] == [z];
    assert Join([y, z], c) == y + [c] + z;
  }

  lemma JoinFour(w: string, x: string, y: string, z: string, c: char)
    ensures Join([w, x, y, z], c) == w + [c] + x + [c] + y + [c] + z
  {
    assert [w, x, y, z][1..] == [x, y, z];
    JoinThree(x, y, z, c);
  }

  function Count(s: string, c: char): nat {
    if s == "" then 0 else (if s[0] == c then 1 else 0) + Count(s[1..], c)
  }

  lemma {:induction false} JoinInvertsSplit(s: string, c: char)
    ensures Join(Split(s, c), c) == s
    ensures forall p <- Split(s, c) :: c !in p
    decreases |s|
  {
    var i := IndexOf(s, c);
    if i < |s| {
      JoinInvertsSplit(s[i + 1..], c);
      assert Split(s, c)[1..] == Split(s[i + 1..], c);
      assert s == s[..i] + [c] + s[i + 1..];
    } else {
      assert s[..i] == s;
    }
  }

  lemma {:induction false} IndexAfter(first: string, rest: string, c: char)
    requires c !in first
    ensures IndexOf(first, c) == |first| && IndexOf(first + [c] + rest, c) == |first|
  {
    var s := first + [c] + rest;
    if first == "" {
      assert s[0] == c;
    } else {
      IndexAfter(first[1..], rest, c);
      assert s[1..] == first[1..] + [c] + rest && s[0] == first[0];
    }
  }

  lemma {:induction false} SplitInvertsJoin(parts: seq<string>, c: char)
    requires parts != [] && forall p <- parts :: c !in p
    ensures Split(Join(parts, c), c) == parts
  {
    var first := parts[0];
    assert first in parts;
    if |parts| == 1 {
      IndexAfter(first, "", c);
    } else {
      var rest := Join(parts[1..], c);
      SplitInvertsJoin(parts[1..], c);
      IndexAfter(first, rest, c);
      assert (first + [c] + rest)[..|first|] == first && (first + [c] + rest)[|first| + 1..] == rest;
    }
  }

  lemma {:induction false} CountConcat(a: string, b: string, c: char)
    ensures Count(a + b, c) == Count(a, c) + Count(b, c)
  {
    if a == "" {
      assert a + b == b;
    } else {
      assert (a + b)[1..] == a[1..] + b;
      CountConcat(a[1..], b, c);
    }
  }

  lemma {:induction false} CountNone(s: string, c: char)
    requires c !in s
    ensures Count(s, c) == 0
  {
    if s != "" {
      CountNone(s[1..], c);
    }
  }

  lemma {:induction false} SplitCounts(s: string, c: char)
    ensures |Split(s, c)| == Count(s, c) + 1
    decreases |s|
  {
    var i := IndexOf(s, c);
    if i < |s| {
      SplitCounts(s[i + 1..], c);
      assert s == s[..i] + ([c] + s[i + 1..]);
      CountConcat(s[..i], [c] + s[i + 1..], c);
      CountNone(s[..i], c);
      assert ([c] + s[i + 1..])[1..] == s[i + 1..];
    } else {
      assert s[..i] == s;
      CountNone(s, c);
    }
  }
}
