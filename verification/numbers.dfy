/** Spoken numbers: intToWav, numToWav and degreesToWav of windspeak.py.
    An integer is spoken as an optional "minus", then connector clips
    ("300-", "20-") and one terminal clip; a decimal adds "comma" and one
    rounded fractional digit; a bearing adds "degrees". */
module Numbers {
  import opened Tokens
  import opened PyNum

  // ---------------------------------------------------------------------
  // intToWav
  // ---------------------------------------------------------------------

  /** The clips for the integer n. The first clip is "minus" exactly when n
      is negative, every clip before the last is a connector, and the last
      is a terminal number clip, so a phrase never ends on a connector. */
  function IntToWav(n: int): (r: seq<Token>)
    ensures 1 <= |r| <= 4
    ensures 0 <= n ==> |r| <= 3
    ensures 0 <= n < 100 ==> |r| <= 2
    ensures 0 <= n <= 20 ==> |r| == 1
    ensures r[0] == Minus <==> n < 0
    ensures r[|r| - 1].Num?
    ensures forall i :: 0 <= i < |r| - 1 ==> r[i].NumConn? || (i == 0 && r[i] == Minus)
    decreases if n < 0 then -n else n, if n < 0 then 1 else 0
  {
    if n < 0 then [Minus] + IntToWav(-n)
    else if n <= 20 then [Num(n)]
    else if n > 100 then [NumConn(n / 100 * 100)] + IntToWav(n % 100)
    // Here 20 < n <= 100, so the source's test n > 10 always holds and its
    // fall-through (an empty list) cannot be reached.
    else if n % 10 != 0 then [NumConn(n / 10 * 10)] + IntToWav(n % 10)
    else [Num(n / 10 * 10)]
  }

  /** What a listener hears in a number phrase: "minus" negates what
      follows, every number clip adds its value. Other clips add nothing. */
  function Value(ts: seq<Token>): int {
    if ts == [] then 0
    else match ts[0]
      case Minus => -Value(ts[1..])
      case Num(k) => k + Value(ts[1..])
      case NumConn(k) => k + Value(ts[1..])
      case _ => Value(ts[1..])
  }

  /** The decomposition is exact: the clips of n add up to n. */
  lemma {:induction false} IntToWavValue(n: int)
    ensures Value(IntToWav(n)) == n
    decreases if n < 0 then -n else n, if n < 0 then 1 else 0
  {
    var r := IntToWav(n);
    if n < 0 {
      IntToWavValue(-n);
      assert r[1..] == IntToWav(-n);
    } else if n <= 20 {
    } else if n > 100 {
      IntToWavValue(n % 100);
      assert r[1..] == IntToWav(n % 100);
    } else if n % 10 != 0 {
      IntToWavValue(n % 10);
      assert r[1..] == IntToWav(n % 10);
    } else {
      assert r[1..] == [];
    }
  }

  /** The branch rules of intToWav, each stated on the input alone. */
  lemma IntToWavCases(n: int)
    ensures n < 0 ==> IntToWav(n) == [Minus] + IntToWav(-n)
    ensures 0 <= n <= 20 ==> IntToWav(n) == [Num(n)]
    ensures 21 <= n <= 100 && n % 10 != 0 ==> IntToWav(n) == [NumConn(n / 10 * 10), Num(n % 10)]
    ensures 21 <= n <= 100 && n % 10 == 0 ==> IntToWav(n) == [Num(n)]
    ensures n > 100 ==> IntToWav(n) == [NumConn(n / 100 * 100)] + IntToWav(n % 100)
  {
  }

  /** A single terminal clip is spoken exactly for 0..20 and the round tens up to 100. */
  lemma SingleClipIff(n: int)
    ensures |IntToWav(n)| == 1 <==> 0 <= n <= 20 || (21 <= n <= 100 && n % 10 == 0)
  {
    IntToWavCases(n);
  }

  /** For |n| < 1000 every clip is one a voice directory holds. */
  lemma {:induction false} IntToWavInVocabulary(n: int)
    requires -1000 < n < 1000
    ensures forall i :: 0 <= i < |IntToWav(n)| ==> InVocabulary(IntToWav(n)[i])
    decreases if n < 0 then -n else n, if n < 0 then 1 else 0
  {
    var r := IntToWav(n);
    if n < 0 {
      IntToWavInVocabulary(-n);
      assert r[1..] == IntToWav(-n);
    } else if n <= 20 {
    } else if n > 100 {
      var h := n / 100;
      assert 1 <= h <= 9;
      assert (h * 100) % 100 == 0;
      IntToWavInVocabulary(n % 100);
      assert r[1..] == IntToWav(n % 100);
    } else if n % 10 != 0 {
      var t := n / 10;
      assert 2 <= t <= 9;
      assert (t * 10) % 10 == 0;
      IntToWavInVocabulary(n % 10);
      assert r[1..] == IntToWav(n % 10);
    } else {
      assert n / 10 * 10 == n;
    }
  }

  // ---------------------------------------------------------------------
  // numToWav
  // ---------------------------------------------------------------------

  /** The one spoken fractional digit: round((x - int(x)) * 10). It is at
      most 10 in size (10 when the fraction is .95 or more), has the sign
      of x, and integer part plus digit tenths is within 0.05 of x. */
  function FracDigit(x: real): (f: int)
    ensures -10 <= f <= 10
    ensures 0.0 <= x ==> 0 <= f
    ensures x <= 0.0 ==> f <= 0
    ensures -0.05 <= x - (Trunc(x) as real + f as real / 10.0) <= 0.05
  {
    Round((x - Trunc(x) as real) * 10.0)
  }

  /** The fractional digit is 10, and so is not a single decimal digit,
      exactly when the fraction of a non-negative x is .95 or more; for a
      negative x it is -10 exactly when the fraction is -.95 or below. */
  lemma FracDigitTen(x: real)
    ensures 0.0 <= x ==> (FracDigit(x) == 10 <==> x - Trunc(x) as real >= 0.95)
    ensures x < 0.0 ==> (FracDigit(x) == -10 <==> x - Trunc(x) as real <= -0.95)
  {
  }

  /** The clips for the decimal x: the integer part and, when the rounded
      fractional digit is not zero, "comma" and that digit. */
  function NumToWav(x: real): (r: seq<Token>)
    ensures Comma in r <==> FracDigit(x) != 0
    ensures forall j, k :: 0 <= j < k < |r| && r[j] == Comma ==> r[k] != Comma
    ensures 1 <= |r| <= 7
    ensures forall k :: 0 <= k < |r| ==> IsNumber(r[k]) || r[k] == Minus || r[k] == Comma
  {
    var i := Trunc(x);
    var f := FracDigit(x);
    IntToWav(i) + (if f != 0 then [Comma] + IntToWav(f) else [])
  }

  /** The value a decimal phrase encodes: the number before the first
      "comma", plus a tenth of the number after it. This is the pair
      (int(x), digit) numToWav speaks, not always how the phrase sounds: a
      digit of 10 ("3 comma 10" for 3.96) does not read as a one-digit
      decimal, and -0.5 is spoken "0 comma minus 5". */
  function ReadDecimal(ts: seq<Token>): real {
    var p := IndexOf(ts, Comma);
    if p == |ts| then Value(ts) as real
    else Value(ts[..p]) as real + Value(ts[p + 1..]) as real / 10.0
  }

  /** A phrase with no "comma" reads as its value; one with a single
      "comma" reads as the number before it plus a tenth of the one after. */
  lemma ReadDecimalSplit(a: seq<Token>, b: seq<Token>)
    requires Comma !in a && Comma !in b
    ensures ReadDecimal(a) == Value(a) as real
    ensures ReadDecimal(a + [Comma] + b) == Value(a) as real + Value(b) as real / 10.0
  {
    var r := a + [Comma] + b;
    assert r[|a|] == Comma;
    var p := IndexOf(r, Comma);
    assert forall k :: 0 <= k < |a| ==> r[k] == a[k];
    assert p == |a|;
    assert r[..p] == a;
    assert r[p + 1..] == b;
  }

  lemma NoComma(n: int)
    ensures Comma !in IntToWav(n)
  {
    var r := IntToWav(n);
    assert forall k :: 0 <= k < |r| ==> r[k] != Comma;
  }

  /** Integer part i and digit f, spoken as numToWav joins them, read back as i + f/10. */
  lemma ReadDecimalOfParts(i: int, f: int)
    ensures ReadDecimal(IntToWav(i)) == i as real
    ensures ReadDecimal(IntToWav(i) + [Comma] + IntToWav(f)) == i as real + f as real / 10.0
  {
    NoComma(i);
    NoComma(f);
    ReadDecimalSplit(IntToWav(i), IntToWav(f));
    IntToWavValue(i);
    IntToWavValue(f);
  }

  /** The spoken decimal reads back as int(x) plus the rounded digit in
      tenths, which is within 0.05 of x. */
  lemma NumToWavReadBack(x: real)
    ensures ReadDecimal(NumToWav(x)) == Trunc(x) as real + FracDigit(x) as real / 10.0
    ensures -0.05 <= x - ReadDecimal(NumToWav(x)) <= 0.05
  {
    var i, f := Trunc(x), FracDigit(x);
    ReadDecimalOfParts(i, f);
    NumToWavCases(x);
  }

  /** Where the fractional digit is zero the decimal is spoken as its
      integer part alone; otherwise as integer part, "comma", digit. */
  lemma NumToWavCases(x: real)
    ensures FracDigit(x) == 0 ==> NumToWav(x) == IntToWav(Trunc(x))
    ensures FracDigit(x) != 0 ==> NumToWav(x) == IntToWav(Trunc(x)) + [Comma] + IntToWav(FracDigit(x))
  {
  }

  // ---------------------------------------------------------------------
  // degreesToWav
  // ---------------------------------------------------------------------

  /** The clips for a bearing: int(deg) spoken as an integer, then
      "degrees", which is the last clip and occurs nowhere else; before it
      come only number clips and "minus", and they add up to int(deg). */
  function DegreesToWav(deg: real): (r: seq<Token>)
    ensures 2 <= |r| <= 5
    ensures r[|r| - 1] == Degrees && Degrees !in r[..|r| - 1]
    ensures forall k :: 0 <= k < |r| - 1 ==> IsNumber(r[k]) || r[k] == Minus
    ensures Value(r[..|r| - 1]) == Trunc(deg)
  {
    var n := Trunc(deg);
    IntToWavValue(n);
    IntToWavClips(n);
    PhraseThenClip(IntToWav(n), Degrees);
    IntToWav(n) + [Degrees]
  }

  /** Every clip of an integer phrase is a number clip or "minus". */
  lemma IntToWavClips(n: int)
    ensures forall k :: 0 <= k < |IntToWav(n)| ==> IsNumber(IntToWav(n)[k]) || IntToWav(n)[k] == Minus
  {
    var a := IntToWav(n);
    assert a[|a| - 1].Num?;
  }

  /** A number phrase followed by one more clip of another kind: the phrase
      is what precedes the clip, and the clip does not occur in it. */
  lemma PhraseThenClip(a: seq<Token>, t: Token)
    requires forall k :: 0 <= k < |a| ==> IsNumber(a[k]) || a[k] == Minus
    requires !IsNumber(t) && t != Minus
    ensures (a + [t])[..|a|] == a && t !in a
    ensures forall k :: 0 <= k < |a| ==> IsNumber((a + [t])[k]) || (a + [t])[k] == Minus
  {
    assert forall k :: 0 <= k < |a| ==> (a + [t])[k] == a[k];
  }
}
