/** The clip vocabulary of the phrase compiler: every word the report can
    speak is one pre-recorded clip, named by a file name such as "20-.wav",
    "comma.wav" or "north-west.wav". Clips are modelled as a datatype and
    rendered to their file names by FileName. */
module Tokens {

  datatype Option<T> = None | Some(value: T)

  /** One clip. Num(n) is the terminal form "<n>.wav"; NumConn(n) is the
      connector form "<n>-.wav", spoken when more digits follow. */
  datatype Token =
    | Num(n: nat)
    | NumConn(n: nat)
    | Minus | Comma | Degrees | Ms | WindDir | WindSpeed
    | North | NorthEast | East | SouthEast | South | SouthWest | West | NorthWest

  predicate IsNumber(t: Token) {
    t.Num? || t.NumConn?
  }

  /** north, east, south, west */
  predicate IsCardinal(t: Token) {
    t == North || t == East || t == South || t == West
  }

  /** north-east, south-east, south-west, north-west */
  predicate IsIntercardinal(t: Token) {
    t == NorthEast || t == SouthEast || t == SouthWest || t == NorthWest
  }

  predicate IsCompass(t: Token) {
    IsCardinal(t) || IsIntercardinal(t)
  }

  /** The clips a voice directory is expected to hold: the numbers 0 to 20,
      the tens up to 100, the tens 20 to 90 and the hundreds 100 to 900 in
      connector form, and every named clip. */
  predicate InVocabulary(t: Token) {
    match t
    case Num(n) => n <= 20 || (n % 10 == 0 && n <= 100)
    case NumConn(n) => (n % 10 == 0 && 20 <= n <= 90) || (n % 100 == 0 && 100 <= n <= 900)
    case _ => true
  }

  /** Index of the first occurrence of t in ts, or |ts| when there is none. */
  function IndexOf(ts: seq<Token>, t: Token): (k: nat)
    ensures k <= |ts|
    ensures k < |ts| ==> ts[k] == t
    ensures forall j :: 0 <= j < k ==> ts[j] != t
  {
    if ts == [] then 0
    else if ts[0] == t then 0
    else 1 + IndexOf(ts[1..], t)
  }

  // ---------------------------------------------------------------------
  // Decimal rendering of naturals (what Python's str() gives for n >= 0)
  // ---------------------------------------------------------------------

  predicate IsDigit(c: char) {
    '0' <= c <= '9'
  }

  predicate AllDigits(s: string) {
    forall i :: 0 <= i < |s| ==> IsDigit(s[i])
  }

  function DigitChar(d: nat): (c: char)
    requires d < 10
    ensures IsDigit(c) && c as int - '0' as int == d
  {
    ('0' as int + d) as char
  }

  /** Decimal digits of n, most significant first, without leading zeros. */
  function NatToString(n: nat): (s: string)
    ensures |s| >= 1 && AllDigits(s)
    ensures |s| > 1 ==> s[0] != '0'
  {
    if n < 10 then [DigitChar(n)] else NatToString(n / 10) + [DigitChar(n % 10)]
  }

  function ParseNat(s: string): nat
    requires AllDigits(s)
  {
    if s == [] then 0 else ParseNat(s[..|s| - 1]) * 10 + (s[|s| - 1] as int - '0' as int)
  }

  lemma {:induction false} ParseNatString(n: nat)
    ensures ParseNat(NatToString(n)) == n
  {
    if n >= 10 {
      var s := NatToString(n);
      assert s[..|s| - 1] == NatToString(n / 10);
      ParseNatString(n / 10);
    }
  }

  // ---------------------------------------------------------------------
  // File names
  // ---------------------------------------------------------------------

  /** The file name without its ".wav" extension. */
  function Stem(t: Token): string {
    match t
    case Num(n) => NatToString(n)
    case NumConn(n) => NatToString(n) + "-"
    case Minus => "minus"
    case Comma => "comma"
    case Degrees => "degrees"
    case Ms => "ms"
    case WindDir => "winddir"
    case WindSpeed => "windspeed"
    case North => "north"
    case NorthEast => "north-east"
    case East => "east"
    case SouthEast => "south-east"
    case South => "south"
    case SouthWest => "south-west"
    case West => "west"
    case NorthWest => "north-west"
  }

  /** The clip's file name inside a voice directory. */
  function FileName(t: Token): (name: string)
    ensures |name| >= 5 && name[|name| - 4..] == ".wav"
    ensures IsDigit(name[0]) <==> IsNumber(t)
    ensures name[|name| - 5] == '-' <==> t.NumConn?
  {
    StemShape(t);
    Stem(t) + ".wav"
  }

  /** Stems are nonempty; number stems, and only they, start with a digit,
      and connector stems, and only they, end in "-". */
  lemma StemShape(t: Token)
    ensures |Stem(t)| >= 1
    ensures IsDigit(Stem(t)[0]) <==> IsNumber(t)
    ensures Stem(t)[|Stem(t)| - 1] == '-' <==> t.NumConn?
  {
  }

  function FileNames(ts: seq<Token>): (names: seq<string>)
    ensures |names| == |ts|
    ensures forall i :: 0 <= i < |ts| ==> names[i] == FileName(ts[i])
  {
    if ts == [] then [] else [FileName(ts[0])] + FileNames(ts[1..])
  }

  /** File names are taken clip by clip, in order. */
  lemma {:induction false} FileNamesAppend(a: seq<Token>, b: seq<Token>)
    ensures FileNames(a + b) == FileNames(a) + FileNames(b)
  {
    if a != [] {
      assert (a + b)[1..] == a[1..] + b;
      FileNamesAppend(a[1..], b);
    }
  }

  /** Number stems start with a digit; every named stem starts with a letter. */
  function ParseStem(stem: string): Option<Token> {
    if |stem| >= 1 && IsDigit(stem[0]) then
      if stem[|stem| - 1] == '-' && AllDigits(stem[..|stem| - 1]) then
        Some(NumConn(ParseNat(stem[..|stem| - 1])))
      else if AllDigits(stem) then Some(Num(ParseNat(stem)))
      else None
    else if stem == "minus" then Some(Minus)
    else if stem == "comma" then Some(Comma)
    else if stem == "degrees" then Some(Degrees)
    else if stem == "ms" then Some(Ms)
    else if stem == "winddir" then Some(WindDir)
    else if stem == "windspeed" then Some(WindSpeed)
    else if stem == "north" then Some(North)
    else if stem == "north-east" then Some(NorthEast)
    else if stem == "east" then Some(East)
    else if stem == "south-east" then Some(SouthEast)
    else if stem == "south" then Some(South)
    else if stem == "south-west" then Some(SouthWest)
    else if stem == "west" then Some(West)
    else if stem == "north-west" then Some(NorthWest)
    else None
  }

  /** Reads a file name back as the clip it names. */
  function ParseFileName(name: string): Option<Token> {
    if |name| >= 4 && name[|name| - 4..] == ".wav" then ParseStem(name[..|name| - 4]) else None
  }

  lemma DigitsAreNotNamed(s: string)
    requires |s| >= 1 && AllDigits(s)
    ensures ParseStem(s) == Some(Num(ParseNat(s)))
  {
    assert IsDigit(s[0]);
    assert s[|s| - 1] != '-';
  }

  lemma ConnectorIsNotNamed(s: string)
    requires |s| >= 1 && AllDigits(s)
    ensures ParseStem(s + "-") == Some(NumConn(ParseNat(s)))
  {
    var t := s + "-";
    assert IsDigit(t[0]);
    assert t[..|t| - 1] == s;
  }

  /** Every file name reads back as the clip it was rendered from. */
  lemma StemRoundTrip(t: Token)
    ensures ParseStem(Stem(t)) == Some(t)
  {
    match t
    case Num(n) =>
      DigitsAreNotNamed(NatToString(n));
      ParseNatString(n);
    case NumConn(n) =>
      ConnectorIsNotNamed(NatToString(n));
      ParseNatString(n);
    case _ =>
  }

  lemma FileNameRoundTrip(t: Token)
    ensures ParseFileName(FileName(t)) == Some(t)
  {
    var name := FileName(t);
    assert name[..|name| - 4] == Stem(t);
    assert name[|name| - 4..] == ".wav";
    StemRoundTrip(t);
  }

  /** Distinct clips have distinct file names. */
  lemma FileNameInjective(a: Token, b: Token)
    ensures FileName(a) == FileName(b) ==> a == b
  {
    FileNameRoundTrip(a);
    FileNameRoundTrip(b);
  }
}
