/** The clip list that generateWave in windspeak.py hands to the audio
    joiner: "winddir", the compass point, the bearing in degrees,
    "windspeed", the speed and "ms", in that order. */
module Report {
  import opened Tokens
  import opened PyNum
  import opened Numbers
  import opened Compass

  /** The clips of one report for a reading of wind direction windDir
      (degrees) and wind speed windSpeed (m/s). It opens with "winddir" and
      closes with "ms", and neither occurs anywhere else. */
  function GenerateWave(windDir: real, windSpeed: real): (r: seq<Token>)
    ensures 7 <= |r| <= 17
    ensures r[0] == WindDir && WindDir !in r[1..]
    ensures r[|r| - 1] == Ms && Ms !in r[..|r| - 1]
  {
    var c, d, n := CompassToWav(windDir), DegreesToWav(windDir), NumToWav(windSpeed);
    PartsAreInner(c, d, n);
    Framed(WindDir, c + d + [WindSpeed] + n, Ms);
    [WindDir] + (c + d + [WindSpeed] + n) + [Ms]
  }

  /** Neither "winddir" nor "ms" is among the compass, degree and speed clips. */
  lemma PartsAreInner(c: seq<Token>, d: seq<Token>, n: seq<Token>)
    requires forall k :: 0 <= k < |c| ==> IsCompass(c[k])
    requires |d| >= 1 && d[|d| - 1] == Degrees
    requires forall k :: 0 <= k < |d| - 1 ==> IsNumber(d[k]) || d[k] == Minus
    requires forall k :: 0 <= k < |n| ==> IsNumber(n[k]) || n[k] == Minus || n[k] == Comma
    ensures WindDir !in c + d + [WindSpeed] + n && Ms !in c + d + [WindSpeed] + n
  {
    assert forall k :: 0 <= k < |c| ==> c[k] != WindDir && c[k] != Ms;
    assert forall k :: 0 <= k < |d| ==> d[k] != WindDir && d[k] != Ms;
    assert forall k :: 0 <= k < |n| ==> n[k] != WindDir && n[k] != Ms;
  }

  lemma Framed(a: Token, mid: seq<Token>, b: Token)
    requires a !in mid && b !in mid && a != b
    ensures var r := [a] + mid + [b];
      r[0] == a && a !in r[1..] && r[|r| - 1] == b && b !in r[..|r| - 1]
  {
    var r := [a] + mid + [b];
    assert r[1..] == mid + [b];
    assert r[..|r| - 1] == [a] + mid;
  }

  /** What a report encodes: the compass clips, the number of degrees and
      the speed as ReadDecimal reads it (integer part plus digit tenths). */
  datatype Heard = Heard(point: seq<Token>, degrees: int, speed: real)

  /** Number of leading compass clips. */
  function CompassPrefix(ts: seq<Token>): (k: nat)
    ensures k <= |ts|
    ensures forall j :: 0 <= j < k ==> IsCompass(ts[j])
    ensures k < |ts| ==> !IsCompass(ts[k])
  {
    if ts != [] && IsCompass(ts[0]) then 1 + CompassPrefix(ts[1..]) else 0
  }

  /** The direction half of a report: compass clips, then a number phrase
      closed by "degrees". */
  function ReadDirection(front: seq<Token>): Option<(seq<Token>, int)> {
    var c := CompassPrefix(front);
    if c == |front| || front[|front| - 1] != Degrees then None
    else Some((front[..c], Value(front[c..|front| - 1])))
  }

  /** Decodes a report: between "winddir" and "windspeed" the direction,
      between "windspeed" and the final "ms" a decimal. None when the clips
      are not laid out that way. */
  function ReadReport(ts: seq<Token>): Option<Heard> {
    if |ts| < 2 || ts[0] != WindDir || ts[|ts| - 1] != Ms then None
    else
      var body := ts[1..|ts| - 1];
      var w := IndexOf(body, WindSpeed);
      if w == |body| then None
      else match ReadDirection(body[..w])
        case None => None
        case Some((point, degrees)) => Some(Heard(point, degrees, ReadDecimal(body[w + 1..])))
  }

  lemma ReadDirectionOfParts(c: seq<Token>, d: seq<Token>)
    requires forall k :: 0 <= k < |c| ==> IsCompass(c[k])
    requires |d| >= 2 && d[|d| - 1] == Degrees
    requires IsNumber(d[0]) || d[0] == Minus
    ensures ReadDirection(c + d) == Some((c, Value(d[..|d| - 1])))
  {
    var front := c + d;
    assert front[|c|] == d[0];
    var k := CompassPrefix(front);
    assert k == |c|;
    assert front[..k] == c;
    assert front[k..|front| - 1] == d[..|d| - 1];
  }

  lemma SplitAtWindSpeed(front: seq<Token>, n: seq<Token>)
    requires WindSpeed !in front
    ensures var body := front + [WindSpeed] + n;
      IndexOf(body, WindSpeed) == |front| && body[..|front|] == front && body[|front| + 1..] == n
  {
    var body := front + [WindSpeed] + n;
    assert body[|front|] == WindSpeed;
    assert forall j :: 0 <= j < |front| ==> body[j] == front[j];
    assert body[..|front|] == front;
    assert body[|front| + 1..] == n;
  }

  /** Any report laid out as generateWave lays it out reads back as its
      parts: the compass clips, the value of the degree phrase and the
      reading of the speed phrase. */
  lemma ReadReportOfParts(c: seq<Token>, d: seq<Token>, n: seq<Token>)
    requires forall k :: 0 <= k < |c| ==> IsCompass(c[k])
    requires |d| >= 2 && d[|d| - 1] == Degrees
    requires forall k :: 0 <= k < |d| - 1 ==> IsNumber(d[k]) || d[k] == Minus
    ensures ReadReport([WindDir] + (c + d + [WindSpeed] + n) + [Ms]) ==
      Some(Heard(c, Value(d[..|d| - 1]), ReadDecimal(n)))
  {
    var body := c + d + [WindSpeed] + n;
    var ts := [WindDir] + body + [Ms];
    assert ts[1..|ts| - 1] == body;
    assert WindSpeed !in c + d by {
      assert forall k :: 0 <= k < |c + d| ==> (c + d)[k] != WindSpeed;
    }
    SplitAtWindSpeed(c + d, n);
    ReadDirectionOfParts(c, d);
  }

  /** Every report reads back as the compass point of the bearing, the
      truncated bearing and the speed to one rounded decimal, which is
      within 0.05 m/s of the reading. */
  lemma ReportReadBack(windDir: real, windSpeed: real)
    ensures ReadReport(GenerateWave(windDir, windSpeed)).Some?
    ensures ReadReport(GenerateWave(windDir, windSpeed)).value.point == CompassToWav(windDir)
    ensures ReadReport(GenerateWave(windDir, windSpeed)).value.degrees == Trunc(windDir)
    ensures ReadReport(GenerateWave(windDir, windSpeed)).value.speed ==
      Trunc(windSpeed) as real + FracDigit(windSpeed) as real / 10.0
    ensures -0.05 <= windSpeed - ReadReport(GenerateWave(windDir, windSpeed)).value.speed <= 0.05
  {
    var c, d, n := CompassToWav(windDir), DegreesToWav(windDir), NumToWav(windSpeed);
    ReadReportOfParts(c, d, n);
    NumToWavReadBack(windSpeed);
  }

  predicate AllInVocabulary(ts: seq<Token>) {
    forall k :: 0 <= k < |ts| ==> InVocabulary(ts[k])
  }

  lemma {:induction false} AppendInVocabulary(a: seq<Token>, b: seq<Token>)
    requires AllInVocabulary(a) && AllInVocabulary(b)
    ensures AllInVocabulary(a + b)
  {
    assert forall k :: 0 <= k < |a + b| ==> (a + b)[k] == if k < |a| then a[k] else b[k - |a|];
  }

  /** A degree phrase of a bearing in (-1000, 1000) uses only voice clips. */
  lemma DegreesInVocabulary(windDir: real)
    requires -1000.0 < windDir < 1000.0
    ensures AllInVocabulary(DegreesToWav(windDir))
  {
    var i := Trunc(windDir);
    IntToWavInVocabulary(i);
    AppendInVocabulary(IntToWav(i), [Degrees]);
  }

  /** A speed phrase of a speed in (-1000, 1000) uses only voice clips. */
  lemma SpeedInVocabulary(windSpeed: real)
    requires -1000.0 < windSpeed < 1000.0
    ensures AllInVocabulary(NumToWav(windSpeed))
  {
    var i, f := Trunc(windSpeed), FracDigit(windSpeed);
    IntToWavInVocabulary(i);
    IntToWavInVocabulary(f);
    if f != 0 {
      AppendInVocabulary([Comma], IntToWav(f));
      AppendInVocabulary(IntToWav(i), [Comma] + IntToWav(f));
    } else {
      assert NumToWav(windSpeed) == IntToWav(i);
    }
  }

  /** For readings with direction and speed within (-1000, 1000), every clip
      of the report is one a voice directory holds. */
  lemma ReportInVocabulary(windDir: real, windSpeed: real)
    requires -1000.0 < windDir < 1000.0 && -1000.0 < windSpeed < 1000.0
    ensures AllInVocabulary(GenerateWave(windDir, windSpeed))
  {
    var c, d, n := CompassToWav(windDir), DegreesToWav(windDir), NumToWav(windSpeed);
    DegreesInVocabulary(windDir);
    SpeedInVocabulary(windSpeed);
    assert AllInVocabulary(c);
    PartsInVocabulary(c, d, n);
  }

  lemma PartsInVocabulary(c: seq<Token>, d: seq<Token>, n: seq<Token>)
    requires AllInVocabulary(c) && AllInVocabulary(d) && AllInVocabulary(n)
    ensures AllInVocabulary([WindDir] + (c + d + [WindSpeed] + n) + [Ms])
  {
    AppendInVocabulary(c, d);
    AppendInVocabulary(c + d, [WindSpeed]);
    AppendInVocabulary(c + d + [WindSpeed], n);
    AppendInVocabulary([WindDir], c + d + [WindSpeed] + n);
    AppendInVocabulary([WindDir] + (c + d + [WindSpeed] + n), [Ms]);
  }
}
