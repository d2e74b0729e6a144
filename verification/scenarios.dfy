/** Worked readings: the clip lists windspeak.py produces for particular
    numbers, bearings and one whole report, down to the file names. */
module Scenarios {
  import opened Tokens
  import opened Numbers
  import opened Compass
  import opened Report
  import opened PyNum

  lemma IntToWavExamples()
    ensures IntToWav(0) == [Num(0)] && IntToWav(20) == [Num(20)]
    ensures IntToWav(21) == [NumConn(20), Num(1)]
    ensures IntToWav(100) == [Num(100)]
    ensures IntToWav(105) == [NumConn(100), Num(5)]
    ensures IntToWav(200) == [NumConn(200), Num(0)]
  {
  }

  /** A negative integer is "minus" then the clips of its magnitude, so
      below zero a two-digit number takes three clips. */
  lemma NegativeIntExamples()
    ensures IntToWav(-5) == [Minus, Num(5)]
    ensures IntToWav(-99) == [Minus, NumConn(90), Num(9)]
  {
  }

  lemma NumToWavExamples()
    ensures NumToWav(3.7) == [Num(3), Comma, Num(7)]
    ensures NumToWav(4.0) == [Num(4)]
    ensures NumToWav(3.96) == [Num(3), Comma, Num(10)]
    ensures NumToWav(-3.7) == [Minus, Num(3), Comma, Minus, Num(7)]
  {
    assert FracDigit(3.7) == 7;
    assert FracDigit(3.96) == 10;
    assert FracDigit(-3.7) == -7;
  }

  /** A negative speed: "minus" goes on each nonzero part. */
  lemma NegativeSpeedExamples()
    ensures NumToWav(-0.5) == [Num(0), Comma, Minus, Num(5)]
    ensures NumToWav(-3.04) == [Minus, Num(3)]
    ensures NumToWav(-3.0) == [Minus, Num(3)]
  {
    assert Trunc(-0.5) == 0 && FracDigit(-0.5) == -5;
    assert Trunc(-3.04) == -3 && FracDigit(-3.04) == 0;
    assert Trunc(-3.0) == -3 && FracDigit(-3.0) == 0;
  }

  lemma CompassExamples()
    ensures CompassToWav(0.0) == [North]
    ensures CompassToWav(337.5) == [North, NorthWest]
    ensures CompassToWav(348.75) == [North, NorthWest]
    ensures CompassToWav(348.76) == [North]
    ensures CompassToWav(-10.0) == [North]
  {
  }

  /** The reading 10 degrees, 3.7 m/s. */
  lemma ReportExample()
    ensures GenerateWave(10.0, 3.7) ==
      [WindDir, North, Num(10), Degrees, WindSpeed, Num(3), Comma, Num(7), Ms]
  {
    var windDir, windSpeed := 10.0, 3.7;
    var c, d, n := CompassToWav(windDir), DegreesToWav(windDir), NumToWav(windSpeed);
    assert c == [North];
    assert d == [Num(10), Degrees] by { assert Trunc(windDir) == 10; }
    assert n == [Num(3), Comma, Num(7)] by { assert FracDigit(windSpeed) == 7; }
    assert GenerateWave(windDir, windSpeed) == [WindDir] + (c + d + [WindSpeed] + n) + [Ms];
  }

  lemma DegreesExample()
    ensures DegreesToWav(10.0) == [Num(10), Degrees]
    ensures DegreesToWav(359.9) == [NumConn(300), NumConn(50), Num(9), Degrees]
  {
    assert Trunc(10.0) == 10;
    assert Trunc(359.9) == 359;
  }

  /** ... and the file names the audio joiner opens for it, in order. */
  lemma ReportFileNamesExample()
    ensures var names := FileNames(GenerateWave(10.0, 3.7));
      && |names| == 9
      && names[0] == "winddir.wav" && names[1] == "north.wav" && names[2] == "10.wav"
      && names[3] == "degrees.wav" && names[4] == "windspeed.wav" && names[5] == "3.wav"
      && names[6] == "comma.wav" && names[7] == "7.wav" && names[8] == "ms.wav"
  {
    ReportExample();
    ReportNames([WindDir, North, Num(10), Degrees, WindSpeed, Num(3), Comma, Num(7), Ms]);
  }

  lemma ReportNames(ts: seq<Token>)
    requires ts == [WindDir, North, Num(10), Degrees, WindSpeed, Num(3), Comma, Num(7), Ms]
    ensures var names := FileNames(ts);
      && |names| == 9
      && names[0] == "winddir.wav" && names[1] == "north.wav" && names[2] == "10.wav"
      && names[3] == "degrees.wav" && names[4] == "windspeed.wav" && names[5] == "3.wav"
      && names[6] == "comma.wav" && names[7] == "7.wav" && names[8] == "ms.wav"
  {
    NamedExamples();
    NumberExamples();
  }

  /** The named clips of the 10 degrees, 3.7 m/s report. */
  lemma NamedExamples()
    ensures FileName(WindDir) == "winddir.wav" && FileName(North) == "north.wav"
    ensures FileName(Degrees) == "degrees.wav" && FileName(WindSpeed) == "windspeed.wav"
    ensures FileName(Comma) == "comma.wav" && FileName(Ms) == "ms.wav"
  {
    FramingNames();
    PhraseNames();
  }

  lemma FramingNames()
    ensures FileName(WindDir) == "winddir.wav" && FileName(WindSpeed) == "windspeed.wav"
    ensures FileName(Ms) == "ms.wav"
  {
  }

  lemma PhraseNames()
    ensures FileName(North) == "north.wav" && FileName(Degrees) == "degrees.wav"
    ensures FileName(Comma) == "comma.wav"
  {
  }

  lemma NumberExamples()
    ensures FileName(Num(10)) == "10.wav" && FileName(Num(3)) == "3.wav" && FileName(Num(7)) == "7.wav"
  {
    assert NatToString(10) == "10";
  }

  /** The connector and terminal forms render as windspeak.py names them. */
  lemma FileNameExamples()
    ensures FileName(NumConn(20)) == "20-.wav"
    ensures FileName(Num(100)) == "100.wav"
    ensures FileName(NumConn(200)) == "200-.wav"
    ensures FileName(NorthWest) == "north-west.wav"
  {
    ConnectorNames();
    TerminalNames();
  }

  lemma TerminalNames()
    ensures FileName(Num(100)) == "100.wav"
    ensures FileName(NorthWest) == "north-west.wav"
  {
    assert NatToString(10) == "10";
    assert NatToString(100) == "100";
  }

  lemma ConnectorNames()
    ensures FileName(NumConn(20)) == "20-.wav"
    ensures FileName(NumConn(200)) == "200-.wav"
  {
    assert NatToString(2) == "2";
    assert NatToString(20) == "20";
    assert NatToString(200) == "200";
  }
}
