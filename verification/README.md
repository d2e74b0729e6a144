# windspeak phrase compiler in Dafny

windspeak turns a wind reading into a spoken report by joining
pre-recorded word clips. A reading is a wind direction in degrees and a
speed in m/s. This project models the part that chooses the clips: the
functions of `windspeak.py` that turn the two numbers into the ordered list
of clip file names handed to the audio joiner.

- `Tokens` holds the clip vocabulary. The clips form a datatype: `Num(n)` is the
  terminal clip `"<n>.wav"` and `NumConn(n)` is the connector clip `"<n>-.wav"`,
  spoken when more digits follow. The named clips are `minus`, `comma`,
  `degrees`, `ms`, `winddir`, `windspeed` and the eight compass points.
  `FileName` renders a clip as its file name, with `str(n)` for the numbers.
  `ParseFileName` reads a name back, and the round trip shows the rendering
  is one-to-one.
- `PyNum` holds the two Python 2 conversions the compiler uses, over exact
  reals. `Trunc` is `int()` on a float, truncating toward zero. `Round` is
  `round()`, where halves round away from zero.
- `Numbers` holds `intToWav`, `numToWav` and `degreesToWav`. The partner of
  `IntToWav` is `Value`, what a listener hears: "minus" negates the rest and
  every number clip adds its value. The partner of `NumToWav` is
  `ReadDecimal`, the value the phrase encodes: the number before "comma" plus
  a tenth of the number after it.
- `Compass` holds `compassToWav`, a cascade of 16 strict `>` tests and a
  final else, where the first test and the else both give plain "north". Its partner is an arithmetic reference: `Sector` computes the
  rose point from the bearing, and `PointClips` gives that point's clips.
- `Report` holds the clip list built by `generateWave`. Its partner is
  `ReadReport`, which splits a report back into compass clips, degrees and
  speed.
- `Scenarios` holds worked readings. One is the reading 10°, 3.7 m/s:
  `winddir north 10 degrees windspeed 3 comma 7 ms`.

Behaviour of the code that the model keeps and proves:

- The integer decomposition never yields an empty list: `IntToWav`'s contract
  proves `1 <= |r| <= 4`. 100 takes the tens branch (`windspeak.py:57-63`)
  and gives `"100.wav"`. Once `n > 20`,
  `n <= 100` already implies the source's `n > 10` test, so its empty
  fall-through cannot be reached and the model leaves it out.
- 200 is spoken `"200-.wav", "0.wav"`, and 1000 is spoken `"1000-.wav", "0.wav"`.
  Neither `"0.wav"` after a hundreds connector nor `"1000-.wav"` matches how
  the numbers are normally said. `IntToWavInVocabulary` proves that every
  clip is in the voice's vocabulary only for `|n| < 1000`.
- A decimal x is spoken as int(x) and one rounded digit f, and
  int(x) + f/10 is within 0.05 of x (`NumToWavReadBack`). That bound is about
  the pair the phrase carries, not about how it sounds. For a fraction of .95
  or more f is 10 (`FracDigitTen`): 3.96 is spoken "3 comma 10", which does not
  read as a one-digit decimal. Both parts of a negative speed are negative,
  and each nonzero part gets its own "minus": -3.7 is spoken
  "minus 3 comma minus 7", -0.5 is spoken "0 comma minus 5", and -3.04 is
  spoken "minus 3" (`NegativeSpeedExamples`).
- The lowest compass boundary is 22.5, not 11.25. So plain "north" covers
  every bearing up to 22.5 (negative ones included) and every bearing above
  348.75, while north-north-east covers only (22.5, 33.75]. A bearing
  exactly on a boundary belongs to the sector below it.

## Model

| member | source | states |
|---|---|---|
| Numbers.IntToWav | windspeak.py:45-65 | The result has 1 to 4 clips (at most 3 for n >= 0, at most 2 for 0..99, exactly 1 for 0..20). The first clip is "minus" exactly when n < 0. Every clip before the last is a connector, except a leading "minus". The last clip is a terminal number, so a phrase never ends on a connector and "minus" appears nowhere but first |
| Numbers.IntToWavValue | windspeak.py:45-65 | Round trip: the clips of n, read as a number (minus negates, each number clip adds), give back n for every integer |
| Numbers.IntToWavCases | windspeak.py:47-63 | Each branch rule stated on the input. n < 0 gives "minus" then the clips of -n. 0..20 gives the single clip n. For 21..100, a nonzero unit digit gives the tens connector then the unit, and otherwise the single clip n (so 100 gives "100"). Above 100, the hundreds connector comes first, then the clips of n % 100 |
| Numbers.SingleClipIff | windspeak.py:50-63 | A single clip is spoken if and only if n is in 0..20 or is a round ten from 30 to 100 |
| Numbers.IntToWavInVocabulary | windspeak.py:45-65 | For -1000 < n < 1000, each clip is one of: a number 0..20, a ten up to 100, a tens connector 20..90, a hundreds connector 100..900, or "minus" |
| PyNum.Trunc | windspeak.py:70 | int() of a float truncates toward zero: for x >= 0 the result i satisfies i <= x < i + 1, and for x < 0 it satisfies i - 1 < x <= i, with the sign of x |
| PyNum.Round | windspeak.py:71 | Python 2 round(): the result is within 0.5 of x. A tie goes away from zero. The result has the sign of x |
| PyNum.RoundUnique | windspeak.py:71 | Round's contract fixes its result: any integer meeting it equals Round(x) |
| Numbers.FracDigit | windspeak.py:70-71 | The spoken decimal digit round((x - int(x)) * 10) is in -10..10, is in 0..10 for x >= 0 and has the sign of x. int(x) plus the digit in tenths is within 0.05 of x |
| Numbers.FracDigitTen | windspeak.py:70-71 | The digit is 10 exactly when the fraction of a non-negative x is .95 or more, and -10 exactly when the fraction of a negative x is -.95 or below |
| Numbers.NumToWav | windspeak.py:67-77 | "comma" occurs if and only if the rounded digit is nonzero, and at most once. The result has 1 to 7 clips, all number clips, "minus" or "comma" |
| Numbers.NumToWavCases | windspeak.py:72-75 | A zero digit gives exactly the clips of int(x). Otherwise the result is those clips, then "comma", then the clips of the digit |
| Numbers.NumToWavReadBack | windspeak.py:67-77 | The phrase encodes int(x) and the digit f: the number before "comma" plus a tenth of the number after it is int(x) + f/10, which is within 0.05 of x for every x |
| Numbers.DegreesToWav | windspeak.py:79-86 | "degrees" is the last clip and occurs nowhere else. The clips before it are number clips or "minus" and add up to int(deg). The result has 2 to 5 clips |
| Compass.CompassToWav | windspeak.py:88-134 | The result is 1 or 2 compass clips. A 2-clip result is a cardinal point (north/east/south/west) followed by an intercardinal one |
| Compass.CompassIsRose | windspeak.py:88-134 | For every bearing, the cascade equals the arithmetic 16-point rose: sector p is (11.25 + 22.5(p-1), 11.25 + 22.5p], the lowest boundary is 22.5, and everything else is north |
| Compass.NorthIff | windspeak.py:91-132 | The bearing is spoken as plain "north" if and only if it is <= 22.5 (negatives included) or > 348.75 |
| Compass.BoundaryTiesFallLow | windspeak.py:91-130 | A bearing exactly on boundary 11.25 + 22.5k (1 <= k <= 15, so 33.75 up to 348.75) gets the clips of sector k, below the boundary, and not those of the next sector |
| Compass.EasternRose | windspeak.py:111-132 | The clips of rose points 0 to 8, north clockwise to south, as the branches from "south" (above 168.75) down to the final else name them |
| Compass.WesternRose | windspeak.py:93-110 | The clips of rose points 9 to 15, south-south-west clockwise to north-north-west, as the branches from "north, north-west" (above 326.25) down to "south, south-west" (above 191.25) name them |
| Compass.PointClipsInjective | windspeak.py:88-134 | No two rose points share a spoken form |
| Report.GenerateWave | windspeak.py:136-144 | The report has 7 to 17 clips. It starts with "winddir", which occurs nowhere else, and ends with "ms", which occurs nowhere else |
| Report.ReadReportOfParts | windspeak.py:138-144 | A list laid out as generateWave lays it out splits back into its compass part, degree part and speed part |
| Report.ReportReadBack | windspeak.py:136-144 | Round trip: every report reads back as the compass clips of the bearing, int(bearing) as degrees and int(speed) + digit/10 as speed (the encoded pair, not how "comma 10" sounds). That speed is within 0.05 m/s of the reading |
| Report.ReportInVocabulary | windspeak.py:136-144 | For direction and speed in (-1000, 1000), every clip of the report is in the voice vocabulary |
| Tokens.NatToString | windspeak.py:51 | str(n) for n >= 0: at least one character, all decimal digits, no leading zero (with ParseNatString, the digits of n) |
| Tokens.FileName | windspeak.py:45-144 | A clip's file name ends in ".wav" after a nonempty stem. It starts with a digit exactly for number clips ("<n>.wav" at lines 51 and 63, "<n>-.wav" at 55 and 60), and the stem ends in "-" exactly for connectors. The fixed names of lines 48, 74, 84, 92-132 and 139-144 are the named clips |
| Tokens.FileNames | windspeak.py:145 | The list handed to the joiner: one name per clip, name i being the file name of clip i |
| Tokens.FileNameRoundTrip | windspeak.py:51-63 | Every clip's file name ("<n>.wav", "<n>-.wav", "north-west.wav", ...) parses back to that clip |
| Tokens.FileNameInjective | windspeak.py:51-63 | Distinct clips have distinct file names |
| Tokens.ParseNatString | windspeak.py:51 | The decimal rendering of a natural number (str(n)) parses back to n |
| Tokens.FileNamesAppend | windspeak.py:138-144 | File names are taken clip by clip, keeping the order of concatenated parts |
| Scenarios.IntToWavExamples | windspeak.py:45-65 | 0, 20, 21, 100, 105 and 200 give "0"; "20"; "20-","1"; "100"; "100-","5"; and "200-","0" |
| Scenarios.NegativeIntExamples | windspeak.py:47-49 | -5 gives "minus","5" and -99 gives "minus","90-","9": three clips for a two-digit negative number |
| Scenarios.NumToWavExamples | windspeak.py:67-77 | 3.7, 4.0, 3.96 and -3.7 give "3 comma 7"; "4"; "3 comma 10"; and "minus 3 comma minus 7" |
| Scenarios.NegativeSpeedExamples | windspeak.py:67-77 | -0.5, -3.04 and -3.0 give "0 comma minus 5", "minus 3" and "minus 3": int() keeps the sign only on a nonzero integer part, and round(-0.4) is 0 |
| Scenarios.DegreesExample | windspeak.py:79-86 | 10.0 gives "10 degrees" and 359.9 gives "300- 50- 9 degrees" |
| Scenarios.CompassExamples | windspeak.py:88-134 | 0 and -10 give north; 337.5 and 348.75 give north, north-west; 348.76 gives north |
| Scenarios.ReportExample | windspeak.py:136-144 | 10 degrees and 3.7 m/s give winddir, north, 10, degrees, windspeed, 3, comma, 7, ms |
| Scenarios.ReportFileNamesExample | windspeak.py:136-145 | The file names the joiner receives for 10 degrees and 3.7 m/s, in order |
| Scenarios.FileNameExamples | windspeak.py:51-63 | The connector and terminal forms render as "20-.wav", "100.wav", "200-.wav", "north-west.wav" |

## Left out

- `wavJoin` (`windspeak.py:25-35`) is not part of this model. It opens and writes WAV files through Python's `wave` module, and the model does no file I/O. The model stops at the ordered list of file names (`FileNames`) that it is given.
- `getStationList` and `getHistory` (`windspeak.py:37-43`) fetch over the network and parse JSON, so they are left out.
- `usage` and the command-line block (`windspeak.py:147-195`) are left out. They cover flag parsing, station lookup, stdout redirection and exit codes.
- The lookup `history[0]['winddir_avg']` / `['windspeed_avg']` in `generateWave` is left out. `GenerateWave` takes the two numbers directly.
- Floating point is not modelled. Readings are exact reals. NaN and the infinities are outside the model: on them `int()` raises in `numToWav` and `degreesToWav` (`windspeak.py:70, 81`), while `compassToWav` speaks NaN as plain "north". A binary float such as 3.7 is not exactly 3.7, so `(n - i) * 10` and `round` can differ from the exact value. This matters for fractions at or very near .x5.
- `intToWav` is modelled over integers only, because every caller passes the result of `int()`. Python 2's `/` and `%` on the non-negative integers it is applied to agree with Dafny's.
