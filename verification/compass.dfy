/** compassToWav of windspeak.py: a bearing in degrees spoken as one of the
    sixteen points of the compass rose. The eight main points have a clip
    each; a point between two of them is spoken as two clips, the cardinal
    neighbour first and the intercardinal one second ("north", "north-west"
    for north-north-west). */
module Compass {
  import opened Tokens
  import opened PyNum

  /** The cascade of windspeak.py, with its strict comparisons: a bearing
      exactly on a boundary falls to the lower branch. */
  function CompassToWav(dir: real): (r: seq<Token>)
    ensures 1 <= |r| <= 2
    ensures forall k :: 0 <= k < |r| ==> IsCompass(r[k])
    ensures |r| == 2 ==> IsCardinal(r[0]) && IsIntercardinal(r[1])
  {
    if dir > 348.75 then [North]
    else if dir > 326.25 then [North, NorthWest]
    else if dir > 303.75 then [NorthWest]
    else if dir > 281.25 then [West, NorthWest]
    else if dir > 258.75 then [West]
    else if dir > 236.25 then [West, SouthWest]
    else if dir > 213.75 then [SouthWest]
    else if dir > 191.25 then [South, SouthWest]
    else if dir > 168.75 then [South]
    else if dir > 146.25 then [South, SouthEast]
    else if dir > 123.75 then [SouthEast]
    else if dir > 101.25 then [East, SouthEast]
    else if dir > 78.75 then [East]
    else if dir > 56.25 then [East, NorthEast]
    else if dir > 33.75 then [NorthEast]
    else if dir > 22.5 then [North, NorthEast]
    else [North]
  }

  // ---------------------------------------------------------------------
  // Reference: the rose computed arithmetically
  // ---------------------------------------------------------------------

  /** The eight main points, clockwise from north. */
  function MainPoint(j: int): (t: Token)
    requires 0 <= j < 8
    ensures IsCardinal(t) <==> j % 2 == 0
    ensures IsCompass(t)
  {
    if j == 0 then North else if j == 1 then NorthEast
    else if j == 2 then East else if j == 3 then SouthEast
    else if j == 4 then South else if j == 5 then SouthWest
    else if j == 6 then West else NorthWest
  }

  /** The clips of point p of the sixteen-point rose (0 is north, counted
      clockwise): a main point for even p, otherwise its two neighbours,
      the cardinal one first. */
  function PointClips(p: int): (r: seq<Token>)
    requires 0 <= p < 16
    ensures |r| == 1 <==> p % 2 == 0
    ensures |r| == 2 ==> IsCardinal(r[0]) && IsIntercardinal(r[1])
  {
    if p % 2 == 0 then [MainPoint(p / 2)]
    else
      var lo, hi := p / 2, (p / 2 + 1) % 8;
      if lo % 2 == 0 then [MainPoint(lo), MainPoint(hi)] else [MainPoint(hi), MainPoint(lo)]
  }

  /** Points 0 to 8 written out, clockwise from north to south. */
  lemma EasternRose()
    ensures PointClips(0) == [North] && PointClips(1) == [North, NorthEast]
    ensures PointClips(2) == [NorthEast] && PointClips(3) == [East, NorthEast]
    ensures PointClips(4) == [East] && PointClips(5) == [East, SouthEast]
    ensures PointClips(6) == [SouthEast] && PointClips(7) == [South, SouthEast]
    ensures PointClips(8) == [South]
  {
  }

  /** Points 9 to 15 written out, clockwise from south to north. */
  lemma WesternRose()
    ensures PointClips(9) == [South, SouthWest]
    ensures PointClips(10) == [SouthWest] && PointClips(11) == [West, SouthWest]
    ensures PointClips(12) == [West] && PointClips(13) == [West, NorthWest]
    ensures PointClips(14) == [NorthWest] && PointClips(15) == [North, NorthWest]
  {
  }

  /** The rose point of a bearing. Sector p (1 <= p <= 15) is the half-open
      interval (11.25 + 22.5 * (p - 1), 11.25 + 22.5 * p], except that the
      lowest boundary is 22.5 rather than 11.25; every other bearing is
      north. */
  function Sector(dir: real): (p: int)
    ensures 0 <= p < 16
  {
    if dir <= 22.5 then 0
    else
      var c := Ceil((dir - 11.25) / 22.5);
      if c >= 16 then 0 else c
  }

  /** Sector p (1 <= p <= 15) holds the bearings above 11.25 + 22.5 * (p - 1)
      and up to 11.25 + 22.5 * p, above 22.5. */
  lemma SectorIs(dir: real, p: int)
    requires 1 <= p <= 15 && 22.5 < dir
    requires 11.25 + 22.5 * (p - 1) as real < dir <= 11.25 + 22.5 * p as real
    ensures Sector(dir) == p
  {
    var x := (dir - 11.25) / 22.5;
    assert (p - 1) as real < x <= p as real;
  }

  /** The cascade agrees with the arithmetic rose on every bearing. */
  lemma CompassIsRose(dir: real)
    ensures CompassToWav(dir) == PointClips(Sector(dir))
  {
    if dir > 191.25 { WesternHalfIsRose(dir); } else { EasternHalfIsRose(dir); }
  }

  lemma WesternHalfIsRose(dir: real)
    requires dir > 191.25
    ensures CompassToWav(dir) == PointClips(Sector(dir))
  {
    EasternRose();
    WesternRose();
    if dir > 348.75 { assert (dir - 11.25) / 22.5 > 15.0; }
    else if dir > 326.25 { SectorIs(dir, 15); }
    else if dir > 303.75 { SectorIs(dir, 14); }
    else if dir > 281.25 { SectorIs(dir, 13); }
    else if dir > 258.75 { SectorIs(dir, 12); }
    else if dir > 236.25 { SectorIs(dir, 11); }
    else if dir > 213.75 { SectorIs(dir, 10); }
    else { SectorIs(dir, 9); }
  }

  lemma EasternHalfIsRose(dir: real)
    requires dir <= 191.25
    ensures CompassToWav(dir) == PointClips(Sector(dir))
  {
    EasternRose();
    if dir > 168.75 { SectorIs(dir, 8); }
    else if dir > 146.25 { SectorIs(dir, 7); }
    else if dir > 123.75 { SectorIs(dir, 6); }
    else if dir > 101.25 { SectorIs(dir, 5); }
    else if dir > 78.75 { SectorIs(dir, 4); }
    else if dir > 56.25 { SectorIs(dir, 3); }
    else if dir > 33.75 { SectorIs(dir, 2); }
    else if dir > 22.5 { SectorIs(dir, 1); }
  }

  /** A bearing is spoken as plain "north" exactly when it is at most 22.5
      (negative bearings included) or above 348.75. */
  lemma NorthIff(dir: real)
    ensures CompassToWav(dir) == [North] <==> dir <= 22.5 || dir > 348.75
  {
    CompassIsRose(dir);
    var p := Sector(dir);
    if 1 <= p {
      assert PointClips(p) != [North] by {
        if p % 2 == 0 { assert MainPoint(p / 2) != North; }
      }
    }
  }

  /** A bearing exactly on boundary k (11.25 + 22.5 * k, for 1 <= k <= 15)
      belongs to sector k, the one below the boundary, not to the one above. */
  lemma BoundaryTiesFallLow(k: int)
    requires 1 <= k <= 15
    ensures CompassToWav(11.25 + 22.5 * k as real) == PointClips(k)
    ensures CompassToWav(11.25 + 22.5 * k as real) != PointClips((k + 1) % 16)
  {
    var dir := 11.25 + 22.5 * k as real;
    CompassIsRose(dir);
    SectorIs(dir, k);
    PointClipsInjective(k, (k + 1) % 16);
  }

  /** No two points of the rose share a spoken form. */
  lemma PointClipsInjective(p: int, q: int)
    requires 0 <= p < 16 && 0 <= q < 16
    ensures PointClips(p) == PointClips(q) ==> p == q
  {
  }
}
