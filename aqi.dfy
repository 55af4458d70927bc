/**
 * The PM2.5 air-quality index of the dashboard (`calc_aqi`) and the six
 * AQI status bands it is displayed with (`get_aqi_status`).
 */
module Aqi {
  import opened Numeric
  import opened Breakpoints

  // ---- calc_aqi -------------------------------------------------------

  /** Upper PM2.5 bound (µg/m³) of each of the seven interpolation segments. */
  const SegmentUpper: seq<real> := [12.0, 35.4, 55.4, 150.4, 250.4, 350.4, 500.4]
  /** Lower PM2.5 end of each segment: the previous segment's upper bound. */
  const SegmentLower: seq<real> := [0.0, 12.0, 35.4, 55.4, 150.4, 250.4, 350.4]
  /** The AQI a segment starts from. */
  const SegmentAnchor: seq<real> := [0.0, 50.0, 100.0, 150.0, 200.0, 300.0, 400.0]
  /**
   * The AQI a segment climbs across its width. The fourth segment
   * (55.4-150.4) climbs by 100, not 50, so it ends at 250 while the
   * next one restarts at 200.
   */
  const SegmentSpan: seq<real> := [50.0, 50.0, 50.0, 100.0, 100.0, 100.0, 100.0]

  /** Truncated linear interpolation from `anchor` at `lo` to `anchor + span` at `hi`. */
  function Interp(lo: real, hi: real, anchor: real, span: real, c: real): int
    requires lo < hi
  {
    Trunc(anchor + (c - lo) / (hi - lo) * span)
  }

  /** The interpolation of segment `k` at concentration `c`. */
  function Interpolate(k: nat, c: real): int
    requires k < 7
  {
    Interp(SegmentLower[k], SegmentUpper[k], SegmentAnchor[k], SegmentSpan[k], c)
  }

  /** Reference definition: scan the segment table, interpolate, and clamp to 500 past the last segment. */
  function AqiByTable(pm25: real): int
  {
    var k := ScanLevel(SegmentUpper, pm25);
    if k == 7 then 500 else Interpolate(k, pm25)
  }

  /** `calc_aqi`: the if/elif chain of the dashboard, truncating with `int(...)`. */
  function CalcAqi(pm25: real): (aqi: int)
    ensures pm25 >= 0.0 ==> 0 <= aqi <= 500
    ensures pm25 < 0.0 ==> aqi <= 0
    ensures pm25 > 500.4 ==> aqi == 500
  {
    if pm25 <= 12.0 then Trunc(pm25 / 12.0 * 50.0)
    else if pm25 <= 35.4 then Trunc(50.0 + (pm25 - 12.0) / (35.4 - 12.0) * 50.0)
    else if pm25 <= 55.4 then Trunc(100.0 + (pm25 - 35.4) / (55.4 - 35.4) * 50.0)
    else if pm25 <= 150.4 then Trunc(150.0 + (pm25 - 55.4) / (150.4 - 55.4) * 100.0)
    else if pm25 <= 250.4 then Trunc(200.0 + (pm25 - 150.4) / (250.4 - 150.4) * 100.0)
    else if pm25 <= 350.4 then Trunc(300.0 + (pm25 - 250.4) / (350.4 - 250.4) * 100.0)
    else if pm25 <= 500.4 then Trunc(400.0 + (pm25 - 350.4) / (500.4 - 350.4) * 100.0)
    else 500
  }

  lemma SegmentUpperIncreasing()
    ensures StrictlyIncreasing(SegmentUpper)
  {
  }

  /** The chain is the segment table read in ascending order, `<=` closing each segment. */
  lemma CalcAqiMatchesTable(pm25: real)
    ensures CalcAqi(pm25) == AqiByTable(pm25)
  {
    SegmentUpperIncreasing();
    var k: nat := if pm25 <= 12.0 then 0 else if pm25 <= 35.4 then 1 else if pm25 <= 55.4 then 2
                  else if pm25 <= 150.4 then 3 else if pm25 <= 250.4 then 4 else if pm25 <= 350.4 then 5
                  else if pm25 <= 500.4 then 6 else 7;
    assert InLevel(SegmentUpper, pm25, k);
    LevelUnique(SegmentUpper, pm25, k);
    if k < 7 {
      InterpolateIsBranch(k, pm25);
    }
  }

  /** Segment `k` of the table is the expression of the chain's `k`-th branch. */
  lemma InterpolateIsBranch(k: nat, c: real)
    requires k < 7
    ensures k == 0 ==> Interpolate(k, c) == Trunc(c / 12.0 * 50.0)
    ensures k == 1 ==> Interpolate(k, c) == Trunc(50.0 + (c - 12.0) / (35.4 - 12.0) * 50.0)
    ensures k == 2 ==> Interpolate(k, c) == Trunc(100.0 + (c - 35.4) / (55.4 - 35.4) * 50.0)
    ensures k == 3 ==> Interpolate(k, c) == Trunc(150.0 + (c - 55.4) / (150.4 - 55.4) * 100.0)
    ensures k == 4 ==> Interpolate(k, c) == Trunc(200.0 + (c - 150.4) / (250.4 - 150.4) * 100.0)
    ensures k == 5 ==> Interpolate(k, c) == Trunc(300.0 + (c - 250.4) / (350.4 - 250.4) * 100.0)
    ensures k == 6 ==> Interpolate(k, c) == Trunc(400.0 + (c - 350.4) / (500.4 - 350.4) * 100.0)
  {
    if k == 0 {
      assert Interpolate(0, c) == Interp(0.0, 12.0, 0.0, 50.0, c);
      assert 0.0 + (c - 0.0) / (12.0 - 0.0) * 50.0 == c / 12.0 * 50.0;
    } else if k == 1 {
      assert Interpolate(1, c) == Interp(12.0, 35.4, 50.0, 50.0, c);
    } else if k == 2 {
      assert Interpolate(2, c) == Interp(35.4, 55.4, 100.0, 50.0, c);
    } else if k == 3 {
      assert Interpolate(3, c) == Interp(55.4, 150.4, 150.0, 100.0, c);
    } else if k == 4 {
      assert Interpolate(4, c) == Interp(150.4, 250.4, 200.0, 100.0, c);
    } else if k == 5 {
      assert Interpolate(5, c) == Interp(250.4, 350.4, 300.0, 100.0, c);
    } else {
      assert Interpolate(6, c) == Interp(350.4, 500.4, 400.0, 100.0, c);
    }
  }

  /** The anchor values: a concentration exactly on a breakpoint closes the lower segment. */
  lemma CalcAqiAnchors()
    ensures CalcAqi(0.0) == 0 && CalcAqi(12.0) == 50 && CalcAqi(35.4) == 100
    ensures CalcAqi(55.4) == 150 && CalcAqi(150.4) == 250 && CalcAqi(250.4) == 300
    ensures CalcAqi(350.4) == 400 && CalcAqi(500.4) == 500 && CalcAqi(600.0) == 500
  {
  }

  /** Inside one segment the index never decreases. */
  lemma CalcAqiMonotoneInSegment(c1: real, c2: real)
    requires c1 <= c2
    requires ScanLevel(SegmentUpper, c1) == ScanLevel(SegmentUpper, c2)
    ensures CalcAqi(c1) <= CalcAqi(c2)
  {
    CalcAqiMatchesTable(c1);
    CalcAqiMatchesTable(c2);
    var k := ScanLevel(SegmentUpper, c1);
    if k < 7 {
      InterpolateMonotone(k, c1, c2);
    }
  }

  /** Every segment has a positive slope. */
  lemma InterpolateMonotone(k: nat, c1: real, c2: real)
    requires k < 7 && c1 <= c2
    ensures Interpolate(k, c1) <= Interpolate(k, c2)
  {
    InterpolateIsBranch(k, c1);
    InterpolateIsBranch(k, c2);
    if k == 0 {
      TruncMonotone(c1 / 12.0 * 50.0, c2 / 12.0 * 50.0);
    } else if k == 1 {
      TruncMonotone(50.0 + (c1 - 12.0) / (35.4 - 12.0) * 50.0, 50.0 + (c2 - 12.0) / (35.4 - 12.0) * 50.0);
    } else if k == 2 {
      TruncMonotone(100.0 + (c1 - 35.4) / (55.4 - 35.4) * 50.0, 100.0 + (c2 - 35.4) / (55.4 - 35.4) * 50.0);
    } else if k == 3 {
      TruncMonotone(150.0 + (c1 - 55.4) / (150.4 - 55.4) * 100.0, 150.0 + (c2 - 55.4) / (150.4 - 55.4) * 100.0);
    } else if k == 4 {
      TruncMonotone(200.0 + (c1 - 150.4) / (250.4 - 150.4) * 100.0, 200.0 + (c2 - 150.4) / (250.4 - 150.4) * 100.0);
    } else if k == 5 {
      TruncMonotone(300.0 + (c1 - 250.4) / (350.4 - 250.4) * 100.0, 300.0 + (c2 - 250.4) / (350.4 - 250.4) * 100.0);
    } else {
      TruncMonotone(400.0 + (c1 - 350.4) / (500.4 - 350.4) * 100.0, 400.0 + (c2 - 350.4) / (500.4 - 350.4) * 100.0);
    }
  }

  /** Up to 150.4 µg/m³ the index never decreases, across segment boundaries too. */
  lemma CalcAqiMonotoneUpTo150(c1: real, c2: real)
    requires 0.0 <= c1 <= c2 <= 150.4
    ensures CalcAqi(c1) <= CalcAqi(c2)
  {
  }

  /** Above 150.4 µg/m³ the index never decreases either. */
  lemma CalcAqiMonotoneAbove150(c1: real, c2: real)
    requires 150.4 < c1 <= c2
    ensures CalcAqi(c1) <= CalcAqi(c2)
  {
  }

  /**
   * But it is not monotone overall: 150.4 gives 250, and every
   * concentration strictly between 150.4 and 200.4 gives less.
   */
  lemma CalcAqiDropsAfter150(c: real)
    requires 150.4 < c < 200.4
    ensures CalcAqi(c) < CalcAqi(150.4) == 250
    ensures CalcAqi(150.5) == 200
  {
  }

  // ---- get_aqi_status -------------------------------------------------

  /** The six AQI bands, least severe first. */
  datatype AqiCategory = Good | Moderate | SensitiveGroups | Unhealthy | VeryUnhealthy | Hazardous

  /** The tuple `(name, emoji, marker colour, background colour)`. */
  datatype AqiStatus = AqiStatus(name: string, emoji: string, marker: string, background: string)

  /** Upper AQI bound of each band but the last; Hazardous is open-ended. */
  const CategoryUpper: seq<int> := [50, 100, 150, 200, 300]

  function Severity(c: AqiCategory): (k: nat)
    ensures k <= 5
  {
    match c
    case Good => 0
    case Moderate => 1
    case SensitiveGroups => 2
    case Unhealthy => 3
    case VeryUnhealthy => 4
    case Hazardous => 5
  }

  /** `aqi` lies in band `c`: above the previous band's bound and at most its own. */
  predicate InCategory(aqi: int, c: AqiCategory)
  {
    var k := Severity(c);
    (k == 0 || CategoryUpper[k - 1] < aqi) && (k == 5 || aqi <= CategoryUpper[k])
  }

  /** What the dashboard shows for each band. */
  function CategoryDisplay(c: AqiCategory): (s: AqiStatus)
    ensures |s.marker| == 7 && s.marker[0] == '#' && |s.background| == 7 && s.background[0] == '#'
    ensures forall i :: 1 <= i < 7 ==> s.marker[i] in "0123456789abcdef" && s.background[i] in "0123456789abcdef"
    ensures s.emoji != []
  {
    match c
    case Good => AqiStatus("Good", "\U{1F60A}", "#00e400", "#e8f5e8")
    case Moderate => AqiStatus("Moderate", "\U{1F610}", "#ff8c00", "#fff3e0")
    case SensitiveGroups => AqiStatus("Unhealthy for Sensitive Groups", "\U{1F637}", "#ff7e00", "#fff3e0")
    case Unhealthy => AqiStatus("Unhealthy", "\U{1F637}", "#ff0000", "#ffebee")
    case VeryUnhealthy => AqiStatus("Very Unhealthy", "\U{1F922}", "#8f3f97", "#f3e5f5")
    case Hazardous => AqiStatus("Hazardous", "\U{2620}\U{FE0F}", "#7e0023", "#fce4ec")
  }

  /** The six bands have six different labels, so the label alone identifies the band. */
  lemma CategoryLabelsDistinct(c1: AqiCategory, c2: AqiCategory)
    ensures CategoryDisplay(c1).name == CategoryDisplay(c2).name ==> c1 == c2
  {
  }

  /** `get_aqi_status`: total over the integers; the result is the display of exactly the band holding `aqi`. */
  function GetAqiStatus(aqi: int): (s: AqiStatus)
    ensures forall c :: s == CategoryDisplay(c) <==> InCategory(aqi, c)
  {
    if aqi <= 50 then AqiStatus("Good", "\U{1F60A}", "#00e400", "#e8f5e8")
    else if aqi <= 100 then AqiStatus("Moderate", "\U{1F610}", "#ff8c00", "#fff3e0")
    else if aqi <= 150 then AqiStatus("Unhealthy for Sensitive Groups", "\U{1F637}", "#ff7e00", "#fff3e0")
    else if aqi <= 200 then AqiStatus("Unhealthy", "\U{1F637}", "#ff0000", "#ffebee")
    else if aqi <= 300 then AqiStatus("Very Unhealthy", "\U{1F922}", "#8f3f97", "#f3e5f5")
    else AqiStatus("Hazardous", "\U{2620}\U{FE0F}", "#7e0023", "#fce4ec")
  }

  /** The bands partition the integers: every AQI lies in exactly one. */
  lemma CategoriesPartition(aqi: int, c1: AqiCategory, c2: AqiCategory)
    ensures InCategory(aqi, c1) && InCategory(aqi, c2) ==> c1 == c2
    ensures exists c :: InCategory(aqi, c)
  {
    var s := GetAqiStatus(aqi);
    var c := if aqi <= 50 then Good else if aqi <= 100 then Moderate else if aqi <= 150 then SensitiveGroups
             else if aqi <= 200 then Unhealthy else if aqi <= 300 then VeryUnhealthy else Hazardous;
    assert InCategory(aqi, c);
  }

  /** The band boundaries named by the dashboard's thresholds. */
  lemma AqiStatusBoundaries()
    ensures GetAqiStatus(50).name == "Good" && GetAqiStatus(51).name == "Moderate"
    ensures GetAqiStatus(100).name == "Moderate" && GetAqiStatus(101).name == "Unhealthy for Sensitive Groups"
    ensures GetAqiStatus(150).name == "Unhealthy for Sensitive Groups" && GetAqiStatus(151).name == "Unhealthy"
    ensures GetAqiStatus(200).name == "Unhealthy" && GetAqiStatus(201).name == "Very Unhealthy"
    ensures GetAqiStatus(300).name == "Very Unhealthy" && GetAqiStatus(301).name == "Hazardous"
    ensures GetAqiStatus(-7).name == "Good"
  {
  }
}
