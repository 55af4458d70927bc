/**
 * `get_pollutant_status`: a concentration of one of six pollutants mapped
 * to a category on the scale Good, Moderate, Poor, Unhealthy, Severe,
 * Hazardous, with a marker and a background colour.
 */
module Pollutants {
  import opened Wrappers
  import opened Breakpoints

  datatype Pollutant = PM25 | PM10 | NO2 | O3 | CO | SO2

  /** The name the dashboard passes for each pollutant. */
  function Name(p: Pollutant): string
  {
    match p
    case PM25 => "PM2.5"
    case PM10 => "PM10"
    case NO2 => "NO2"
    case O3 => "O3"
    case CO => "CO"
    case SO2 => "SO2"
  }

  /** Recognise a pollutant name; anything else is unknown. */
  function ParsePollutant(name: string): (r: Option<Pollutant>)
    ensures r.Some? ==> Name(r.value) == name
    ensures r.None? ==> forall p :: Name(p) != name
  {
    if name == "PM2.5" then Some(PM25)
    else if name == "PM10" then Some(PM10)
    else if name == "NO2" then Some(NO2)
    else if name == "O3" then Some(O3)
    else if name == "CO" then Some(CO)
    else if name == "SO2" then Some(SO2)
    else None
  }

  /** Upper bounds of the first five categories, in the pollutant's own unit. */
  function Thresholds(p: Pollutant): (t: seq<real>)
    ensures |t| == 5
    ensures StrictlyIncreasing(t) && t[0] > 0.0
  {
    match p
    case PM25 => [12.0, 35.4, 55.4, 150.4, 250.4]
    case PM10 => [54.0, 154.0, 254.0, 354.0, 424.0]
    case NO2 => [53.0, 100.0, 360.0, 649.0, 1249.0]
    case O3 => [54.0, 70.0, 85.0, 105.0, 200.0]
    case CO => [4.4, 9.4, 12.4, 15.4, 30.4]
    case SO2 => [35.0, 75.0, 185.0, 304.0, 604.0]
  }

  datatype Level = Good | Moderate | Poor | Unhealthy | Severe | Hazardous

  /** The category of band `k` of a threshold table. */
  function LevelAt(k: nat): Level
    requires k <= 5
  {
    [Good, Moderate, Poor, Unhealthy, Severe, Hazardous][k]
  }

  /** The triple `(label, marker colour, background colour)`. */
  datatype PollutantStatus = PollutantStatus(name: string, marker: string, background: string)

  /** The display of each category: one colour pair per category, shared by every pollutant. */
  function LevelDisplay(l: Level): PollutantStatus
  {
    match l
    case Good => PollutantStatus("Good", "#00e400", "#e8f5e8")
    case Moderate => PollutantStatus("Moderate", "#ff8c00", "#fff3e0")
    case Poor => PollutantStatus("Poor", "#ff7e00", "#fff0e6")
    case Unhealthy => PollutantStatus("Unhealthy", "#ff0000", "#ffe6e6")
    case Severe => PollutantStatus("Severe", "#8f3f97", "#f3e5f5")
    case Hazardous => PollutantStatus("Hazardous", "#7e0023", "#fce4ec")
  }

  /** The six category displays, least severe first. */
  function CategoryDisplays(): seq<PollutantStatus>
  {
    [LevelDisplay(Good), LevelDisplay(Moderate), LevelDisplay(Poor),
     LevelDisplay(Unhealthy), LevelDisplay(Severe), LevelDisplay(Hazardous)]
  }

  /** The neutral result for a name outside the six pollutants. */
  const UnknownStatus: PollutantStatus := PollutantStatus("Unknown", "#666666", "#f5f5f5")

  /** Reference definition: scan the pollutant's table and display the category found. */
  function StatusByTable(p: Pollutant, value: real): PollutantStatus
  {
    LevelDisplay(LevelAt(ScanLevel(Thresholds(p), value)))
  }

  /** `get_pollutant_status`, as the dashboard's nested if/elif chains; an unrecognised name gives Unknown. */
  function GetPollutantStatus(pollutant: string, value: real): (r: PollutantStatus)
    ensures r == UnknownStatus <==> ParsePollutant(pollutant).None?
    ensures r != UnknownStatus ==> r in CategoryDisplays()
  {
    if pollutant == "PM2.5" then
      if value <= 12.0 then PollutantStatus("Good", "#00e400", "#e8f5e8")
      else if value <= 35.4 then PollutantStatus("Moderate", "#ff8c00", "#fff3e0")
      else if value <= 55.4 then PollutantStatus("Poor", "#ff7e00", "#fff0e6")
      else if value <= 150.4 then PollutantStatus("Unhealthy", "#ff0000", "#ffe6e6")
      else if value <= 250.4 then PollutantStatus("Severe", "#8f3f97", "#f3e5f5")
      else PollutantStatus("Hazardous", "#7e0023", "#fce4ec")
    else if pollutant == "PM10" then
      if value <= 54.0 then PollutantStatus("Good", "#00e400", "#e8f5e8")
      else if value <= 154.0 then PollutantStatus("Moderate", "#ff8c00", "#fff3e0")
      else if value <= 254.0 then PollutantStatus("Poor", "#ff7e00", "#fff0e6")
      else if value <= 354.0 then PollutantStatus("Unhealthy", "#ff0000", "#ffe6e6")
      else if value <= 424.0 then PollutantStatus("Severe", "#8f3f97", "#f3e5f5")
      else PollutantStatus("Hazardous", "#7e0023", "#fce4ec")
    else if pollutant == "NO2" then
      if value <= 53.0 then PollutantStatus("Good", "#00e400", "#e8f5e8")
      else if value <= 100.0 then PollutantStatus("Moderate", "#ff8c00", "#fff3e0")
      else if value <= 360.0 then PollutantStatus("Poor", "#ff7e00", "#fff0e6")
      else if value <= 649.0 then PollutantStatus("Unhealthy", "#ff0000", "#ffe6e6")
      else if value <= 1249.0 then PollutantStatus("Severe", "#8f3f97", "#f3e5f5")
      else PollutantStatus("Hazardous", "#7e0023", "#fce4ec")
    else if pollutant == "O3" then
      if value <= 54.0 then PollutantStatus("Good", "#00e400", "#e8f5e8")
      else if value <= 70.0 then PollutantStatus("Moderate", "#ff8c00", "#fff3e0")
      else if value <= 85.0 then PollutantStatus("Poor", "#ff7e00", "#fff0e6")
      else if value <= 105.0 then PollutantStatus("Unhealthy", "#ff0000", "#ffe6e6")
      else if value <= 200.0 then PollutantStatus("Severe", "#8f3f97", "#f3e5f5")
      else PollutantStatus("Hazardous", "#7e0023", "#fce4ec")
    else if pollutant == "CO" then
      if value <= 4.4 then PollutantStatus("Good", "#00e400", "#e8f5e8")
      else if value <= 9.4 then PollutantStatus("Moderate", "#ff8c00", "#fff3e0")
      else if value <= 12.4 then PollutantStatus("Poor", "#ff7e00", "#fff0e6")
      else if value <= 15.4 then PollutantStatus("Unhealthy", "#ff0000", "#ffe6e6")
      else if value <= 30.4 then PollutantStatus("Severe", "#8f3f97", "#f3e5f5")
      else PollutantStatus("Hazardous", "#7e0023", "#fce4ec")
    else if pollutant == "SO2" then
      if value <= 35.0 then PollutantStatus("Good", "#00e400", "#e8f5e8")
      else if value <= 75.0 then PollutantStatus("Moderate", "#ff8c00", "#fff3e0")
      else if value <= 185.0 then PollutantStatus("Poor", "#ff7e00", "#fff0e6")
      else if value <= 304.0 then PollutantStatus("Unhealthy", "#ff0000", "#ffe6e6")
      else if value <= 604.0 then PollutantStatus("Severe", "#8f3f97", "#f3e5f5")
      else PollutantStatus("Hazardous", "#7e0023", "#fce4ec")
    else
      PollutantStatus("Unknown", "#666666", "#f5f5f5")
  }

  /** Every threshold table is strictly increasing. */
  lemma ThresholdsIncreasing(p: Pollutant)
    ensures StrictlyIncreasing(Thresholds(p))
  {
  }

  /** Over a five-entry table the scan is the ascending `<=` chain. */
  lemma ScanOfFive(t: seq<real>, value: real)
    requires |t| == 5 && StrictlyIncreasing(t)
    ensures ScanLevel(t, value) == if value <= t[0] then 0 else if value <= t[1] then 1
      else if value <= t[2] then 2 else if value <= t[3] then 3 else if value <= t[4] then 4 else 5
  {
    var k: nat := if value <= t[0] then 0 else if value <= t[1] then 1 else if value <= t[2] then 2
                  else if value <= t[3] then 3 else if value <= t[4] then 4 else 5;
    assert InLevel(t, value, k);
    LevelUnique(t, value, k);
  }

  /** For each pollutant the chain is its threshold table scanned in ascending order with `<=`. */
  lemma GetPollutantStatusMatchesTable(p: Pollutant, value: real)
    ensures GetPollutantStatus(Name(p), value) == StatusByTable(p, value)
  {
    ScanOfFive(Thresholds(p), value);
    match p
    case PM25 =>
    case PM10 =>
    case NO2 =>
    case O3 =>
    case CO =>
    case SO2 =>
  }

  /**
   * Each value of a known pollutant is in exactly one band of its table,
   * and the result is that band's category.
   */
  lemma PollutantBandUnique(p: Pollutant, value: real, k: nat)
    requires k <= 5
    ensures GetPollutantStatus(Name(p), value) == LevelDisplay(LevelAt(k)) <==> InLevel(Thresholds(p), value, k)
  {
    GetPollutantStatusMatchesTable(p, value);
    TableBandUnique(p, value, k);
  }

  /** The reference definition picks band `k`'s display exactly when the value is in band `k`. */
  lemma TableBandUnique(p: Pollutant, value: real, k: nat)
    requires k <= 5
    ensures StatusByTable(p, value) == LevelDisplay(LevelAt(k)) <==> InLevel(Thresholds(p), value, k)
  {
    ThresholdsIncreasing(p);
    LevelUnique(Thresholds(p), value, k);
    var s := ScanLevel(Thresholds(p), value);
    if LevelDisplay(LevelAt(k)) == LevelDisplay(LevelAt(s)) {
      assert LevelAt(k) == LevelAt(s);
    }
  }

  /** A value equal to a threshold gets the category that threshold closes, not the next one. */
  lemma ThresholdClosesLowerBand(p: Pollutant, k: nat)
    requires k < 5
    ensures GetPollutantStatus(Name(p), Thresholds(p)[k]) == LevelDisplay(LevelAt(k))
  {
    GetPollutantStatusMatchesTable(p, Thresholds(p)[k]);
    ThresholdsIncreasing(p);
    BoundClosesItsBand(Thresholds(p), k);
  }

  /** Above the last threshold every pollutant is Hazardous; at or below zero every one is Good. */
  lemma PollutantExtremes(p: Pollutant, value: real)
    ensures value > Thresholds(p)[4] ==> GetPollutantStatus(Name(p), value).name == "Hazardous"
    ensures value <= 0.0 ==> GetPollutantStatus(Name(p), value).name == "Good"
  {
    GetPollutantStatusMatchesTable(p, value);
    ThresholdsIncreasing(p);
    ScanExtremes(Thresholds(p), value);
  }

  /** The colour pair depends only on the label, whatever the pollutant and value. */
  lemma ColoursFollowLabel(n1: string, v1: real, n2: string, v2: real)
    requires GetPollutantStatus(n1, v1).name == GetPollutantStatus(n2, v2).name
    ensures GetPollutantStatus(n1, v1) == GetPollutantStatus(n2, v2)
  {
  }

  /** Concrete classifications: the band edges of PM2.5 and the open top band of PM10. */
  lemma PollutantExamples()
    ensures GetPollutantStatus("PM2.5", 12.0).name == "Good"
    ensures GetPollutantStatus("PM2.5", 12.1).name == "Moderate"
    ensures GetPollutantStatus("PM10", 500.0).name == "Hazardous"
    ensures GetPollutantStatus("CO", 4.4).name == "Good" && GetPollutantStatus("CO", 4.5).name == "Moderate"
    ensures GetPollutantStatus("pm2.5", 10.0) == PollutantStatus("Unknown", "#666666", "#f5f5f5")
  {
  }
}
