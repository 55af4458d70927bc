/**
 * The ranking step of `create_polluted_cities_ranking`: one entry per
 * latest reading, sorted by AQI from highest to lowest with a stable
 * sort, cut to the first ten.
 */
module Ranking {
  import opened Numeric
  import opened Aqi

  /** The fields of a latest-readings row the ranking uses. */
  datatype Reading = Reading(site: string, pm25: real)

  /** One entry of `city_rankings`. */
  datatype CityRanking = CityRanking(city: string, aqi: int, status: string, color: string,
                                     bgColor: string, standardMultiplier: int)

  /** How many ranking entries the dashboard shows. */
  const TopCount: nat := 10

  /** `max(1, int(aqi / 50))`: how many whole multiples of the standard 50 the AQI is, but at least 1. */
  function StandardMultiplier(aqi: int): (m: int)
    ensures m >= 1
    ensures aqi >= 100 ==> 50 * m <= aqi < 50 * (m + 1)
    ensures aqi < 100 ==> m == 1
  {
    MaxInt(1, Trunc(aqi as real / 50.0))
  }

  /** The entry the loop appends for one row. */
  function RankingOf(row: Reading): (r: CityRanking)
    ensures r.city == row.site && r.aqi == CalcAqi(row.pm25) && r.standardMultiplier >= 1
    ensures r.standardMultiplier == StandardMultiplier(r.aqi)
    ensures row.pm25 >= 0.0 ==> 0 <= r.aqi <= 500
  {
    var aqi := CalcAqi(row.pm25);
    var s := GetAqiStatus(aqi);
    CityRanking(row.site, aqi, s.name, s.marker, s.background, StandardMultiplier(aqi))
  }

  /** An entry's status, colour and background are those of the AQI band its AQI lies in (tuple fields 0, 2 and 3). */
  lemma RankingStatusIsBand(row: Reading, c: AqiCategory)
    requires InCategory(CalcAqi(row.pm25), c)
    ensures RankingOf(row).status == CategoryDisplay(c).name
    ensures RankingOf(row).color == CategoryDisplay(c).marker
    ensures RankingOf(row).bgColor == CategoryDisplay(c).background
  {
  }

  /** The list the loop builds: the rows' entries, in row order. */
  function Rankings(rows: seq<Reading>): (r: seq<CityRanking>)
    ensures |r| == |rows|
    ensures forall i :: 0 <= i < |rows| ==> r[i] == RankingOf(rows[i])
  {
    seq(|rows|, i requires 0 <= i < |rows| => RankingOf(rows[i]))
  }

  predicate SortedByAqiDesc(s: seq<CityRanking>)
  {
    forall i, j :: 0 <= i < j < |s| ==> s[i].aqi >= s[j].aqi
  }

  /** The entries of `s` whose AQI is `v`, in their order in `s`. */
  function AqiClass(s: seq<CityRanking>, v: int): seq<CityRanking>
  {
    if s == [] then []
    else (if s[0].aqi == v then [s[0]] else []) + AqiClass(s[1..], v)
  }

  /**
   * Insert `x` in front of the first entry whose AQI is not above its own:
   * `x` stays ahead of every entry with an equal AQI.
   */
  function InsertByAqi(x: CityRanking, t: seq<CityRanking>): (r: seq<CityRanking>)
    ensures multiset(r) == multiset(t) + multiset{x}
    ensures r != [] && (r[0] == x || (t != [] && r[0] == t[0]))
  {
    if t == [] || t[0].aqi <= x.aqi then [x] + t
    else
      assert t == [t[0]] + t[1..];
      [t[0]] + InsertByAqi(x, t[1..])
  }

  /** Putting an entry with AQI at least the head's in front of a sorted list keeps it sorted. */
  lemma SortedCons(h: CityRanking, s: seq<CityRanking>)
    requires SortedByAqiDesc(s)
    requires s == [] || h.aqi >= s[0].aqi
    ensures SortedByAqiDesc([h] + s)
  {
    var r := [h] + s;
    forall i, j | 0 <= i < j < |r|
      ensures r[i].aqi >= r[j].aqi
    {
      if i == 0 {
        assert r[j] == s[j - 1];
        assert s[0].aqi >= s[j - 1].aqi;
      } else {
        assert r[i] == s[i - 1] && r[j] == s[j - 1];
      }
    }
  }

  /** Inserting into a sorted list keeps it sorted. */
  lemma {:induction false} InsertKeepsSorted(x: CityRanking, t: seq<CityRanking>)
    requires SortedByAqiDesc(t)
    ensures SortedByAqiDesc(InsertByAqi(x, t))
  {
    if t == [] || t[0].aqi <= x.aqi {
      SortedCons(x, t);
    } else {
      var rest := InsertByAqi(x, t[1..]);
      assert SortedByAqiDesc(t[1..]) by {
        forall i, j | 0 <= i < j < |t[1..]|
          ensures t[1..][i].aqi >= t[1..][j].aqi
        {
          assert t[1..][i] == t[i + 1] && t[1..][j] == t[j + 1];
        }
      }
      InsertKeepsSorted(x, t[1..]);
      if |t| > 1 {
        assert t[0].aqi >= t[1].aqi;
      }
      SortedCons(t[0], rest);
    }
  }

  /**
   * `list.sort(key=aqi, reverse=True)`: Python's sort is stable, and with
   * `reverse=True` entries of equal AQI keep their input order.
   */
  function SortByAqiDesc(s: seq<CityRanking>): (r: seq<CityRanking>)
    ensures multiset(r) == multiset(s) && |r| == |s|
    ensures SortedByAqiDesc(r)
  {
    if s == [] then []
    else
      assert s == [s[0]] + s[1..];
      var rest := SortByAqiDesc(s[1..]);
      InsertKeepsSorted(s[0], rest);
      InsertByAqi(s[0], rest)
  }

  /** The class of a list with a new head. */
  lemma ClassOfCons(h: CityRanking, s: seq<CityRanking>, v: int)
    ensures AqiClass([h] + s, v) == (if h.aqi == v then [h] else []) + AqiClass(s, v)
  {
    assert ([h] + s)[1..] == s;
  }

  /** Inserting `x` puts it ahead of every entry of `t` with the same AQI. */
  lemma {:induction false} InsertKeepsClass(x: CityRanking, t: seq<CityRanking>, v: int)
    ensures AqiClass(InsertByAqi(x, t), v) == (if x.aqi == v then [x] else []) + AqiClass(t, v)
  {
    if t == [] || t[0].aqi <= x.aqi {
      ClassOfCons(x, t, v);
    } else {
      var rest := InsertByAqi(x, t[1..]);
      ClassOfCons(t[0], rest, v);
      InsertKeepsClass(x, t[1..], v);
      if x.aqi == v {
        assert t[0].aqi != v;
        assert AqiClass(t, v) == AqiClass(t[1..], v);
      } else {
        assert AqiClass(t, v) == (if t[0].aqi == v then [t[0]] else []) + AqiClass(t[1..], v);
      }
    }
  }

  /** The sort is stable: the entries of each AQI value come out in the order they went in. */
  lemma {:induction false} SortKeepsClasses(s: seq<CityRanking>, v: int)
    ensures AqiClass(SortByAqiDesc(s), v) == AqiClass(s, v)
  {
    if s != [] {
      SortKeepsClasses(s[1..], v);
      InsertKeepsClass(s[0], SortByAqiDesc(s[1..]), v);
    }
  }

  /** Cutting a list keeps a prefix of each AQI class. */
  lemma {:induction false} ClassOfPrefix(s: seq<CityRanking>, n: nat, v: int)
    requires n <= |s|
    ensures AqiClass(s[..n], v) <= AqiClass(s, v)
  {
    if n > 0 {
      assert s[..n][1..] == s[1..][..n - 1];
      ClassOfPrefix(s[1..], n - 1, v);
    }
  }

  /** In a list sorted by AQI, nothing past the first `n` entries has a higher AQI than any of them. */
  lemma PrefixDominates(s: seq<CityRanking>, n: nat)
    requires SortedByAqiDesc(s) && n <= |s|
    ensures forall e, t :: e in multiset(s) - multiset(s[..n]) && t in s[..n] ==> e.aqi <= t.aqi
  {
    assert s == s[..n] + s[n..];
    forall e, t | e in multiset(s) - multiset(s[..n]) && t in s[..n]
      ensures e.aqi <= t.aqi
    {
      assert e in multiset(s[n..]);
      var j :| 0 <= j < |s[n..]| && s[n..][j] == e;
      var i :| 0 <= i < n && s[..n][i] == t;
      assert s[n + j] == e && s[i] == t;
    }
  }

  /** Cutting the sorted list keeps, for each AQI value, its first entries in input order. */
  lemma TopKeepsClassOrder(all: seq<CityRanking>, n: nat)
    requires n <= |all|
    ensures forall v :: AqiClass(SortByAqiDesc(all)[..n], v) <= AqiClass(all, v)
  {
    var sorted := SortByAqiDesc(all);
    forall v
      ensures AqiClass(sorted[..n], v) <= AqiClass(all, v)
    {
      ClassOfPrefix(sorted, n, v);
      SortKeepsClasses(all, v);
    }
  }

  /** Every entry of the cut list comes from the input, so it keeps the input's multiplier bound. */
  lemma TopKeepsMultipliers(all: seq<CityRanking>, n: nat)
    requires n <= |all|
    requires forall k :: 0 <= k < |all| ==> all[k].standardMultiplier >= 1
    ensures forall k :: 0 <= k < n ==> SortByAqiDesc(all)[k].standardMultiplier >= 1
  {
    var sorted := SortByAqiDesc(all);
    forall k | 0 <= k < n
      ensures sorted[k].standardMultiplier >= 1
    {
      assert sorted[k] in multiset(all);
    }
  }

  /** Every entry built from the rows carries a multiplier of at least one. */
  lemma RankingsKeepMultipliers(rows: seq<Reading>)
    ensures forall k :: 0 <= k < |Rankings(rows)| ==> Rankings(rows)[k].standardMultiplier >= 1
  {
    forall k | 0 <= k < |Rankings(rows)|
      ensures Rankings(rows)[k].standardMultiplier >= 1
    {
      assert Rankings(rows)[k] == RankingOf(rows[k]);
    }
  }

  /** A prefix of a sorted list is sorted. */
  lemma PrefixSorted(s: seq<CityRanking>, n: nat)
    requires SortedByAqiDesc(s) && n <= |s|
    ensures SortedByAqiDesc(s[..n])
  {
    forall i, j | 0 <= i < j < n
      ensures s[..n][i].aqi >= s[..n][j].aqi
    {
      assert s[..n][i] == s[i] && s[..n][j] == s[j];
    }
  }

  /** A prefix holds part of the list's entries. */
  lemma PrefixSubMultiset(s: seq<CityRanking>, n: nat)
    requires n <= |s|
    ensures multiset(s[..n]) <= multiset(s)
  {
    assert s == s[..n] + s[n..];
  }

  /** What cutting the sorted list to its first `n` entries keeps. */
  lemma TopOfSorted(all: seq<CityRanking>, n: nat, top: seq<CityRanking>)
    requires n <= |all| && top == SortByAqiDesc(all)[..n]
    requires forall k :: 0 <= k < |all| ==> all[k].standardMultiplier >= 1
    ensures SortedByAqiDesc(top)
    ensures multiset(top) <= multiset(all)
    ensures forall e, t :: e in multiset(all) - multiset(top) && t in top ==> e.aqi <= t.aqi
    ensures forall v :: AqiClass(top, v) <= AqiClass(all, v)
    ensures forall k :: 0 <= k < |top| ==> top[k].standardMultiplier >= 1
  {
    var sorted := SortByAqiDesc(all);
    PrefixSorted(sorted, n);
    PrefixSubMultiset(sorted, n);
    PrefixDominates(sorted, n);
    TopKeepsClassOrder(all, n);
    TopKeepsMultipliers(all, n);
  }

  /**
   * The ranking step: build an entry per row, sort by AQI from highest
   * to lowest, keep the first ten.
   */
  method RankPollutedCities(rows: seq<Reading>) returns (top: seq<CityRanking>)
    ensures |top| == if |rows| < TopCount then |rows| else TopCount
    ensures top == SortByAqiDesc(Rankings(rows))[..|top|]
    ensures SortedByAqiDesc(top)
    ensures multiset(top) <= multiset(Rankings(rows))
    ensures forall e, t :: e in multiset(Rankings(rows)) - multiset(top) && t in top ==> e.aqi <= t.aqi
    ensures forall v :: AqiClass(top, v) <= AqiClass(Rankings(rows), v)
    ensures forall k :: 0 <= k < |top| ==> top[k].standardMultiplier >= 1
  {
    var cityRankings: seq<CityRanking> := [];
    for i := 0 to |rows|
      invariant |cityRankings| == i
      invariant forall j :: 0 <= j < i ==> cityRankings[j] == RankingOf(rows[j])
    {
      cityRankings := cityRankings + [RankingOf(rows[i])];
    }
    assert cityRankings == Rankings(rows);
    var n := if |cityRankings| < TopCount then |cityRankings| else TopCount;
    top := SortByAqiDesc(cityRankings)[..n];
    RankingsKeepMultipliers(rows);
    TopOfSorted(Rankings(rows), n, top);
  }
}
