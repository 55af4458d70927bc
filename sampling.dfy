/**
 * The systematic down-sampling of `create_detailed_pollutant_view`: of
 * the daily averages, keep every `step`-th point, with `step` chosen from
 * the number of days.
 */
module Sampling {

  /** `iloc[::step]`: the elements at indices 0, step, 2*step, ... */
  function EveryNth<T>(s: seq<T>, step: nat): (r: seq<T>)
    requires step >= 1
    ensures |r| <= |s|
    ensures s != [] ==> r != [] && r[0] == s[0]
    ensures step == 1 ==> |r| == |s|
    decreases |s|
  {
    if s == [] then []
    else if |s| <= step then [s[0]]
    else [s[0]] + EveryNth(s[step..], step)
  }

  /** (x+1)*b == x*b + b */
  lemma MulSucc(x: int, b: int)
    ensures (x + 1) * b == x * b + b
  {
  }

  /** `iloc[::step]` keeps ⌈n/step⌉ of n points: the m with (m-1)*step < n <= m*step. */
  lemma {:induction false} EveryNthLength<T>(s: seq<T>, step: nat)
    requires step >= 1
    ensures s == [] <==> EveryNth(s, step) == []
    ensures s != [] ==> (|EveryNth(s, step)| - 1) * step < |s| <= |EveryNth(s, step)| * step
    decreases |s|
  {
    var r := EveryNth(s, step);
    if s != [] && |s| > step {
      var t := s[step..];
      var rt := EveryNth(t, step);
      EveryNthLength(t, step);
      assert |r| == |rt| + 1;
      MulSucc(|rt| - 1, step);
      MulSucc(|rt|, step);
    } else if s != [] {
      assert |r| == 1;
    }
  }

  /** Point k of `iloc[::step]` is input point k*step. */
  lemma {:induction false} EveryNthAt<T>(s: seq<T>, step: nat, k: nat)
    requires step >= 1
    requires k < |EveryNth(s, step)|
    ensures k * step < |s| && EveryNth(s, step)[k] == s[k * step]
    decreases |s|
  {
    if k > 0 {
      var t := s[step..];
      EveryNthAt(t, step, k - 1);
      MulSucc(k - 1, step);
    }
  }

  /** With step 1 nothing is dropped. */
  lemma {:induction false} EveryFirstIsIdentity<T>(s: seq<T>)
    ensures EveryNth(s, 1) == s
    decreases |s|
  {
    if |s| > 1 {
      EveryFirstIsIdentity(s[1..]);
    }
  }

  /** The stride for `n` daily points: n // 200 above 200 points, n // 100 above 100, else none. */
  function SampleStep(n: nat): (step: nat)
    ensures step >= 1
  {
    if n > 200 then n / 200
    else if n > 100 then n / 100
    else 1
  }

  /** The sampled series: every `SampleStep`-th point above 100 points, the series itself up to 100. */
  function Downsample<T>(daily: seq<T>): (r: seq<T>)
    ensures |r| <= |daily|
    ensures daily != [] ==> r != [] && r[0] == daily[0]
  {
    if |daily| > 100 then EveryNth(daily, SampleStep(|daily|))
    else daily
  }

  /**
   * The sampled series has ⌈n/step⌉ points, point k being day k*step;
   * it starts with the first day.
   */
  lemma DownsampleShape<T>(daily: seq<T>)
    ensures var step, r := SampleStep(|daily|), Downsample(daily);
      && (daily != [] ==> (|r| - 1) * step < |daily| <= |r| * step)
      && (forall k :: 0 <= k < |r| ==> k * step < |daily| && r[k] == daily[k * step])
      && (daily != [] ==> r != [] && r[0] == daily[0])
  {
    var step, r := SampleStep(|daily|), Downsample(daily);
    if |daily| <= 100 {
      EveryFirstIsIdentity(daily);
    }
    assert r == EveryNth(daily, step);
    EveryNthLength(daily, step);
    forall k | 0 <= k < |r|
      ensures k * step < |daily| && r[k] == daily[k * step]
    {
      EveryNthAt(daily, step, k);
    }
    if daily != [] {
      EveryNthAt(daily, step, 0);
    }
  }

  /**
   * Up to 100 points the series is unchanged; from 101 to 199 the stride
   * is 1, so it is unchanged as well; at 200 it halves to 100 points.
   */
  lemma DownsampleSmall<T>(daily: seq<T>)
    ensures |daily| < 200 ==> Downsample(daily) == daily
    ensures |daily| == 200 ==> |Downsample(daily)| == 100
  {
    if 100 < |daily| < 200 {
      assert |daily| / 100 == 1;
      EveryFirstIsIdentity(daily);
    }
    if |daily| == 200 {
      EveryNthLength(daily, 2);
      var m := |Downsample(daily)|;
      assert (m - 1) * 2 < 200 <= m * 2;
    }
  }

  /** Above 200 points the sampled series keeps at least 200 and fewer than 400 points. */
  lemma DownsampleLargeBounds<T>(daily: seq<T>)
    requires |daily| > 200
    ensures 200 <= |Downsample(daily)| < 400
  {
    var n, step := |daily|, |daily| / 200;
    var m := |Downsample(daily)|;
    EveryNthLength(daily, step);
    assert 200 * step <= n <= 200 * step + 199;
    if m < 200 {
      MulMonotone(m, 199, step);
    }
    if m >= 400 {
      MulMonotone(399, m - 1, step);
    }
  }

  lemma MulMonotone(x: nat, y: nat, b: nat)
    requires x <= y
    ensures x * b <= y * b
  {
  }
}
