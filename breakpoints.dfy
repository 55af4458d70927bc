/**
 * Ordered breakpoint tables: a list of upper bounds, strictly increasing,
 * scanned in ascending order with `value <= bound`; a value above every
 * bound falls into the open-ended top band, numbered |t|.
 */
module Breakpoints {

  predicate StrictlyIncreasing(t: seq<real>)
  {
    forall i, j :: 0 <= i < j < |t| ==> t[i] < t[j]
  }

  /** The first band whose upper bound is at least `v`, or |t| when there is none. */
  function ScanLevel(t: seq<real>, v: real): (k: nat)
    ensures k <= |t|
    ensures forall i :: 0 <= i < k ==> t[i] < v
    ensures k < |t| ==> v <= t[k]
  {
    if t == [] then 0
    else if v <= t[0] then 0
    else
      var k' := ScanLevel(t[1..], v);
      assert forall i :: 1 <= i < k' + 1 ==> t[i] == t[1..][i - 1];
      1 + k'
  }

  /** Band `k` is the half-open interval (t[k-1], t[k]]; band 0 has no lower end, band |t| no upper end. */
  predicate InLevel(t: seq<real>, v: real, k: nat)
  {
    k <= |t| && (k == 0 || t[k - 1] < v) && (k == |t| || v <= t[k])
  }

  /** Over a strictly increasing table every value lies in exactly one band, the one the scan returns. */
  lemma LevelUnique(t: seq<real>, v: real, k: nat)
    requires StrictlyIncreasing(t)
    ensures InLevel(t, v, k) <==> k == ScanLevel(t, v)
  {
  }

  /** A value exactly on a bound belongs to the band that bound closes. */
  lemma BoundClosesItsBand(t: seq<real>, k: nat)
    requires StrictlyIncreasing(t)
    requires k < |t|
    ensures ScanLevel(t, t[k]) == k
  {
    LevelUnique(t, t[k], k);
  }

  /** A value at or below the first bound is in band 0; one above the last is in the top band. */
  lemma ScanExtremes(t: seq<real>, v: real)
    requires |t| > 0
    ensures v <= t[0] ==> ScanLevel(t, v) == 0
    ensures StrictlyIncreasing(t) && v > t[|t| - 1] ==> ScanLevel(t, v) == |t|
  {
    if StrictlyIncreasing(t) && v > t[|t| - 1] {
      LevelUnique(t, v, |t|);
    }
  }

  /** The scan is monotone: a larger value never lands in a lower band. */
  lemma ScanMonotone(t: seq<real>, v: real, w: real)
    requires v <= w
    ensures ScanLevel(t, v) <= ScanLevel(t, w)
  {
  }
}
