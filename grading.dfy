/**
 * The grade pass: a noisy predicted grade for each ground-truth grade, and
 * the 11-bucket probability distribution centred on the predicted grade.
 */
module Grading {

  /** A grade on the 0..10 scale; also an index into the distribution. */
  type Grade = g: int | 0 <= g <= 10

  /** Number of buckets of a grade distribution, one per grade 0..10. */
  const Buckets: nat := 11

  function Min(x: int, y: int): int { if x <= y then x else y }
  function Max(x: int, y: int): int { if x >= y then x else y }

  /** max(0, min(10, truth + noise)) */
  function PredictedGrade(truth: int, noise: int): (p: Grade)
    ensures 0 <= truth + noise <= 10 ==> p == truth + noise
    ensures 0 <= truth <= 10 && -1 <= noise <= 1 ==> -1 <= p - truth <= 1
    ensures truth + noise < 0 ==> p == 0
    ensures truth + noise > 10 ==> p == 10
  {
    Max(0, Min(10, truth + noise))
  }

  /** The mass on the predicted grade: 0.7 plus the 0.15 of each missing neighbour. */
  function PeakMass(p: Grade): real
  {
    0.7 + (if p == 0 then 0.15 else 0.0) + (if p == 10 then 0.15 else 0.0)
  }

  /**
   * Reference definition of the distribution for predicted grade p: the peak
   * mass on p, 0.15 on each neighbour inside 0..10, 0 elsewhere.
   */
  function Distribution(p: Grade): (d: seq<real>)
    ensures |d| == Buckets
    ensures forall k :: 0 <= k < |d| ==> d[k] >= 0.0
    ensures forall k :: 0 <= k < |d| && k != p - 1 && k != p && k != p + 1 ==> d[k] == 0.0
    ensures forall k :: 0 <= k < |d| && (k == p - 1 || k == p + 1) ==> d[k] == 0.15
    ensures d[p] >= 0.7
    ensures d[p] == 0.7 <==> 0 < p < 10
    ensures d[p] == 0.85 <==> p == 0 || p == 10
    ensures forall k :: 0 <= k < |d| && k != p ==> d[k] < d[p]
  {
    seq(Buckets, k => if k == p then PeakMass(p) else if k == p - 1 || k == p + 1 then 0.15 else 0.0)
  }

  function Sum(s: seq<real>): real
  {
    if s == [] then 0.0 else s[0] + Sum(s[1..])
  }

  lemma {:induction false} SumZeros(n: nat)
    ensures Sum(seq(n, _ => 0.0)) == 0.0
  {
    if n > 0 {
      var z := seq(n, _ => 0.0);
      assert z[1..] == seq(n - 1, _ => 0.0);
      SumZeros(n - 1);
    }
  }

  /** Overwriting one entry changes the sum by the difference. */
  lemma {:induction false} SumUpdate(s: seq<real>, k: nat, v: real)
    requires k < |s|
    ensures Sum(s[k := v]) == Sum(s) - s[k] + v
  {
    if k > 0 {
      assert s[k := v][1..] == s[1..][k - 1 := v];
      SumUpdate(s[1..], k - 1, v);
    } else {
      assert s[k := v][1..] == s[1..];
    }
  }

  /** The distribution sums to exactly 1. */
  lemma DistributionSumsToOne(p: Grade)
    ensures Sum(Distribution(p)) == 1.0
  {
    var d := seq(Buckets, _ => 0.0);
    SumZeros(Buckets);
    SumUpdate(d, p, 0.7);
    d := d[p := 0.7];
    if p > 0 {
      SumUpdate(d, p - 1, 0.15);
      d := d[p - 1 := 0.15];
    } else {
      SumUpdate(d, p, d[p] + 0.15);
      d := d[p := d[p] + 0.15];
    }
    if p < 10 {
      SumUpdate(d, p + 1, 0.15);
      d := d[p + 1 := 0.15];
    } else {
      SumUpdate(d, p, d[p] + 0.15);
      d := d[p := d[p] + 0.15];
    }
    assert d == Distribution(p);
  }

  /**
   * Builds the distribution in an 11-slot buffer: 0.7 on p, 0.15 on each
   * neighbour, and a neighbour's 0.15 added to p instead when that
   * neighbour lies outside 0..10.
   */
  method BuildDistribution(p: Grade) returns (dist: seq<real>)
    ensures dist == Distribution(p)
    ensures Sum(dist) == 1.0
  {
    var d := new real[Buckets](_ => 0.0);
    d[p] := 0.7;
    if p > 0 {
      d[p - 1] := 0.15;
    } else {
      d[p] := d[p] + 0.15;
    }
    if p < 10 {
      d[p + 1] := 0.15;
    } else {
      d[p] := d[p] + 0.15;
    }
    dist := d[..];
    assert dist == Distribution(p);
    DistributionSumsToOne(p);
  }
}
