/**
 * Which submissions are compared: each index i is paired with its next two
 * successors i+1 and i+2 when they exist, row by row in index order.
 */
module Pairing {

  /** Indices of submission A and submission B of one comparison. */
  datatype Pair = Pair(first: nat, second: nat)

  function Min(x: int, y: int): int { if x <= y then x else y }

  /** The pairs (i, j) for j in range(i + 1, min(i + 3, n)). */
  function Row(i: nat, n: nat): (r: seq<Pair>)
    ensures |r| == (if i + 3 <= n then 2 else if i + 2 == n then 1 else 0)
    ensures forall k :: 0 <= k < |r| ==> r[k] == Pair(i, i + 1 + k)
  {
    if i + 2 < n then [Pair(i, i + 1), Pair(i, i + 2)]
    else if i + 1 < n then [Pair(i, i + 1)]
    else []
  }

  /** The pairs emitted by the rows of indices 0 .. i-1, in emission order. */
  function PairsBelow(i: nat, n: nat): seq<Pair>
  {
    if i == 0 then [] else PairsBelow(i - 1, n) + Row(i - 1, n)
  }

  /** All pairs emitted for n submissions. */
  function Pairs(n: nat): seq<Pair>
  {
    PairsBelow(n, n)
  }

  /** max(0, 2n - 3) */
  function PairCount(n: nat): nat
  {
    if n >= 2 then 2 * n - 3 else 0
  }

  /** Reference definition: the k-th pair is (k / 2, k / 2 + 1 + k % 2). */
  function PairAt(k: nat): Pair
  {
    Pair(k / 2, k / 2 + 1 + k % 2)
  }

  function ClosedForm(len: nat): seq<Pair>
  {
    seq(len, k requires 0 <= k < len => PairAt(k))
  }

  function BelowCount(i: nat, n: nat): nat
  {
    var c := Min(2 * i, 2 * n - 3);
    if c > 0 then c else 0
  }

  lemma ClosedFormSnoc(len: nat)
    ensures ClosedForm(len) + [PairAt(len)] == ClosedForm(len + 1)
  {
  }

  /** Row m, for m < n, continues the closed form where the rows below m end. */
  lemma RowClosedForm(m: nat, n: nat)
    requires m < n
    ensures ClosedForm(BelowCount(m, n)) + Row(m, n) == ClosedForm(BelowCount(m + 1, n))
  {
    var c := BelowCount(m, n);
    if m + 2 < n {
      assert c == 2 * m && BelowCount(m + 1, n) == c + 2;
      assert PairAt(c) == Pair(m, m + 1) && PairAt(c + 1) == Pair(m, m + 2);
      assert Row(m, n) == [PairAt(c), PairAt(c + 1)];
      ClosedFormSnoc(c);
      ClosedFormSnoc(c + 1);
      assert ClosedForm(c) + [PairAt(c), PairAt(c + 1)] == ClosedForm(c) + [PairAt(c)] + [PairAt(c + 1)];
    } else if m + 2 == n {
      assert c == 2 * m && BelowCount(m + 1, n) == c + 1;
      assert PairAt(c) == Pair(m, m + 1);
      assert Row(m, n) == [PairAt(c)];
      ClosedFormSnoc(c);
    } else {
      assert Row(m, n) == [];
      assert BelowCount(m + 1, n) == c;
    }
  }

  lemma {:induction false} PairsBelowClosedForm(i: nat, n: nat)
    requires i <= n
    ensures PairsBelow(i, n) == ClosedForm(BelowCount(i, n))
  {
    if i > 0 {
      PairsBelowClosedForm(i - 1, n);
      RowClosedForm(i - 1, n);
    }
  }

  /**
   * The pair loop emits max(0, 2n - 3) pairs, the k-th being
   * (k / 2, k / 2 + 1 + k % 2): (0,1), (0,2), (1,2), (1,3), ... and last (n-2, n-1).
   */
  lemma PairsClosedForm(n: nat)
    ensures |Pairs(n)| == PairCount(n)
    ensures Pairs(n) == ClosedForm(PairCount(n))
  {
    PairsBelowClosedForm(n, n);
    assert BelowCount(n, n) == PairCount(n);
  }

  /** Pair k of the pair loop, by the closed form. */
  lemma PairsAt(n: nat, k: nat)
    requires k < PairCount(n)
    ensures |Pairs(n)| == PairCount(n)
    ensures Pairs(n)[k] == PairAt(k)
    ensures PairAt(k).second < n
  {
    PairsClosedForm(n);
  }

  /** The number of pairs, without their closed form. */
  lemma PairsLength(n: nat)
    ensures |Pairs(n)| == PairCount(n)
  {
    PairsClosedForm(n);
  }

  /** Ten submissions give seventeen comparisons. */
  lemma TenSubmissionsSeventeenPairs()
    ensures |Pairs(10)| == 17
  {
    PairsClosedForm(10);
  }

  /** Exactly the pairs (i, j) with i < j <= i + 2 and j < n are emitted. */
  lemma PairsMembers(n: nat, p: Pair)
    ensures p in Pairs(n) <==> p.first < p.second <= p.first + 2 && p.second < n
  {
    PairsClosedForm(n);
    var ps := Pairs(n);
    if p in ps {
      var k :| 0 <= k < |ps| && ps[k] == p;
      assert p == PairAt(k);
    }
    if p.first < p.second <= p.first + 2 && p.second < n {
      var k := 2 * p.first + (p.second - p.first - 1);
      assert k / 2 == p.first && k % 2 == p.second - p.first - 1;
      assert k < PairCount(n);
      assert ps[k] == p;
    }
  }

  predicate LexLess(p: Pair, q: Pair)
  {
    p.first < q.first || (p.first == q.first && p.second < q.second)
  }

  /** The pairs come in strictly increasing lexicographic order, hence without repetition. */
  lemma PairsSorted(n: nat)
    ensures forall x, y :: 0 <= x < y < |Pairs(n)| ==> LexLess(Pairs(n)[x], Pairs(n)[y])
  {
    PairsClosedForm(n);
    forall x, y | 0 <= x < y < |Pairs(n)|
      ensures LexLess(Pairs(n)[x], Pairs(n)[y])
    {
      assert Pairs(n)[x] == PairAt(x) && Pairs(n)[y] == PairAt(y);
    }
  }

  /** Every index i < n - 2 is the earlier member of exactly the pairs (i, i+1) and (i, i+2). */
  lemma PairsCoverage(n: nat, i: nat)
    requires i + 2 < n
    ensures |Pairs(n)| == PairCount(n)
    ensures Pairs(n)[2 * i] == Pair(i, i + 1)
    ensures Pairs(n)[2 * i + 1] == Pair(i, i + 2)
    ensures forall k :: 0 <= k < |Pairs(n)| && Pairs(n)[k].first == i ==> k == 2 * i || k == 2 * i + 1
  {
    PairsClosedForm(n);
    assert PairAt(2 * i) == Pair(i, i + 1);
    assert PairAt(2 * i + 1) == Pair(i, i + 2);
    forall k | 0 <= k < |Pairs(n)| && Pairs(n)[k].first == i
      ensures k == 2 * i || k == 2 * i + 1
    {
      assert Pairs(n)[k] == PairAt(k);
    }
  }

  /** The rows emitted so far are a prefix of all rows. */
  lemma {:induction false} PairsBelowPrefix(i: nat, n: nat)
    requires i <= n
    ensures PairsBelow(i, n) <= Pairs(n)
    decreases n - i
  {
    if i < n {
      PairsBelowPrefix(i + 1, n);
      assert PairsBelow(i + 1, n) == PairsBelow(i, n) + Row(i, n);
    }
  }

  /** The pairs emitted before pair (i, i + 1 + m): the rows below i, then m pairs of row i. */
  function Emitted(i: nat, n: nat, m: nat): seq<Pair>
    requires m <= |Row(i, n)|
  {
    PairsBelow(i, n) + Row(i, n)[..m]
  }

  /** Emitting the next pair of row i appends it. */
  lemma EmittedStep(i: nat, n: nat, m: nat)
    requires m < |Row(i, n)|
    ensures Emitted(i, n, m + 1) == Emitted(i, n, m) + [Pair(i, i + 1 + m)]
  {
    assert Row(i, n)[..m + 1] == Row(i, n)[..m] + [Pair(i, i + 1 + m)];
  }

  /** Row i holds the successors i + 1 .. min(i + 3, n) - 1; it starts after the rows below and ends where row i + 1 starts. */
  lemma EmittedRow(i: nat, n: nat)
    requires i < n
    ensures |Row(i, n)| == Min(i + 3, n) - (i + 1)
    ensures Emitted(i, n, 0) == PairsBelow(i, n)
    ensures Emitted(i, n, |Row(i, n)|) == PairsBelow(i + 1, n)
  {
    assert Row(i, n)[..|Row(i, n)|] == Row(i, n);
  }

  /** Mid-row, the pairs emitted so far are still a prefix of all pairs. */
  lemma PartialRowPrefix(i: nat, n: nat, m: nat)
    requires i < n && m <= |Row(i, n)|
    ensures Emitted(i, n, m) <= Pairs(n)
  {
    PairsBelowPrefix(i + 1, n);
    assert PairsBelow(i + 1, n) == PairsBelow(i, n) + Row(i, n);
    assert (PairsBelow(i, n) + Row(i, n)[..m]) == (PairsBelow(i, n) + Row(i, n))[..|PairsBelow(i, n)| + m];
  }

  /** Every emitted pair indexes two submissions. */
  lemma PairsInRange(n: nat)
    ensures forall k :: 0 <= k < |Pairs(n)| ==> Pairs(n)[k].first < Pairs(n)[k].second < n
  {
    forall k | 0 <= k < |Pairs(n)|
      ensures Pairs(n)[k].first < Pairs(n)[k].second < n
    {
      PairsMembers(n, Pairs(n)[k]);
    }
  }
}
