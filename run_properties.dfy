/**
 * What one generation run produces, read off the artifact content Run:
 * how many records of each kind, what each grade result and comparison
 * holds, that identifiers are unique, how accuracy acts at its extremes,
 * and that the output depends on nothing but the draws the run consumes.
 */
module RunProperties {
  import opened Judging
  import opened Draws
  import opened Grading
  import opened Pairing
  import opened Ids
  import opened Artifact
  import opened Synthesis

  // ---------------------------------------------------------------------------
  // Positional access into the back-recursive collections

  lemma {:induction false} GradeCallsAt(n: nat, timestamp: int, i: nat)
    requires i < n
    ensures GradeCalls(n, timestamp)[i] == GradeCall(i, timestamp)
  {
    if i < n - 1 {
      GradeCallsAt(n - 1, timestamp, i);
    }
  }

  lemma {:induction false} ComparisonCallsAt(count: nat, timestamp: int, k: nat)
    requires k < count
    ensures ComparisonCalls(count, timestamp)[k] == ComparisonCall(k, timestamp)
  {
    if k < count - 1 {
      ComparisonCallsAt(count - 1, timestamp, k);
    }
  }

  lemma {:induction false} AnchorCallsAt(m: nat, timestamp: int, i: nat)
    requires i < m
    ensures AnchorCalls(m, timestamp)[i] == AnchorCall(i, timestamp)
  {
    if i < m - 1 {
      AnchorCallsAt(m - 1, timestamp, i);
    }
  }

  lemma {:induction false} AnchorComparisonsAt(subs: seq<Submission>, m: nat, timestamp: int, i: nat)
    requires m <= |subs| && i < m
    ensures AnchorComparisons(subs, m, timestamp)[i] == AnchorComparison(subs[i], i, timestamp)
  {
    if i < m - 1 {
      AnchorComparisonsAt(subs, m - 1, timestamp, i);
    }
  }

  /** Grade result i is made from draw i, which is a randint. */
  lemma {:induction false} GradeResultsAt(subs: seq<Submission>, m: nat, timestamp: int, draws: seq<Draw>, i: nat)
    requires m <= |subs| && Supplies(draws, GradeKinds(m)) && i < m
    ensures draws[i].RandIntDraw?
    ensures GradeResults(subs, m, timestamp, draws)[i] == GradeRecord(subs[i], i, timestamp, draws[i].noise)
  {
    assert KindOf(draws[i]) == GradeKinds(m)[i];
    if i < m - 1 {
      assert GradeKinds(m - 1) <= GradeKinds(m);
      SuppliesPrefix(draws, GradeKinds(m - 1), GradeKinds(m));
      GradeResultsAt(subs, m - 1, timestamp, draws, i);
    }
  }

  /**
   * The draws of pair k of ps follow those of the pairs before it: its
   * kinds come right after theirs among the kinds of ps.
   */
  lemma {:induction false} ComparisonKindsAt(subs: seq<Submission>, ps: seq<Pair>, k: nat)
    requires ValidPairs(ps, |subs|) && k < |ps|
    ensures ValidPairs(ps[..k], |subs|)
    ensures ComparisonKinds(subs, ps[..k]) + PairKinds(subs[ps[k].first].grade, subs[ps[k].second].grade)
            <= ComparisonKinds(subs, ps)
    decreases |ps|
  {
    var init := ps[..|ps| - 1];
    assert ValidPairs(init, |subs|);
    if k == |ps| - 1 {
      assert ps[..k] == init;
    } else {
      assert init[..k] == ps[..k];
      assert init[k] == ps[k];
      ComparisonKindsAt(subs, init, k);
    }
  }

  /** A stream that supplies the kinds of ps supplies pair k from where the pairs before it end. */
  lemma SuppliesAt(subs: seq<Submission>, ps: seq<Pair>, draws: seq<Draw>, k: nat)
    requires ValidPairs(ps, |subs|) && Supplies(draws, ComparisonKinds(subs, ps)) && k < |ps|
    ensures ValidPairs(ps[..k], |subs|)
    ensures Supplies(draws, ComparisonKinds(subs, ps[..k]))
    ensures Supplies(draws[|ComparisonKinds(subs, ps[..k])|..], PairKinds(subs[ps[k].first].grade, subs[ps[k].second].grade))
  {
    var before, here := ComparisonKinds(subs, ps[..k]), PairKinds(subs[ps[k].first].grade, subs[ps[k].second].grade);
    ComparisonKindsAt(subs, ps, k);
    SuppliesPrefix(draws, before + here, ComparisonKinds(subs, ps));
    SuppliesSplit(draws, before, here);
  }

  /** Comparison k of the pair pass over ps is made from the draws that follow those of the pairs before it. */
  lemma {:induction false} PairComparisonsAt(subs: seq<Submission>, ps: seq<Pair>, accuracy: real,
                                             timestamp: int, draws: seq<Draw>, k: nat)
    requires ValidPairs(ps, |subs|) && Supplies(draws, ComparisonKinds(subs, ps)) && k < |ps|
    ensures ValidPairs(ps[..k], |subs|) && Supplies(draws, ComparisonKinds(subs, ps[..k]))
    ensures Supplies(draws[|ComparisonKinds(subs, ps[..k])|..], PairKinds(subs[ps[k].first].grade, subs[ps[k].second].grade))
    ensures PairComparisons(subs, ps, accuracy, timestamp, draws)[k] ==
            SynthComparison(subs[ps[k].first], subs[ps[k].second], k, accuracy, timestamp,
                            draws[|ComparisonKinds(subs, ps[..k])|..])
    decreases |ps|
  {
    SuppliesAt(subs, ps, draws, k);
    var init := ps[..|ps| - 1];
    var p := ps[|ps| - 1];
    assert ValidPairs(init, |subs|);
    SuppliesSplit(draws, ComparisonKinds(subs, init), PairKinds(subs[p.first].grade, subs[p.second].grade));
    if k == |ps| - 1 {
      assert ps[..k] == init;
    } else {
      assert init[..k] == ps[..k];
      assert init[k] == ps[k];
      PairComparisonsAt(subs, init, accuracy, timestamp, draws, k);
    }
  }

  // ---------------------------------------------------------------------------
  // The parts of a run

  /** The draws of a run supply the grade pass, and what follows supplies the pair pass. */
  lemma RunSupplies(subs: seq<Submission>, draws: seq<Draw>)
    requires Supplies(draws, RequiredKinds(subs))
    ensures Supplies(draws, GradeKinds(|subs|))
    ensures ValidPairs(Pairs(|subs|), |subs|)
    ensures Supplies(draws[|subs|..], ComparisonKinds(subs, Pairs(|subs|)))
  {
    PairsInRange(|subs|);
    SuppliesSplit(draws, GradeKinds(|subs|), ComparisonKinds(subs, Pairs(|subs|)));
  }

  /**
   * One grade result per submission; 2n - 3 pairwise comparisons and then
   * the anchors, 2n comparisons in all from three submissions on, 20 for
   * ten; one call record per grade result and per comparison.
   */
  lemma RunCounts(subs: seq<Submission>, accuracy: real, timestamp: int, draws: seq<Draw>)
    requires Supplies(draws, RequiredKinds(subs))
    ensures |Run(subs, accuracy, timestamp, draws).grades| == |subs|
    ensures |Run(subs, accuracy, timestamp, draws).comparisons| == |Pairs(|subs|)| + AnchorsEmitted(|subs|)
    ensures |Run(subs, accuracy, timestamp, draws).calls| ==
            |subs| + |Run(subs, accuracy, timestamp, draws).comparisons|
    ensures |subs| >= AnchorCount ==> |Run(subs, accuracy, timestamp, draws).comparisons| == 2 * |subs|
    ensures |subs| == 10 ==> |Run(subs, accuracy, timestamp, draws).comparisons| == 20
  {
    PairsLength(|subs|);
  }

  /**
   * The call records of a run: the grade calls, then the pairwise
   * comparison calls, then the anchor calls, each numbered from 0 and
   * stamped at its pass's offset plus one second per record.
   */
  lemma RunCall(n: nat, timestamp: int, j: nat)
    requires j < |RunCalls(n, timestamp)|
    ensures RunCalls(n, timestamp)[j] ==
            if j < n then GradeCall(j, timestamp)
            else if j < n + PairCount(n) then ComparisonCall(j - n, timestamp)
            else AnchorCall(j - n - PairCount(n), timestamp)
  {
    PairsLength(n);
    var grades, pairwise, anchors := GradeCalls(n, timestamp), ComparisonCalls(PairCount(n), timestamp),
                                     AnchorCalls(AnchorsEmitted(n), timestamp);
    assert RunCalls(n, timestamp) == grades + pairwise + anchors;
    if j < n {
      GradeCallsAt(n, timestamp, j);
      assert (grades + pairwise + anchors)[j] == grades[j];
    } else if j < n + PairCount(n) {
      ComparisonCallsAt(PairCount(n), timestamp, j - n);
      assert (grades + pairwise + anchors)[j] == pairwise[j - n];
    } else {
      AnchorCallsAt(AnchorsEmitted(n), timestamp, j - n - PairCount(n));
      assert (grades + pairwise + anchors)[j] == anchors[j - n - PairCount(n)];
    }
  }

  // ---------------------------------------------------------------------------
  // Grade results

  /**
   * Grade result i belongs to submission i and to call record i, is the
   * clamped noisy grade, within one of a ground truth in range, and carries
   * a distribution of 11 non-negative masses summing to 1 whose unique
   * maximum is at the predicted grade.
   */
  lemma RunGrade(subs: seq<Submission>, timestamp: int, draws: seq<Draw>, i: nat)
    requires Supplies(draws, RequiredKinds(subs)) && i < |subs|
    ensures draws[i].RandIntDraw?
    ensures var g := RunGrades(subs, timestamp, draws)[i];
            && g.submissionId == subs[i].id
            && g.grade == PredictedGrade(subs[i].grade, draws[i].noise)
            && 0 <= g.grade <= 10
            && (0 <= subs[i].grade <= 10 ==> -1 <= g.grade - subs[i].grade <= 1)
    ensures var g := RunGrades(subs, timestamp, draws)[i];
            && 0 <= g.grade <= 10
            && g.distribution == Distribution(g.grade)
            && |g.distribution| == Buckets
            && Sum(g.distribution) == 1.0
    ensures var g := RunGrades(subs, timestamp, draws)[i];
            forall k :: 0 <= k < |g.distribution| ==> 0.0 <= g.distribution[k] && (k != g.grade ==> g.distribution[k] < g.distribution[g.grade])
    ensures |subs| <= |RunCalls(|subs|, timestamp)|
    ensures var g, call := RunGrades(subs, timestamp, draws)[i], RunCalls(|subs|, timestamp)[i];
            call.id == GradeCallId(i) && g.callIds == [call.id] && g.gradedAt == call.timestamp + 500
  {
    var n := |subs|;
    RunSupplies(subs, draws);
    GradeResultsAt(subs, n, timestamp, draws, i);
    RunCall(n, timestamp, i);
    DistributionSumsToOne(PredictedGrade(subs[i].grade, draws[i].noise));
  }

  // ---------------------------------------------------------------------------
  // Pairwise comparisons

  /** The draws that pairwise comparison k of a run starts at. */
  function PairDraws(subs: seq<Submission>, draws: seq<Draw>, k: nat): (d: seq<Draw>)
    requires Supplies(draws, RequiredKinds(subs)) && k < PairCount(|subs|)
    ensures PairAt(k).second < |subs|
    ensures Supplies(d, PairKinds(subs[PairAt(k).first].grade, subs[PairAt(k).second].grade))
  {
    var n := |subs|;
    RunSupplies(subs, draws);
    PairsAt(n, k);
    SuppliesAt(subs, Pairs(n), draws[n..], k);
    draws[n..][|ComparisonKinds(subs, Pairs(n)[..k])|..]
  }

  /** Pairwise comparison k of a run is made from pair k and the draws it starts at. */
  lemma PairwiseAt(subs: seq<Submission>, accuracy: real, timestamp: int, draws: seq<Draw>, k: nat)
    requires Supplies(draws, RequiredKinds(subs)) && k < PairCount(|subs|)
    ensures PairAt(k).second < |subs|
    ensures RunComparisons(subs, accuracy, timestamp, draws)[k] ==
            SynthComparison(subs[PairAt(k).first], subs[PairAt(k).second], k, accuracy, timestamp,
                            PairDraws(subs, draws, k))
  {
    var n := |subs|;
    RunSupplies(subs, draws);
    PairsAt(n, k);
    PairComparisonsAt(subs, Pairs(n), accuracy, timestamp, draws[n..], k);
  }

  /**
   * Pairwise comparison k of a run compares the submissions of pair k,
   * (k / 2, k / 2 + 1 + k % 2), is numbered k, belongs to call record n + k,
   * and has as confidence the pair's uniform() draw, in [0.6, 0.95]; its
   * justification names the winner.
   */
  lemma RunPairwise(subs: seq<Submission>, accuracy: real, timestamp: int, draws: seq<Draw>, k: nat)
    requires Supplies(draws, RequiredKinds(subs)) && k < PairCount(|subs|)
    ensures PairAt(k).second < |subs|
    ensures var c := RunComparisons(subs, accuracy, timestamp, draws)[k];
            && c.id == ComparisonId(k)
            && c.submissionA == subs[PairAt(k).first].id && c.submissionB == subs[PairAt(k).second].id
            && 0.6 <= c.confidence <= 0.95
    ensures var a, b, d := subs[PairAt(k).first], subs[PairAt(k).second], PairDraws(subs, draws, k);
            var c := RunComparisons(subs, accuracy, timestamp, draws)[k];
            c.confidence == ConfidenceDraw(a, b, d) && c.justification == Justification(c.winner)
    ensures |subs| + k < |RunCalls(|subs|, timestamp)|
    ensures var c, call := RunComparisons(subs, accuracy, timestamp, draws)[k], RunCalls(|subs|, timestamp)[|subs| + k];
            call.id == ComparisonCallId(k) && c.callIds == [call.id] && c.comparedAt == call.timestamp + 500
  {
    PairwiseAt(subs, accuracy, timestamp, draws, k);
    RunCall(|subs|, timestamp, |subs| + k);
  }

  /**
   * The winner of pairwise comparison k is the ground-truth winner exactly
   * when its random() draw is below the accuracy, and its flip otherwise;
   * on differing grades it is "a" exactly when grade a is higher and the
   * draw is below the accuracy, or grade a is lower and it is not. Since
   * draws lie in [0, 1), an accuracy of at least 1 always keeps the
   * ground truth and one of at most 0 always flips it.
   */
  lemma RunWinner(subs: seq<Submission>, accuracy: real, timestamp: int, draws: seq<Draw>, k: nat)
    requires Supplies(draws, RequiredKinds(subs)) && k < PairCount(|subs|)
    ensures PairAt(k).second < |subs|
    ensures var a, b, d := subs[PairAt(k).first], subs[PairAt(k).second], PairDraws(subs, draws, k);
            var w := RunComparisons(subs, accuracy, timestamp, draws)[k].winner;
            && (w == CorrectWinner(a, b, d) <==> AccuracyDraw(a, b, d) < accuracy)
            && (w != CorrectWinner(a, b, d) ==> w == Flip(CorrectWinner(a, b, d)))
            && (a.grade != b.grade ==> (w == A <==> (a.grade > b.grade <==> AccuracyDraw(a, b, d) < accuracy)))
            && (accuracy >= 1.0 ==> w == CorrectWinner(a, b, d))
            && (accuracy <= 0.0 ==> w == Flip(CorrectWinner(a, b, d)))
  {
    PairwiseAt(subs, accuracy, timestamp, draws, k);
  }

  // ---------------------------------------------------------------------------
  // Anchor comparisons

  /**
   * After the pairwise comparisons come the anchors: anchor i compares
   * submission i with the sentinel, is won by side a with confidence
   * 0.85, and belongs to the call record after the pairwise ones.
   */
  lemma RunAnchor(subs: seq<Submission>, accuracy: real, timestamp: int, draws: seq<Draw>, i: nat)
    requires Supplies(draws, RequiredKinds(subs)) && i < AnchorsEmitted(|subs|)
    ensures var c := RunComparisons(subs, accuracy, timestamp, draws)[PairCount(|subs|) + i];
            && c.id == AnchorId(i)
            && c.submissionA == subs[i].id && c.submissionB == Sentinel
            && c.winner == A && Label(c.winner) == "a" && c.confidence == 0.85
    ensures var c, call := RunComparisons(subs, accuracy, timestamp, draws)[PairCount(|subs|) + i],
                           RunCalls(|subs|, timestamp)[|subs| + PairCount(|subs|) + i];
            call.id == AnchorCallId(i) && c.callIds == [call.id] && c.comparedAt == call.timestamp + 500
  {
    var n := |subs|;
    AnchorAt(subs, accuracy, timestamp, draws, i);
    RunCall(n, timestamp, n + PairCount(n) + i);
    assert RunCalls(n, timestamp)[n + PairCount(n) + i] == AnchorCall(i, timestamp);
  }

  /** The comparison after the pairwise ones and i anchors is anchor i. */
  lemma AnchorAt(subs: seq<Submission>, accuracy: real, timestamp: int, draws: seq<Draw>, i: nat)
    requires Supplies(draws, RequiredKinds(subs)) && i < AnchorsEmitted(|subs|)
    ensures RunComparisons(subs, accuracy, timestamp, draws)[PairCount(|subs|) + i] ==
            AnchorComparison(subs[i], i, timestamp)
  {
    var n := |subs|;
    var pairwise := RunComparisonsParts(subs, accuracy, timestamp, draws);
    AnchorComparisonsAt(subs, AnchorsEmitted(n), timestamp, i);
    assert (pairwise + AnchorComparisons(subs, AnchorsEmitted(n), timestamp))[PairCount(n) + i] ==
           AnchorComparisons(subs, AnchorsEmitted(n), timestamp)[i];
  }

  /** The comparisons of a run are PairCount(n) pairwise ones followed by the anchors. */
  lemma RunComparisonsParts(subs: seq<Submission>, accuracy: real, timestamp: int, draws: seq<Draw>)
      returns (pairwise: seq<Comparison>)
    requires Supplies(draws, RequiredKinds(subs))
    ensures |pairwise| == PairCount(|subs|)
    ensures RunComparisons(subs, accuracy, timestamp, draws) ==
            pairwise + AnchorComparisons(subs, AnchorsEmitted(|subs|), timestamp)
  {
    var n := |subs|;
    RunSupplies(subs, draws);
    PairsLength(n);
    pairwise := PairComparisons(subs, Pairs(n), accuracy, timestamp, draws[n..]);
  }

  // ---------------------------------------------------------------------------
  // Identifiers

  predicate UniqueComparisonIds(cs: seq<Comparison>)
  {
    forall x, y :: 0 <= x < y < |cs| ==> cs[x].id != cs[y].id
  }

  predicate UniqueCallIds(cs: seq<CallRecord>)
  {
    forall x, y :: 0 <= x < y < |cs| ==> cs[x].id != cs[y].id
  }

  /** Comparison k of a run is comp_k when pairwise, and ext_comp_i for anchor i. */
  lemma RunComparisonId(subs: seq<Submission>, accuracy: real, timestamp: int, draws: seq<Draw>, k: nat)
    requires Supplies(draws, RequiredKinds(subs)) && k < |RunComparisons(subs, accuracy, timestamp, draws)|
    ensures RunComparisons(subs, accuracy, timestamp, draws)[k].id ==
            if k < PairCount(|subs|) then ComparisonId(k) else AnchorId(k - PairCount(|subs|))
  {
    if k < PairCount(|subs|) {
      PairwiseAt(subs, accuracy, timestamp, draws, k);
    } else {
      RunAnchor(subs, accuracy, timestamp, draws, k - PairCount(|subs|));
    }
  }

  /** Distinct positions of the comparisons of a run carry distinct identifiers. */
  lemma ComparisonIdsDiffer(subs: seq<Submission>, accuracy: real, timestamp: int, draws: seq<Draw>, x: nat, y: nat)
    requires Supplies(draws, RequiredKinds(subs))
    requires x < y < |RunComparisons(subs, accuracy, timestamp, draws)|
    ensures RunComparisons(subs, accuracy, timestamp, draws)[x].id != RunComparisons(subs, accuracy, timestamp, draws)[y].id
  {
    var p := PairCount(|subs|);
    RunComparisonId(subs, accuracy, timestamp, draws, x);
    RunComparisonId(subs, accuracy, timestamp, draws, y);
    if y < p {
      NumberedInjective(ComparisonPrefix, x, y);
    } else if x < p {
      ComparisonIdsDistinct(x, y - p);
    } else {
      NumberedInjective(AnchorPrefix, x - p, y - p);
    }
  }

  /** The identifier of call record j of a run on n submissions. */
  function CallIdAt(n: nat, j: nat): string
  {
    if j < n then GradeCallId(j)
    else if j < n + PairCount(n) then ComparisonCallId(j - n)
    else AnchorCallId(j - n - PairCount(n))
  }

  /** Call identifiers of one pass differ when their positions do. */
  lemma CallIdsWithinPass(n: nat, x: nat, y: nat)
    requires x < y
    requires (y < n) || (n <= x && y < n + PairCount(n)) || (n + PairCount(n) <= x)
    ensures CallIdAt(n, x) != CallIdAt(n, y)
  {
    var p := PairCount(n);
    if y < n {
      NumberedInjective(GradeCallPrefix, x, y);
    } else if y < n + p {
      NumberedInjective(ComparisonCallPrefix, x - n, y - n);
    } else {
      NumberedInjective(AnchorCallPrefix, x - n - p, y - n - p);
    }
  }

  /** Call identifiers of different passes differ. */
  lemma CallIdsAcrossPasses(n: nat, x: nat, y: nat)
    requires x < y
    requires (x < n && n <= y) || (x < n + PairCount(n) && n + PairCount(n) <= y)
    ensures CallIdAt(n, x) != CallIdAt(n, y)
  {
    var p := PairCount(n);
    if x < n && y < n + p {
      CallIdsDistinct(x, y - n, 0);
    } else if x < n {
      CallIdsDistinct(x, 0, y - n - p);
    } else {
      CallIdsDistinct(0, x - n, y - n - p);
    }
  }

  /** Call identifiers at distinct positions differ. */
  lemma CallIdAtInjective(n: nat, x: nat, y: nat)
    requires x < y
    ensures CallIdAt(n, x) != CallIdAt(n, y)
  {
    var p := PairCount(n);
    if (y < n) || (n <= x && y < n + p) || (n + p <= x) {
      CallIdsWithinPass(n, x, y);
    } else {
      CallIdsAcrossPasses(n, x, y);
    }
  }

  /** Distinct positions of the call records of a run carry distinct identifiers. */
  lemma CallIdsDiffer(n: nat, timestamp: int, x: nat, y: nat)
    requires x < y < |RunCalls(n, timestamp)|
    ensures RunCalls(n, timestamp)[x].id != RunCalls(n, timestamp)[y].id
  {
    RunCall(n, timestamp, x);
    RunCall(n, timestamp, y);
    assert RunCalls(n, timestamp)[x].id == CallIdAt(n, x);
    assert RunCalls(n, timestamp)[y].id == CallIdAt(n, y);
    CallIdAtInjective(n, x, y);
  }

  /**
   * No two comparisons and no two call records of a run share an
   * identifier: the counters are consecutive and the prefixes of the
   * passes differ.
   */
  lemma RunIdsUnique(subs: seq<Submission>, accuracy: real, timestamp: int, draws: seq<Draw>)
    requires Supplies(draws, RequiredKinds(subs))
    ensures UniqueComparisonIds(Run(subs, accuracy, timestamp, draws).comparisons)
    ensures UniqueCallIds(Run(subs, accuracy, timestamp, draws).calls)
  {
    var cs := RunComparisons(subs, accuracy, timestamp, draws);
    forall x, y | 0 <= x < y < |cs|
      ensures cs[x].id != cs[y].id
    {
      ComparisonIdsDiffer(subs, accuracy, timestamp, draws, x, y);
    }
    var calls := RunCalls(|subs|, timestamp);
    forall x, y | 0 <= x < y < |calls|
      ensures calls[x].id != calls[y].id
    {
      CallIdsDiffer(|subs|, timestamp, x, y);
    }
  }

  // ---------------------------------------------------------------------------
  // Draws

  /** Number of pairs in ps whose two submissions have the same grade. */
  function TieCount(subs: seq<Submission>, ps: seq<Pair>): nat
    requires ValidPairs(ps, |subs|)
    decreases |ps|
  {
    if ps == [] then 0
    else
      var p := ps[|ps| - 1];
      TieCount(subs, ps[..|ps| - 1]) + (if subs[p.first].grade == subs[p.second].grade then 1 else 0)
  }

  /** Each pair takes two draws, and one more when its grades tie. */
  lemma {:induction false} ComparisonKindsLength(subs: seq<Submission>, ps: seq<Pair>)
    requires ValidPairs(ps, |subs|)
    ensures |ComparisonKinds(subs, ps)| == 2 * |ps| + TieCount(subs, ps)
    decreases |ps|
  {
    if ps != [] {
      ComparisonKindsLength(subs, ps[..|ps| - 1]);
    }
  }

  /**
   * A run draws one randint per submission first, then two draws per pair
   * and one more per tied pair.
   */
  lemma RunDrawCount(subs: seq<Submission>)
    ensures ValidPairs(Pairs(|subs|), |subs|)
    ensures |RequiredKinds(subs)| == |subs| + 2 * PairCount(|subs|) + TieCount(subs, Pairs(|subs|))
    ensures forall i :: 0 <= i < |subs| ==> RequiredKinds(subs)[i] == RandIntKind
  {
    PairsInRange(|subs|);
    PairsLength(|subs|);
    ComparisonKindsLength(subs, Pairs(|subs|));
  }

  /** A comparison reads only the draws its pair takes. */
  lemma SynthComparisonOnPrefix(subA: Submission, subB: Submission, k: nat, accuracy: real, timestamp: int,
                                e1: seq<Draw>, e2: seq<Draw>)
    requires Supplies(e1, PairKinds(subA.grade, subB.grade))
    requires Agree(e1, e2, |PairKinds(subA.grade, subB.grade)|)
    ensures Supplies(e2, PairKinds(subA.grade, subB.grade))
    ensures SynthComparison(subA, subB, k, accuracy, timestamp, e1) == SynthComparison(subA, subB, k, accuracy, timestamp, e2)
  {
    SuppliesOnPrefix(e1, e2, PairKinds(subA.grade, subB.grade));
  }

  /** The grade pass reads only its first m draws. */
  lemma {:induction false} GradeResultsOnPrefix(subs: seq<Submission>, m: nat, timestamp: int, d1: seq<Draw>, d2: seq<Draw>)
    requires m <= |subs| && Supplies(d1, GradeKinds(m)) && Agree(d1, d2, m)
    ensures Supplies(d2, GradeKinds(m))
    ensures GradeResults(subs, m, timestamp, d1) == GradeResults(subs, m, timestamp, d2)
  {
    SuppliesOnPrefix(d1, d2, GradeKinds(m));
    if m > 0 {
      assert GradeKinds(m - 1) <= GradeKinds(m);
      SuppliesPrefix(d1, GradeKinds(m - 1), GradeKinds(m));
      GradeResultsOnPrefix(subs, m - 1, timestamp, d1, d2);
      assert d1[m - 1] == d2[m - 1];
    }
  }

  /** The pair pass over ps reads only the draws its pairs take. */
  lemma {:induction false} PairComparisonsOnPrefix(subs: seq<Submission>, ps: seq<Pair>, accuracy: real, timestamp: int,
                                                   d1: seq<Draw>, d2: seq<Draw>)
    requires ValidPairs(ps, |subs|)
    requires Supplies(d1, ComparisonKinds(subs, ps)) && Agree(d1, d2, |ComparisonKinds(subs, ps)|)
    ensures Supplies(d2, ComparisonKinds(subs, ps))
    ensures PairComparisons(subs, ps, accuracy, timestamp, d1) == PairComparisons(subs, ps, accuracy, timestamp, d2)
    decreases |ps|
  {
    SuppliesOnPrefix(d1, d2, ComparisonKinds(subs, ps));
    if ps != [] {
      var init, p := ps[..|ps| - 1], ps[|ps| - 1];
      assert ValidPairs(init, |subs|);
      var before, here := ComparisonKinds(subs, init), PairKinds(subs[p.first].grade, subs[p.second].grade);
      assert ComparisonKinds(subs, ps) == before + here;
      SuppliesSplit(d1, before, here);
      AgreeSplit(d1, d2, |before|, |here|);
      PairComparisonsOnPrefix(subs, init, accuracy, timestamp, d1, d2);
      SynthComparisonOnPrefix(subs[p.first], subs[p.second], |init|, accuracy, timestamp, d1[|before|..], d2[|before|..]);
    }
  }

  /**
   * A run depends on the draws only through those it consumes: two
   * streams that agree on the first |RequiredKinds(subs)| draws give the
   * same artifact, whatever follows.
   */
  lemma RunOnConsumedDraws(subs: seq<Submission>, accuracy: real, timestamp: int, d1: seq<Draw>, d2: seq<Draw>)
    requires Supplies(d1, RequiredKinds(subs)) && Agree(d1, d2, |RequiredKinds(subs)|)
    ensures Supplies(d2, RequiredKinds(subs))
    ensures Run(subs, accuracy, timestamp, d1) == Run(subs, accuracy, timestamp, d2)
  {
    var n := |subs|;
    SuppliesOnPrefix(d1, d2, RequiredKinds(subs));
    RunSupplies(subs, d1);
    RunSupplies(subs, d2);
    var pairKinds := ComparisonKinds(subs, Pairs(n));
    AgreeSplit(d1, d2, n, |pairKinds|);
    GradeResultsOnPrefix(subs, n, timestamp, d1, d2);
    PairComparisonsOnPrefix(subs, Pairs(n), accuracy, timestamp, d1[n..], d2[n..]);
    assert RunGrades(subs, timestamp, d1) == RunGrades(subs, timestamp, d2);
    assert RunComparisons(subs, accuracy, timestamp, d1) == RunComparisons(subs, accuracy, timestamp, d2);
  }
}
