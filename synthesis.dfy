/**
 * One generation run: the grade pass, the pair pass and the anchor pass
 * over an ordered submission set, all drawing from one random stream and
 * appending to one artifact. The functions give the content of the
 * artifact as a function of the inputs and the draws; the methods perform
 * the run step by step and are proved to produce exactly that content.
 */
module Synthesis {
  import opened Judging
  import opened Draws
  import opened Grading
  import opened Pairing
  import opened Ids
  import opened Artifact

  /** A submission of the source set: identifier and ground-truth grade. */
  datatype Submission = Submission(id: string, grade: int)

  /** The identifier of the out-of-set anchor every anchor comparison is made against. */
  const Sentinel: string := "external_anchor_exemplar"

  /** Number of anchor comparisons, made for submissions 0, 1 and 2. */
  const AnchorCount: nat := 3

  const AnchorConfidence: real := 0.85

  /** Timestamp offsets of the three passes, in milliseconds after the base timestamp. */
  const ComparisonOffset: int := 100000
  const AnchorOffset: int := 200000

  const AnchorJustification: string := "Submission exceeds the anchor quality in argumentation."

  function Justification(w: Side): string
  {
    "Submission " + Upper(w) + " shows better analysis and clearer argumentation."
  }

  // ---------------------------------------------------------------------------
  // Draws consumed by the run

  /** The grade pass takes one randint per submission. */
  function GradeKinds(n: nat): (ks: seq<Kind>)
  {
    seq(n, _ => RandIntKind)
  }

  /** A comparison takes a choice only on tied grades, then one random() and one uniform(). */
  function PairKinds(gradeA: int, gradeB: int): (ks: seq<Kind>)
  {
    (if gradeA == gradeB then [ChoiceKind] else []) + [RandomKind, UniformKind]
  }

  predicate ValidPairs(ps: seq<Pair>, n: nat)
  {
    forall k :: 0 <= k < |ps| ==> ps[k].first < n && ps[k].second < n
  }

  /** The draws of the pair pass over the pairs ps, in order. */
  function ComparisonKinds(subs: seq<Submission>, ps: seq<Pair>): (ks: seq<Kind>)
    requires ValidPairs(ps, |subs|)
    decreases |ps|
  {
    if ps == [] then []
    else
      var p := ps[|ps| - 1];
      ComparisonKinds(subs, ps[..|ps| - 1]) + PairKinds(subs[p.first].grade, subs[p.second].grade)
  }

  /** All draws of a run: the grade pass, then the pair pass; the anchor pass draws nothing. */
  function RequiredKinds(subs: seq<Submission>): (ks: seq<Kind>)
  {
    PairsInRange(|subs|);
    GradeKinds(|subs|) + ComparisonKinds(subs, Pairs(|subs|))
  }

  // ---------------------------------------------------------------------------
  // Content of the artifact

  function GradeCall(i: nat, timestamp: int): CallRecord
  {
    CallRecord(GradeCallId(i), timestamp + i * 1000)
  }

  /** The call records of the first n grades. */
  function GradeCalls(n: nat, timestamp: int): (cs: seq<CallRecord>)
    ensures |cs| == n
  {
    if n == 0 then [] else GradeCalls(n - 1, timestamp) + [GradeCall(n - 1, timestamp)]
  }

  /** The grade result of submission i, given its randint draw. */
  function GradeRecord(sub: Submission, i: nat, timestamp: int, noise: Noise): GradeResult
  {
    var p := PredictedGrade(sub.grade, noise);
    GradeResult(sub.id, p, Distribution(p), [GradeCallId(i)], timestamp + i * 1000 + 500)
  }

  /** The grade results of the first m submissions, the i-th made from the i-th draw. */
  function GradeResults(subs: seq<Submission>, m: nat, timestamp: int, draws: seq<Draw>): (gs: seq<GradeResult>)
    requires m <= |subs| && Supplies(draws, GradeKinds(m))
    ensures |gs| == m
  {
    if m == 0 then []
    else
      assert GradeKinds(m - 1) <= GradeKinds(m);
      SuppliesPrefix(draws, GradeKinds(m - 1), GradeKinds(m));
      assert KindOf(draws[m - 1]) == GradeKinds(m)[m - 1];
      GradeResults(subs, m - 1, timestamp, draws) + [GradeRecord(subs[m - 1], m - 1, timestamp, draws[m - 1].noise)]
  }

  /**
   * The ground-truth winner of a comparison: the side with the higher
   * grade, or on a tie the side of the choice draw the pair starts with.
   */
  function CorrectWinner(subA: Submission, subB: Submission, draws: seq<Draw>): (w: Side)
    requires Supplies(draws, PairKinds(subA.grade, subB.grade))
    ensures subA.grade > subB.grade ==> w == A
    ensures subA.grade < subB.grade ==> w == B
    ensures subA.grade == subB.grade ==> draws[0].ChoiceDraw? && w == draws[0].side
  {
    var truth := GroundTruth(subA.grade, subB.grade);
    if truth.Tie? then draws[0].side else truth.winner
  }

  /** The random() draw of a comparison: the first draw, or the second after a tie's choice. */
  function AccuracyDraw(subA: Submission, subB: Submission, draws: seq<Draw>): (r: Fraction)
    requires Supplies(draws, PairKinds(subA.grade, subB.grade))
    ensures subA.grade != subB.grade ==> draws[0].RandomDraw? && r == draws[0].r
    ensures subA.grade == subB.grade ==> draws[1].RandomDraw? && r == draws[1].r
  {
    if subA.grade == subB.grade then draws[1].r else draws[0].r
  }

  /** The uniform() draw of a comparison: the one after its random() draw. */
  function ConfidenceDraw(subA: Submission, subB: Submission, draws: seq<Draw>): (u: Confidence)
    requires Supplies(draws, PairKinds(subA.grade, subB.grade))
    ensures subA.grade != subB.grade ==> draws[1].UniformDraw? && u == draws[1].u
    ensures subA.grade == subB.grade ==> draws[2].UniformDraw? && u == draws[2].u
  {
    if subA.grade == subB.grade then draws[2].u else draws[1].u
  }

  /** Comparison number k of the pair pass, made from the draws that the pair starts at. */
  function SynthComparison(subA: Submission, subB: Submission, k: nat, accuracy: real,
                           timestamp: int, draws: seq<Draw>): (c: Comparison)
    requires Supplies(draws, PairKinds(subA.grade, subB.grade))
    ensures c.id == ComparisonId(k) && c.callIds == [ComparisonCallId(k)]
    ensures c.submissionA == subA.id && c.submissionB == subB.id
    ensures 0.6 <= c.confidence <= 0.95
    ensures c.winner == CorrectWinner(subA, subB, draws) <==> AccuracyDraw(subA, subB, draws) < accuracy
    ensures c.winner != CorrectWinner(subA, subB, draws) ==> c.winner == Flip(CorrectWinner(subA, subB, draws))
    ensures c.confidence == ConfidenceDraw(subA, subB, draws)
    ensures c.justification == Justification(c.winner)
  {
    var winner := ObservedWinner(CorrectWinner(subA, subB, draws), AccuracyDraw(subA, subB, draws), accuracy);
    Comparison(ComparisonId(k), subA.id, subB.id, winner, [ComparisonCallId(k)],
               timestamp + ComparisonOffset + k * 1000 + 500, ConfidenceDraw(subA, subB, draws),
               Justification(winner))
  }

  /** The comparisons of the pair pass over ps, numbered from 0. */
  function PairComparisons(subs: seq<Submission>, ps: seq<Pair>, accuracy: real,
                           timestamp: int, draws: seq<Draw>): (cs: seq<Comparison>)
    requires ValidPairs(ps, |subs|)
    requires Supplies(draws, ComparisonKinds(subs, ps))
    ensures |cs| == |ps|
    decreases |ps|
  {
    if ps == [] then []
    else
      var init := ps[..|ps| - 1];
      var p := ps[|ps| - 1];
      assert ValidPairs(init, |subs|);
      SuppliesSplit(draws, ComparisonKinds(subs, init), PairKinds(subs[p.first].grade, subs[p.second].grade));
      PairComparisons(subs, init, accuracy, timestamp, draws) +
        [SynthComparison(subs[p.first], subs[p.second], |init|, accuracy, timestamp,
                         draws[|ComparisonKinds(subs, init)|..])]
  }

  function ComparisonCall(k: nat, timestamp: int): CallRecord
  {
    CallRecord(ComparisonCallId(k), timestamp + ComparisonOffset + k * 1000)
  }

  /** The call records of the first count comparisons. */
  function ComparisonCalls(count: nat, timestamp: int): (cs: seq<CallRecord>)
    ensures |cs| == count
  {
    if count == 0 then [] else ComparisonCalls(count - 1, timestamp) + [ComparisonCall(count - 1, timestamp)]
  }

  /** Number of anchor comparisons appended before the pass stops: 3, or n if indexing fails first. */
  function AnchorsEmitted(n: nat): nat
  {
    if n < AnchorCount then n else AnchorCount
  }

  function AnchorComparison(sub: Submission, i: nat, timestamp: int): Comparison
  {
    Comparison(AnchorId(i), sub.id, Sentinel, A, [AnchorCallId(i)],
               timestamp + AnchorOffset + i * 1000 + 500, AnchorConfidence, AnchorJustification)
  }

  /** The anchor comparisons of the first m submissions. */
  function AnchorComparisons(subs: seq<Submission>, m: nat, timestamp: int): (cs: seq<Comparison>)
    requires m <= |subs|
    ensures |cs| == m
  {
    if m == 0 then [] else AnchorComparisons(subs, m - 1, timestamp) + [AnchorComparison(subs[m - 1], m - 1, timestamp)]
  }

  function AnchorCall(i: nat, timestamp: int): CallRecord
  {
    CallRecord(AnchorCallId(i), timestamp + AnchorOffset + i * 1000)
  }

  /** The call records of the first m anchor comparisons. */
  function AnchorCalls(m: nat, timestamp: int): (cs: seq<CallRecord>)
    ensures |cs| == m
  {
    if m == 0 then [] else AnchorCalls(m - 1, timestamp) + [AnchorCall(m - 1, timestamp)]
  }

  /** The call records of a run on n submissions: grade calls, pairwise calls, anchor calls. */
  function RunCalls(n: nat, timestamp: int): (cs: seq<CallRecord>)
    ensures |cs| == n + PairCount(n) + AnchorsEmitted(n)
  {
    PairsLength(n);
    GradeCalls(n, timestamp) + ComparisonCalls(|Pairs(n)|, timestamp) + AnchorCalls(AnchorsEmitted(n), timestamp)
  }

  /** The grade results of a run, made from its first |subs| draws. */
  function RunGrades(subs: seq<Submission>, timestamp: int, draws: seq<Draw>): (gs: seq<GradeResult>)
    requires Supplies(draws, RequiredKinds(subs))
    ensures |gs| == |subs|
  {
    PairsInRange(|subs|);
    SuppliesSplit(draws, GradeKinds(|subs|), ComparisonKinds(subs, Pairs(|subs|)));
    GradeResults(subs, |subs|, timestamp, draws)
  }

  /** The comparisons of a run: the pairwise ones, made from the draws after the grade pass, then the anchors. */
  function RunComparisons(subs: seq<Submission>, accuracy: real, timestamp: int, draws: seq<Draw>): (cs: seq<Comparison>)
    requires Supplies(draws, RequiredKinds(subs))
    ensures |cs| == PairCount(|subs|) + AnchorsEmitted(|subs|)
  {
    var n := |subs|;
    PairsInRange(n);
    PairsLength(n);
    SuppliesSplit(draws, GradeKinds(n), ComparisonKinds(subs, Pairs(n)));
    PairComparisons(subs, Pairs(n), accuracy, timestamp, draws[n..]) + AnchorComparisons(subs, AnchorsEmitted(n), timestamp)
  }

  /** The whole artifact of a run on subs with the given accuracy, base timestamp and draws. */
  function Run(subs: seq<Submission>, accuracy: real, timestamp: int, draws: seq<Draw>): (log: Log)
    requires Supplies(draws, RequiredKinds(subs))
    ensures |log.grades| == |subs|
    ensures |log.comparisons| == PairCount(|subs|) + AnchorsEmitted(|subs|)
    ensures |log.calls| == |subs| + |log.comparisons|
  {
    Log(RunCalls(|subs|, timestamp), RunGrades(subs, timestamp, draws), RunComparisons(subs, accuracy, timestamp, draws))
  }

  // ---------------------------------------------------------------------------
  // The run, step by step

  /** One step of the grade pass: the call record, the randint draw and the grade result of submission i. */
  method AddGrade(sub: Submission, i: nat, timestamp: int, rng: Rng, egf: Egf)
    requires rng.draws != [] && rng.draws[0].RandIntDraw?
    modifies rng, egf
    ensures egf.calls == old(egf.calls) + [GradeCall(i, timestamp)]
    ensures egf.grades == old(egf.grades) + [GradeRecord(sub, i, timestamp, old(rng.draws[0]).noise)]
    ensures egf.comparisons == old(egf.comparisons)
    ensures rng.draws == old(rng.draws[1..])
  {
    var callId := GradeCallId(i);
    egf.AddLlmCall(callId, timestamp + i * 1000);
    var noise := rng.RandInt();
    var predicted := PredictedGrade(sub.grade, noise);
    var dist := BuildDistribution(predicted);
    egf.AddGradeResult(sub.id, predicted, dist, [callId], timestamp + i * 1000 + 500);
  }

  /** The grade pass: one call record, one randint and one grade result per submission. */
  method AddGrades(subs: seq<Submission>, timestamp: int, rng: Rng, egf: Egf)
    requires Supplies(rng.draws, GradeKinds(|subs|))
    modifies rng, egf
    ensures egf.calls == old(egf.calls) + GradeCalls(|subs|, timestamp)
    ensures egf.grades == old(egf.grades) + GradeResults(subs, |subs|, timestamp, old(rng.draws))
    ensures egf.comparisons == old(egf.comparisons)
    ensures rng.draws == old(rng.draws)[|subs|..]
  {
    ghost var draws, calls0, grades0 := rng.draws, egf.calls, egf.grades;
    for i := 0 to |subs|
      invariant rng.draws == draws[i..]
      invariant Supplies(draws, GradeKinds(i))
      invariant egf.calls == calls0 + GradeCalls(i, timestamp)
      invariant egf.grades == grades0 + GradeResults(subs, i, timestamp, draws)
      invariant egf.comparisons == old(egf.comparisons)
    {
      assert GradeKinds(i + 1) <= GradeKinds(|subs|);
      SuppliesPrefix(draws, GradeKinds(i + 1), GradeKinds(|subs|));
      assert KindOf(draws[i]) == GradeKinds(i + 1)[i];
      ghost var noise := draws[i].noise;
      AddGrade(subs[i], i, timestamp, rng, egf);
      Snoc(calls0, GradeCalls(i, timestamp), GradeCall(i, timestamp));
      Snoc(grades0, GradeResults(subs, i, timestamp, draws), GradeRecord(subs[i], i, timestamp, noise));
    }
  }

  lemma Snoc<T>(a: seq<T>, b: seq<T>, x: T)
    ensures (a + b) + [x] == a + (b + [x])
  {
  }

  /**
   * One step of the pair pass: comparison number k between subA and subB.
   * The ground-truth winner comes from the grade difference, a tie taking a
   * choice draw; one random() draw keeps or flips it; one uniform() draw is
   * the confidence.
   */
  method AddPairComparison(subA: Submission, subB: Submission, k: nat, accuracy: real,
                           timestamp: int, rng: Rng, egf: Egf)
    requires Supplies(rng.draws, PairKinds(subA.grade, subB.grade))
    modifies rng, egf
    ensures egf.calls == old(egf.calls) + [ComparisonCall(k, timestamp)]
    ensures egf.comparisons == old(egf.comparisons) +
              [SynthComparison(subA, subB, k, accuracy, timestamp, old(rng.draws))]
    ensures egf.grades == old(egf.grades)
    ensures rng.draws == old(rng.draws)[|PairKinds(subA.grade, subB.grade)|..]
  {
    ghost var draws := rng.draws;
    ghost var used := PairKinds(subA.grade, subB.grade);
    var compCallId := ComparisonCallId(k);
    var compId := ComparisonId(k);

    var gtDiff := subA.grade - subB.grade;
    var correct: Side;
    if gtDiff > 0 {
      correct := A;
    } else if gtDiff < 0 {
      correct := B;
    } else {
      assert KindOf(draws[0]) == used[0];
      correct := rng.Choice();
    }
    ghost var offset := if gtDiff == 0 then 1 else 0;
    assert KindOf(draws[offset]) == used[offset];
    assert rng.draws == draws[offset..];
    var r := rng.Random();
    var winner: Side;
    if r < accuracy {
      winner := correct;
    } else {
      winner := Flip(correct);
    }

    egf.AddLlmCall(compCallId, timestamp + ComparisonOffset + k * 1000);
    assert KindOf(draws[offset + 1]) == used[offset + 1];
    var confidence := rng.Uniform();
    egf.AddComparison(compId, subA.id, subB.id, winner, [compCallId],
                      timestamp + ComparisonOffset + k * 1000 + 500, confidence,
                      Justification(winner));
  }

  /**
   * What the pair pass has produced once the pairs `done` are through: the
   * draws they used are consumed, and each left one call record and one
   * comparison, numbered from zero.
   */
  ghost predicate PassState(subs: seq<Submission>, done: seq<Pair>, accuracy: real, timestamp: int,
                            draws: seq<Draw>, rest: seq<Draw>,
                            calls0: seq<CallRecord>, calls: seq<CallRecord>,
                            comparisons0: seq<Comparison>, comparisons: seq<Comparison>)
  {
    && ValidPairs(done, |subs|)
    && Supplies(draws, ComparisonKinds(subs, done))
    && rest == draws[|ComparisonKinds(subs, done)|..]
    && calls == calls0 + ComparisonCalls(|done|, timestamp)
    && comparisons == comparisons0 + PairComparisons(subs, done, accuracy, timestamp, draws)
  }

  /**
   * The pair pass: each index against its next two successors, numbered by
   * a running counter. The inner loop over the successors is AddRow.
   */
  method AddPairComparisons(subs: seq<Submission>, accuracy: real, timestamp: int, rng: Rng, egf: Egf)
      returns (count: nat)
    requires ValidPairs(Pairs(|subs|), |subs|)
    requires Supplies(rng.draws, ComparisonKinds(subs, Pairs(|subs|)))
    modifies rng, egf
    ensures count == |Pairs(|subs|)|
    ensures PassState(subs, Pairs(|subs|), accuracy, timestamp, old(rng.draws), rng.draws,
                      old(egf.calls), egf.calls, old(egf.comparisons), egf.comparisons)
    ensures egf.grades == old(egf.grades)
  {
    var n := |subs|;
    ghost var draws, calls0, comparisons0 := rng.draws, egf.calls, egf.comparisons;
    ghost var done: seq<Pair> := [];
    count := 0;
    for i := 0 to n
      invariant done == PairsBelow(i, n) && count == |done|
      invariant PassState(subs, done, accuracy, timestamp, draws, rng.draws,
                          calls0, egf.calls, comparisons0, egf.comparisons)
      invariant egf.grades == old(egf.grades)
    {
      count, done := AddRow(subs, i, accuracy, timestamp, rng, egf, count, draws, done, calls0, comparisons0);
    }
  }

  /** One row of the pair pass: j in range(i + 1, min(i + 3, n)). */
  method AddRow(subs: seq<Submission>, i: nat, accuracy: real, timestamp: int, rng: Rng, egf: Egf,
                count0: nat, ghost draws: seq<Draw>, ghost done0: seq<Pair>,
                ghost calls0: seq<CallRecord>, ghost comparisons0: seq<Comparison>)
      returns (count: nat, ghost done: seq<Pair>)
    requires i < |subs| && done0 == PairsBelow(i, |subs|) && count0 == |done0|
    requires ValidPairs(Pairs(|subs|), |subs|)
    requires Supplies(draws, ComparisonKinds(subs, Pairs(|subs|)))
    requires PassState(subs, done0, accuracy, timestamp, draws, rng.draws,
                       calls0, egf.calls, comparisons0, egf.comparisons)
    modifies rng, egf
    ensures done == PairsBelow(i + 1, |subs|) && count == |done|
    ensures PassState(subs, done, accuracy, timestamp, draws, rng.draws,
                      calls0, egf.calls, comparisons0, egf.comparisons)
    ensures egf.grades == old(egf.grades)
  {
    var n := |subs|;
    count, done := count0, done0;
    EmittedRow(i, n);
    for j := i + 1 to Pairing.Min(i + 3, n)
      invariant done == Emitted(i, n, j - (i + 1)) && count == |done|
      invariant PassState(subs, done, accuracy, timestamp, draws, rng.draws,
                          calls0, egf.calls, comparisons0, egf.comparisons)
      invariant egf.grades == old(egf.grades)
    {
      done := AddRowPair(subs, i, j, accuracy, timestamp, rng, egf, count, draws, done, calls0, comparisons0);
      count := count + 1;
    }
  }

  /** One iteration of AddRow: pair (i, j) is appended under the next number. */
  method AddRowPair(subs: seq<Submission>, i: nat, j: nat, accuracy: real, timestamp: int, rng: Rng, egf: Egf,
                    count: nat, ghost draws: seq<Draw>, ghost done: seq<Pair>,
                    ghost calls0: seq<CallRecord>, ghost comparisons0: seq<Comparison>)
      returns (ghost next: seq<Pair>)
    requires i < j < Pairing.Min(i + 3, |subs|)
    requires done == Emitted(i, |subs|, j - (i + 1)) && count == |done|
    requires ValidPairs(Pairs(|subs|), |subs|)
    requires Supplies(draws, ComparisonKinds(subs, Pairs(|subs|)))
    requires PassState(subs, done, accuracy, timestamp, draws, rng.draws,
                       calls0, egf.calls, comparisons0, egf.comparisons)
    modifies rng, egf
    ensures next == Emitted(i, |subs|, j + 1 - (i + 1)) && count + 1 == |next|
    ensures PassState(subs, next, accuracy, timestamp, draws, rng.draws,
                      calls0, egf.calls, comparisons0, egf.comparisons)
    ensures egf.grades == old(egf.grades)
  {
    next := PairStep(subs, done, i, j, accuracy, timestamp, draws);
    ghost var here := draws[|ComparisonKinds(subs, done)|..];
    AddPairComparison(subs[i], subs[j], count, accuracy, timestamp, rng, egf);
    Snoc(calls0, ComparisonCalls(count, timestamp), ComparisonCall(count, timestamp));
    Snoc(comparisons0, PairComparisons(subs, done, accuracy, timestamp, draws),
         SynthComparison(subs[i], subs[j], count, accuracy, timestamp, here));
    DropDrop(draws, |ComparisonKinds(subs, done)|, |PairKinds(subs[i].grade, subs[j].grade)|);
  }

  lemma DropDrop<T>(s: seq<T>, a: nat, b: nat)
    requires a + b <= |s|
    ensures s[a..][b..] == s[a + b..]
  {
  }

  /**
   * Appending pair (i, j) to the pairs done so far, mid-row, keeps them a
   * prefix of all pairs; the draws left over supply that pair's
   * comparison, which extends the comparisons made so far by one.
   */
  lemma PairStep(subs: seq<Submission>, done: seq<Pair>, i: nat, j: nat, accuracy: real,
                 timestamp: int, draws: seq<Draw>) returns (next: seq<Pair>)
    requires i < j < Pairing.Min(i + 3, |subs|)
    requires done == Emitted(i, |subs|, j - (i + 1))
    requires ValidPairs(Pairs(|subs|), |subs|)
    requires Supplies(draws, ComparisonKinds(subs, Pairs(|subs|)))
    ensures next == done + [Pair(i, j)]
    ensures next == Emitted(i, |subs|, j + 1 - (i + 1)) && next <= Pairs(|subs|)
    ensures ValidPairs(done, |subs|) && ValidPairs(next, |subs|)
    ensures ComparisonKinds(subs, next) == ComparisonKinds(subs, done) + PairKinds(subs[i].grade, subs[j].grade)
    ensures Supplies(draws, ComparisonKinds(subs, next))
    ensures Supplies(draws[|ComparisonKinds(subs, done)|..], PairKinds(subs[i].grade, subs[j].grade))
    ensures Supplies(draws, ComparisonKinds(subs, done)) &&
            PairComparisons(subs, next, accuracy, timestamp, draws) ==
            PairComparisons(subs, done, accuracy, timestamp, draws) +
            [SynthComparison(subs[i], subs[j], |done|, accuracy, timestamp, draws[|ComparisonKinds(subs, done)|..])]
  {
    var n := |subs|;
    next := done + [Pair(i, j)];
    EmittedStep(i, n, j - (i + 1));
    PartialRowPrefix(i, n, j + 1 - (i + 1));
    assert next[..|next| - 1] == done;
    ComparisonKindsPrefix(subs, next, Pairs(n));
    SuppliesPrefix(draws, ComparisonKinds(subs, next), ComparisonKinds(subs, Pairs(n)));
    SuppliesSplit(draws, ComparisonKinds(subs, done), PairKinds(subs[i].grade, subs[j].grade));
  }

  /** The pair kinds of a prefix of the pairs are a prefix of the pair kinds. */
  lemma {:induction false} ComparisonKindsPrefix(subs: seq<Submission>, ps: seq<Pair>, qs: seq<Pair>)
    requires ValidPairs(qs, |subs|) && ps <= qs
    ensures ValidPairs(ps, |subs|)
    ensures ComparisonKinds(subs, ps) <= ComparisonKinds(subs, qs)
    decreases |qs|
  {
    assert ValidPairs(ps, |subs|);
    if |ps| < |qs| {
      var init := qs[..|qs| - 1];
      assert ps <= init;
      ComparisonKindsPrefix(subs, ps, init);
    } else {
      assert ps == qs;
    }
  }

  /**
   * The anchor pass: submissions 0, 1 and 2 each against the sentinel,
   * always won by the submission. With fewer than three submissions,
   * indexing submission |subs| fails after |subs| anchors: the loop stops
   * there and completed is false.
   */
  method AddAnchors(subs: seq<Submission>, timestamp: int, egf: Egf) returns (completed: bool)
    modifies egf
    ensures completed == (|subs| >= AnchorCount)
    ensures egf.calls == old(egf.calls) + AnchorCalls(AnchorsEmitted(|subs|), timestamp)
    ensures egf.comparisons == old(egf.comparisons) + AnchorComparisons(subs, AnchorsEmitted(|subs|), timestamp)
    ensures egf.grades == old(egf.grades)
  {
    var i := 0;
    while i < AnchorCount && i < |subs|
      invariant 0 <= i <= AnchorsEmitted(|subs|)
      invariant egf.calls == old(egf.calls) + AnchorCalls(i, timestamp)
      invariant egf.comparisons == old(egf.comparisons) + AnchorComparisons(subs, i, timestamp)
      invariant egf.grades == old(egf.grades)
    {
      AddAnchor(subs[i], i, timestamp, egf);
      Snoc(old(egf.calls), AnchorCalls(i, timestamp), AnchorCall(i, timestamp));
      Snoc(old(egf.comparisons), AnchorComparisons(subs, i, timestamp), AnchorComparison(subs[i], i, timestamp));
      i := i + 1;
    }
    completed := i == AnchorCount;
  }

  /** One step of the anchor pass: the call record and the anchor comparison of submission i. */
  method AddAnchor(sub: Submission, i: nat, timestamp: int, egf: Egf)
    modifies egf
    ensures egf.calls == old(egf.calls) + [AnchorCall(i, timestamp)]
    ensures egf.comparisons == old(egf.comparisons) + [AnchorComparison(sub, i, timestamp)]
    ensures egf.grades == old(egf.grades)
  {
    var compCallId := AnchorCallId(i);
    var compId := AnchorId(i);
    egf.AddLlmCall(compCallId, timestamp + AnchorOffset + i * 1000);
    egf.AddComparison(compId, sub.id, Sentinel, A, [compCallId],
                      timestamp + AnchorOffset + i * 1000 + 500, AnchorConfidence,
                      AnchorJustification);
  }

  /**
   * The full run: grades, then pairwise comparisons, then anchors. The new
   * artifact holds exactly Run(subs, accuracy, timestamp, draws), and the
   * run consumed exactly the draws RequiredKinds(subs) names. A false
   * completed stands for the index error of the anchor pass on fewer than
   * three submissions, after which nothing is saved.
   */
  method CreateEgfWithComparisons(edfPath: string, subs: seq<Submission>, accuracy: real := 0.8,
                                  timestamp: int, description: string := "Test grading with comparisons",
                                  rng: Rng)
      returns (egf: Egf, completed: bool)
    requires Supplies(rng.draws, RequiredKinds(subs))
    modifies rng
    ensures fresh(egf)
    ensures egf.edfPath == edfPath && egf.description == description
    ensures egf.Contents() == Run(subs, accuracy, timestamp, old(rng.draws))
    ensures completed == (|subs| >= AnchorCount)
    ensures rng.draws == old(rng.draws)[|RequiredKinds(subs)|..]
  {
    var n := |subs|;
    ghost var draws := rng.draws;
    PairsInRange(n);
    SuppliesSplit(draws, GradeKinds(n), ComparisonKinds(subs, Pairs(n)));
    egf := new Egf.ReferenceEdf(edfPath, description);
    AddGrades(subs, timestamp, rng, egf);
    ghost var grades := egf.grades;
    ghost var gradeCalls := egf.calls;
    assert grades == GradeResults(subs, n, timestamp, draws);
    assert gradeCalls == GradeCalls(n, timestamp);
    assert rng.draws == draws[n..];
    var comparisonCount := AddPairComparisons(subs, accuracy, timestamp, rng, egf);
    ghost var pairwise := egf.comparisons;
    assert pairwise == PairComparisons(subs, Pairs(n), accuracy, timestamp, draws[n..]);
    completed := AddAnchors(subs, timestamp, egf);
    assert egf.grades == GradeResults(subs, n, timestamp, draws);
    assert egf.comparisons == pairwise + AnchorComparisons(subs, AnchorsEmitted(n), timestamp);
    assert egf.calls == GradeCalls(n, timestamp) + ComparisonCalls(|Pairs(n)|, timestamp) +
                        AnchorCalls(AnchorsEmitted(n), timestamp);
    assert egf.Contents() == Run(subs, accuracy, timestamp, draws);
    assert draws[n..][|ComparisonKinds(subs, Pairs(n))|..] == draws[|RequiredKinds(subs)|..];
  }
}
