# Synthetic evaluation artifacts with controlled comparison accuracy

This project is a Dafny model of the generator in
`scripts/create_test_egf_with_comparisons.py`. The generator takes an
ordered set of submissions with known ground-truth grades. It writes one
evaluation artifact (EGF) holding three things:

- **Grade pass.** For each submission, a call record and a grade result.
  The grade is the ground-truth grade plus a noise of -1, 0 or 1, held to
  0..10. The distribution has 11 buckets: 0.7 on the predicted grade and
  0.15 on each neighbour. A neighbour's share goes onto the predicted grade
  when that neighbour lies outside 0..10.
- **Pair pass.** Every submission i is compared with i+1 and i+2 (when
  they exist), and a running counter numbers the comparisons. The
  ground-truth winner is the side with the higher grade. A tie is broken
  by a random choice. One `random()` draw keeps that winner when it falls
  below the accuracy target and flips it otherwise. One `uniform(0.6, 0.95)`
  draw gives the confidence.
- **Anchor pass.** Submissions 0, 1 and 2 are each compared with the
  out-of-set identifier `external_anchor_exemplar`. The submission always
  wins, with confidence 0.85.

The random generator is modelled as the stream of values it hands out
(module `Draws`). Each `randint`, `choice`, `random` and `uniform` call
takes the next element of the stream. `RequiredKinds(subs)` names the
kinds of those calls in the order the code makes them: one randint per
submission, then for each pair an optional choice, a random and a uniform.
Seeding the generator yields a fixed stream, so reproducibility becomes
the statement that the run is a function of the stream
(`RunOnConsumedDraws`).

The artifact is the class `Artifact.Egf`, whose append methods extend
three sequence fields. `Synthesis.CreateEgfWithComparisons` runs the three
passes step by step on an `Rng` and an `Egf`. It is proved to leave exactly
`Synthesis.Run(...)` in the artifact and to consume exactly the draws that
`RequiredKinds` names. The lemmas of `RunProperties` then state what
`Run` contains, entry by entry.

Modules:

- `Judging`: sides, ground truth and the keep-or-flip rule.
- `Draws`: the draw stream and the generator class.
- `Grading`: the noisy grade and the distribution.
- `Pairing`: the pair enumeration.
- `Ids`: the `{:03d}` identifiers.
- `Artifact`: the artifact class.
- `Synthesis`: the run as functions and as methods.
- `RunProperties`: properties of the whole run.

Two behaviours of the code are kept as written:

- There is no range check on the accuracy target (line 97 compares with
  it directly). Any real is accepted: 1 or more always keeps the
  ground-truth winner, 0 or less always flips it.
- With fewer than three submissions, `submissions[i]` (line 138) raises an
  index error after the first |subs| anchors, and nothing is saved. The
  model keeps those anchors and returns `completed == false`.

## Model

| member | source | states |
|---|---|---|
| Grading.PredictedGrade | scripts/create_test_egf_with_comparisons.py:54-55 | the result lies in 0..10; it is truth + noise when that is in range, 0 below the range and 10 above it; for a truth in 0..10 and noise in -1..1 it is within 1 of the truth |
| Grading.Distribution | scripts/create_test_egf_with_comparisons.py:58-67 | 11 non-negative entries; 0.15 on each in-range neighbour of p and 0 away from p; the entry at p is 0.7 exactly when p is interior and 0.85 exactly at 0 or 10; p is the unique maximum |
| Grading.DistributionSumsToOne | scripts/create_test_egf_with_comparisons.py:57-67 | the distribution of every grade 0..10 sums to exactly 1 |
| Grading.BuildDistribution | scripts/create_test_egf_with_comparisons.py:58-67 | filling the 11-slot buffer in place, with the boundary mass added to p, yields exactly Distribution(p), whose sum is 1 |
| Judging.Label | scripts/create_test_egf_with_comparisons.py:90-100 | the stored winner is "a" or "b", and it is "a" exactly for side A |
| Judging.Flip | scripts/create_test_egf_with_comparisons.py:100 | the flipped winner is always the other side |
| Judging.FlipInvolution | scripts/create_test_egf_with_comparisons.py:100 | flipping twice gives the original winner back |
| Judging.GroundTruth | scripts/create_test_egf_with_comparisons.py:88-94 | A exactly when grade_a > grade_b, B exactly when grade_a < grade_b, a tie exactly when they are equal |
| Judging.GroundTruthSwap | scripts/create_test_egf_with_comparisons.py:88-94 | swapping the two grades swaps a decided winner and keeps a tie |
| Judging.ObservedAgreesIff | scripts/create_test_egf_with_comparisons.py:97-100 | the observed winner equals the correct one if and only if r < accuracy, and otherwise it is the flip |
| Judging.AccuracyAtLeastOneKeeps | scripts/create_test_egf_with_comparisons.py:97-98 | for r in [0, 1), an accuracy of 1 or more never flips |
| Judging.AccuracyAtMostZeroFlips | scripts/create_test_egf_with_comparisons.py:97-100 | for r in [0, 1), an accuracy of 0 or less always flips |
| Draws.Rng.constructor | scripts/create_test_egf_with_comparisons.py:30 | the seeded generator starts on the given stream |
| Draws.Rng.RandInt | scripts/create_test_egf_with_comparisons.py:54 | returns the noise (-1..1) of the head draw and drops that draw |
| Draws.Rng.Choice | scripts/create_test_egf_with_comparisons.py:94 | returns the side of the head draw and drops that draw |
| Draws.Rng.Random | scripts/create_test_egf_with_comparisons.py:97 | returns the value in [0, 1) of the head draw and drops that draw |
| Draws.Rng.Uniform | scripts/create_test_egf_with_comparisons.py:130 | returns the value in [0.6, 0.95] of the head draw and drops that draw |
| Pairing.Row | scripts/create_test_egf_with_comparisons.py:80 | row i holds (i, i+1+k) for k < 2, cut off at n: two pairs when i + 3 <= n, one when i + 2 == n, none otherwise |
| Pairing.PairsClosedForm | scripts/create_test_egf_with_comparisons.py:78-80 | the pair pass emits exactly PairCount(n) pairs, the k-th being (k/2, k/2 + 1 + k%2) |
| Pairing.PairsAt | scripts/create_test_egf_with_comparisons.py:78-80 | for k < PairCount(n), the k-th pair is PairAt(k) and lies inside 0..n-1 |
| Pairing.PairsLength | scripts/create_test_egf_with_comparisons.py:78-134 | the counter ends at PairCount(n): 2n - 3 for n >= 2, 0 otherwise |
| Pairing.TenSubmissionsSeventeenPairs | scripts/create_test_egf_with_comparisons.py:78-80 | ten submissions give 17 pairwise comparisons |
| Pairing.PairsMembers | scripts/create_test_egf_with_comparisons.py:79-80 | (i, j) is compared if and only if i < j <= i + 2 and j < n |
| Pairing.PairsSorted | scripts/create_test_egf_with_comparisons.py:79-80 | the pairs come in strictly increasing lexicographic order, so none repeats |
| Pairing.PairsCoverage | scripts/create_test_egf_with_comparisons.py:79-80 | when i + 2 < n, submission i is first in exactly the comparisons numbered 2i and 2i+1, against i+1 and i+2 |
| Pairing.PairsInRange | scripts/create_test_egf_with_comparisons.py:80-82 | every pair indexes two distinct submissions of the set, the first before the second |
| Ids.Pad3 | scripts/create_test_egf_with_comparisons.py:34 | `{:03d}` has three characters below 1000 and is the plain decimal from 1000 on |
| Ids.Pad3RoundTrip | scripts/create_test_egf_with_comparisons.py:34 | parsing the padded number gives the number back |
| Ids.Pad3Injective | scripts/create_test_egf_with_comparisons.py:34 | two numbers pad to the same text if and only if they are equal |
| Ids.NumberedInjective | scripts/create_test_egf_with_comparisons.py:84-85 | prefix + `{:03d}` names two numbers alike if and only if they are equal |
| Ids.ComparisonIdsDistinct | scripts/create_test_egf_with_comparisons.py:85-140 | a `comp_` identifier never equals an `ext_comp_` identifier |
| Ids.CallIdsDistinct | scripts/create_test_egf_with_comparisons.py:34-139 | grade, comparison and anchor call identifiers never coincide across the three families |
| Artifact.Egf.ReferenceEdf | scripts/create_test_egf_with_comparisons.py:27 | a new artifact records the submission-set path and description and holds no entries |
| Artifact.Egf.AddLlmCall | scripts/create_test_egf_with_comparisons.py:37-51 | appends one call record and leaves grades and comparisons unchanged |
| Artifact.Egf.AddGradeResult | scripts/create_test_egf_with_comparisons.py:69-75 | appends one grade result and leaves calls and comparisons unchanged |
| Artifact.Egf.AddComparison | scripts/create_test_egf_with_comparisons.py:123-132 | appends one comparison and leaves calls and grades unchanged |
| Synthesis.GradeResults | scripts/create_test_egf_with_comparisons.py:33-75 | the grade pass over the first m submissions yields m grade results |
| Synthesis.CorrectWinner | scripts/create_test_egf_with_comparisons.py:88-94 | A for a higher grade_a, B for a lower one, and on a tie the side of the choice draw the pair starts with |
| Synthesis.AccuracyDraw | scripts/create_test_egf_with_comparisons.py:94-97 | the random() value is the pair's first draw, or its second after a tie's choice |
| Synthesis.ConfidenceDraw | scripts/create_test_egf_with_comparisons.py:94-130 | the uniform() value is the pair's second draw, or its third after a tie's choice |
| Synthesis.SynthComparison | scripts/create_test_egf_with_comparisons.py:84-132 | comparison k has id comp_k and call comp_call_k and names the two submissions; its winner is the correct one if and only if the random() value is below the accuracy, and otherwise the flip; its confidence is the pair's uniform() draw, in [0.6, 0.95]; its justification names the winner |
| Synthesis.PairComparisons | scripts/create_test_egf_with_comparisons.py:79-134 | the pair pass yields one comparison per pair |
| Synthesis.RunCalls | scripts/create_test_egf_with_comparisons.py:33-159 | a run makes n + PairCount(n) + min(n, 3) calls |
| Synthesis.RunGrades | scripts/create_test_egf_with_comparisons.py:33-75 | a run makes one grade result per submission |
| Synthesis.RunComparisons | scripts/create_test_egf_with_comparisons.py:77-170 | a run makes PairCount(n) pairwise comparisons plus min(n, 3) anchor comparisons |
| Synthesis.Run | scripts/create_test_egf_with_comparisons.py:27-170 | the artifact holds n grades, PairCount(n) + min(n, 3) comparisons, and one call per grade and per comparison |
| Synthesis.AddGrade | scripts/create_test_egf_with_comparisons.py:34-75 | one step of the grade pass appends GradeCall(i) and the grade record of the head randint draw, and consumes that draw |
| Synthesis.AddGrades | scripts/create_test_egf_with_comparisons.py:33-75 | the grade pass appends GradeCalls(n) and GradeResults(subs) and consumes n draws |
| Synthesis.AddPairComparison | scripts/create_test_egf_with_comparisons.py:84-132 | one comparison step appends ComparisonCall(k) and SynthComparison(k) for the current draws and consumes exactly PairKinds of them |
| Synthesis.AddPairComparisons | scripts/create_test_egf_with_comparisons.py:78-134 | the counter ends at the number of pairs; the pass appends the calls and comparisons of all pairs and consumes exactly their draws |
| Synthesis.AddRow | scripts/create_test_egf_with_comparisons.py:80-134 | the inner loop for submission i extends the emitted pairs from PairsBelow(i) to PairsBelow(i + 1), keeping the pass state |
| Synthesis.AddRowPair | scripts/create_test_egf_with_comparisons.py:81-134 | one inner iteration appends pair (i, j) under the next counter value |
| Synthesis.AddAnchor | scripts/create_test_egf_with_comparisons.py:139-170 | one step of the anchor pass appends AnchorCall(i) and the anchor comparison of submission i |
| Synthesis.AddAnchors | scripts/create_test_egf_with_comparisons.py:137-170 | appends the anchor calls and comparisons of min(n, 3) submissions and reports completion exactly when n >= 3 |
| Synthesis.CreateEgfWithComparisons | scripts/create_test_egf_with_comparisons.py:13-170 | a fresh artifact on the given path and description holds exactly Run(subs, accuracy, timestamp, draws); the run completes exactly when n >= 3 and consumes exactly RequiredKinds(subs) draws |
| RunProperties.RunCounts | scripts/create_test_egf_with_comparisons.py:33-174 | n grades; PairCount(n) + min(n, 3) comparisons; one call per grade and per comparison; 2n comparisons once n >= 3; 20 for ten submissions |
| RunProperties.RunCall | scripts/create_test_egf_with_comparisons.py:37-159 | call j is grade call j, then pairwise call j - n, then anchor call j - n - PairCount(n), with those timestamps |
| RunProperties.RunGrade | scripts/create_test_egf_with_comparisons.py:33-75 | grade i belongs to submission i, uses the i-th draw and lies in 0..10, within 1 of a truth in 0..10; its distribution is Distribution(grade), has 11 non-negative entries with the unique maximum at the grade, and sums to 1; it cites grade_call_i and is stamped 500 ms after that call |
| RunProperties.PairwiseAt | scripts/create_test_egf_with_comparisons.py:78-134 | comparison k of a run is SynthComparison of pair PairAt(k) on the draws that pair starts at |
| RunProperties.RunPairwise | scripts/create_test_egf_with_comparisons.py:81-132 | comparison k has id comp_k and compares submissions PairAt(k); its confidence is that pair's uniform() draw, in [0.6, 0.95]; its justification names the winner; it cites call n + k, comp_call_k, and is stamped 500 ms after it |
| RunProperties.RunWinner | scripts/create_test_egf_with_comparisons.py:88-100 | winner of comparison k: correct if and only if r < accuracy, otherwise flipped; for unequal grades it is A if and only if (grade_a > grade_b if and only if r < accuracy); accuracy >= 1 keeps and <= 0 flips |
| RunProperties.RunAnchor | scripts/create_test_egf_with_comparisons.py:137-170 | anchor i has id ext_comp_i, submission i against external_anchor_exemplar, winner "a" and confidence 0.85; it cites its ext_comp_call_i call and is stamped 500 ms after it |
| RunProperties.AnchorAt | scripts/create_test_egf_with_comparisons.py:137-170 | the comparison after the PairCount(n) pairwise ones and i anchors is anchor i of submission i |
| RunProperties.RunComparisonsParts | scripts/create_test_egf_with_comparisons.py:77-170 | the comparisons of a run are PairCount(n) pairwise ones followed by the anchors |
| RunProperties.RunComparisonId | scripts/create_test_egf_with_comparisons.py:85-140 | comparison k is named comp_k in the pair pass and ext_comp_(k - PairCount) in the anchor pass |
| RunProperties.ComparisonIdsDiffer | scripts/create_test_egf_with_comparisons.py:84-140 | two different positions of a run hold different comparison identifiers |
| RunProperties.CallIdsDiffer | scripts/create_test_egf_with_comparisons.py:34-139 | two different positions of a run hold different call identifiers |
| RunProperties.RunIdsUnique | scripts/create_test_egf_with_comparisons.py:34-140 | all comparison identifiers and all call identifiers of a run are unique |
| RunProperties.RunDrawCount | scripts/create_test_egf_with_comparisons.py:54-130 | a run draws n + 2 * PairCount(n) + (number of tied pairs) values, the first n of them randint |
| RunProperties.RunOnConsumedDraws | scripts/create_test_egf_with_comparisons.py:30-130 | two streams that agree on the draws a run consumes give the same artifact, so a fixed seed reproduces the run |
| RunProperties.GradeResultsOnPrefix | scripts/create_test_egf_with_comparisons.py:54 | the grade results depend only on the first m draws |
| RunProperties.PairComparisonsOnPrefix | scripts/create_test_egf_with_comparisons.py:94-130 | the pairwise comparisons depend only on the draws the pair pass consumes |
| RunProperties.SynthComparisonOnPrefix | scripts/create_test_egf_with_comparisons.py:94-130 | one comparison depends only on the draws its pair consumes |

## Left out

- Reading the submission set (`EDF.open`, line 22) is not modelled: the submissions are a parameter. The `edf` library is not part of this model.
- Writing the artifact (`egf.save`, line 173) is not modelled. The `egf` library is not part of this model; `Artifact.Egf` is an in-memory stand-in whose appends keep identifiers, submissions, winners, timestamps, confidences and justifications.
- The descriptive fields of each call record (model name, temperature, token limits, messages, output text, stop reason, token counts, latency) are constants or text with no logic, so they are not kept.
- `datetime.now()` (line 29) is the parameter `timestamp`, taken as already converted to integer milliseconds.
- The Mersenne Twister behind `random.seed` (line 30) is not modelled. The seeded generator is the stream of values it returns. The subset types give each kind of draw the range the Python library documents.
- Draws.Rng.RandInt, Draws.Rng.Choice, Draws.Rng.Random, Draws.Rng.Uniform: they require a head draw of their kind, because Python's generator never runs out. `RequiredKinds` supplies exactly that requirement for a whole run.
- Floating point is not modelled: the distribution and the draws are exact reals. The distribution sums to exactly 1 in the model. In IEEE doubles 0.7 + 0.15 + 0.15 is computed rather than exact.
- The `print` calls (lines 24 and 174-178) and `main` (lines 181-206) are I/O. The final count of line 174 equals `RunProperties.RunCounts`' comparison count.
- The `seed` parameter and its default 42 (lines 17 and 30) are replaced by the draw stream that seeding produces. The `output_path` parameter (line 15) is only used by `egf.save`. The other defaults are kept: accuracy 0.8 and the description "Test grading with comparisons" (lines 16 and 18).
- Uniqueness of submission identifiers, and the absence of `external_anchor_exemplar` from the submission set, belong to the submission-set format and are not checked.
- Synthesis.CreateEgfWithComparisons: the index error on fewer than three submissions becomes `completed == false`. The state the artifact reaches before the error is still stated: the pairs and the first |subs| anchors.
