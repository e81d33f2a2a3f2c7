/**
 * Winner determination for one pairwise comparison: the ground-truth winner
 * derived from the two ground-truth grades, and the observed winner that
 * keeps or flips it depending on one uniform draw and the accuracy target.
 */
module Judging {

  /** The two symbolic winners of a comparison, written "a" and "b" in the artifact. */
  datatype Side = A | B

  /** The lower-case label stored as the comparison's winner. */
  function Label(s: Side): (l: string)
    ensures l == "a" || l == "b"
    ensures (l == "a") <==> s == A
  {
    match s
    case A => "a"
    case B => "b"
  }

  /** The upper-case label used in the justification text. */
  function Upper(s: Side): string
  {
    match s
    case A => "A"
    case B => "B"
  }

  /** The other side: "b" if the winner is "a", otherwise "a". */
  function Flip(s: Side): (t: Side)
    ensures t != s
  {
    if s == A then B else A
  }

  lemma FlipInvolution(s: Side)
    ensures Flip(Flip(s)) == s
  {
  }

  /**
   * Three-way ground truth: a decided winner, or a tie that the generator
   * settles with a random choice only when it emits the comparison.
   */
  datatype Truth = Decided(winner: Side) | Tie

  /** Ground truth from the grade difference grade_a - grade_b. */
  function GroundTruth(gradeA: int, gradeB: int): (t: Truth)
    ensures t == Decided(A) <==> gradeA > gradeB
    ensures t == Decided(B) <==> gradeA < gradeB
    ensures t == Tie <==> gradeA == gradeB
  {
    var diff := gradeA - gradeB;
    if diff > 0 then Decided(A)
    else if diff < 0 then Decided(B)
    else Tie
  }

  /** Swapping the two submissions swaps the decided winner and keeps a tie. */
  lemma GroundTruthSwap(gradeA: int, gradeB: int)
    ensures GroundTruth(gradeB, gradeA) ==
            match GroundTruth(gradeA, gradeB)
            case Decided(w) => Decided(Flip(w))
            case Tie => Tie
  {
  }

  /**
   * The observed winner: the correct winner when the uniform draw r falls
   * below the accuracy target, its flip otherwise.
   */
  function ObservedWinner(correct: Side, r: real, accuracy: real): Side
  {
    if r < accuracy then correct else Flip(correct)
  }

  /** The observed winner agrees with the correct one exactly when r < accuracy. */
  lemma ObservedAgreesIff(correct: Side, r: real, accuracy: real)
    ensures ObservedWinner(correct, r, accuracy) == correct <==> r < accuracy
    ensures ObservedWinner(correct, r, accuracy) != correct <==> ObservedWinner(correct, r, accuracy) == Flip(correct)
  {
  }

  /** For r in [0, 1), an accuracy of 1 or more never flips. */
  lemma AccuracyAtLeastOneKeeps(correct: Side, r: real, accuracy: real)
    requires 0.0 <= r < 1.0
    requires accuracy >= 1.0
    ensures ObservedWinner(correct, r, accuracy) == correct
  {
  }

  /** For r in [0, 1), an accuracy of 0 or less always flips. */
  lemma AccuracyAtMostZeroFlips(correct: Side, r: real, accuracy: real)
    requires 0.0 <= r < 1.0
    requires accuracy <= 0.0
    ensures ObservedWinner(correct, r, accuracy) == Flip(correct)
  {
  }
}
