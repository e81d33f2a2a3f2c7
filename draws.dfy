/**
 * The shared random source, seen as the stream of values it hands out.
 * Each call of the generator (randint, choice, random, uniform) takes the
 * next element of the stream; the element carries the kind of call it
 * answers and a value in that call's range.
 */
module Draws {
  import opened Judging

  /** randint(-1, 1) */
  type Noise = d: int | -1 <= d <= 1

  /** random(): a value in [0, 1) */
  type Fraction = r: real | 0.0 <= r < 1.0

  /** uniform(0.6, 0.95): a value in [0.6, 0.95] */
  type Confidence = c: real | 0.6 <= c <= 0.95 witness 0.6

  datatype Kind = RandIntKind | ChoiceKind | RandomKind | UniformKind

  datatype Draw =
    | RandIntDraw(noise: Noise)
    | ChoiceDraw(side: Side)
    | RandomDraw(r: Fraction)
    | UniformDraw(u: Confidence)

  function KindOf(d: Draw): Kind
  {
    match d
    case RandIntDraw(_) => RandIntKind
    case ChoiceDraw(_) => ChoiceKind
    case RandomDraw(_) => RandomKind
    case UniformDraw(_) => UniformKind
  }

  /** The stream starts with draws of exactly the given kinds, in order. */
  predicate Supplies(draws: seq<Draw>, kinds: seq<Kind>)
  {
    |kinds| <= |draws| && forall k :: 0 <= k < |kinds| ==> KindOf(draws[k]) == kinds[k]
  }

  /** A stream that supplies a + b supplies a, and what is left after a supplies b. */
  lemma SuppliesSplit(draws: seq<Draw>, a: seq<Kind>, b: seq<Kind>)
    requires Supplies(draws, a + b)
    ensures Supplies(draws, a)
    ensures Supplies(draws[|a|..], b)
  {
    forall k | 0 <= k < |b|
      ensures KindOf(draws[|a|..][k]) == b[k]
    {
      assert (a + b)[|a| + k] == b[k];
    }
  }

  /** A stream that supplies some kinds supplies every prefix of them. */
  lemma SuppliesPrefix(draws: seq<Draw>, a: seq<Kind>, b: seq<Kind>)
    requires a <= b
    requires Supplies(draws, b)
    ensures Supplies(draws, a)
  {
    forall k | 0 <= k < |a|
      ensures KindOf(draws[k]) == a[k]
    {
      assert a[k] == b[k];
    }
  }

  /** Two streams agree on their first m draws. */
  predicate Agree(d1: seq<Draw>, d2: seq<Draw>, m: nat)
  {
    m <= |d1| && m <= |d2| && forall j :: 0 <= j < m ==> d1[j] == d2[j]
  }

  /** Streams that agree on a + m draws agree on the first a, and after those on the next m. */
  lemma AgreeSplit(d1: seq<Draw>, d2: seq<Draw>, a: nat, m: nat)
    requires Agree(d1, d2, a + m)
    ensures Agree(d1, d2, a)
    ensures Agree(d1[a..], d2[a..], m)
  {
    forall j | 0 <= j < m
      ensures d1[a..][j] == d2[a..][j]
    {
      assert d1[a + j] == d2[a + j];
    }
  }

  /** Whether two streams supply the given kinds is decided by their first |kinds| draws. */
  lemma SuppliesOnPrefix(d1: seq<Draw>, d2: seq<Draw>, kinds: seq<Kind>)
    requires Supplies(d1, kinds) && Agree(d1, d2, |kinds|)
    ensures Supplies(d2, kinds)
  {
  }

  /**
   * The seeded random generator, owned by one run. Its state is the stream
   * of draws not yet consumed.
   */
  class Rng {
    var draws: seq<Draw>

    constructor (draws: seq<Draw>)
      ensures this.draws == draws
    {
      this.draws := draws;
    }

    /** randint(-1, 1) */
    method RandInt() returns (noise: Noise)
      requires draws != [] && draws[0].RandIntDraw?
      modifies this
      ensures noise == old(draws[0]).noise
      ensures draws == old(draws[1..])
    {
      noise := draws[0].noise;
      draws := draws[1..];
    }

    /** choice(["a", "b"]) */
    method Choice() returns (side: Side)
      requires draws != [] && draws[0].ChoiceDraw?
      modifies this
      ensures side == old(draws[0]).side
      ensures draws == old(draws[1..])
    {
      side := draws[0].side;
      draws := draws[1..];
    }

    /** random() */
    method Random() returns (r: Fraction)
      requires draws != [] && draws[0].RandomDraw?
      modifies this
      ensures r == old(draws[0]).r
      ensures draws == old(draws[1..])
    {
      r := draws[0].r;
      draws := draws[1..];
    }

    /** uniform(0.6, 0.95) */
    method Uniform() returns (u: Confidence)
      requires draws != [] && draws[0].UniformDraw?
      modifies this
      ensures u == old(draws[0]).u
      ensures draws == old(draws[1..])
    {
      u := draws[0].u;
      draws := draws[1..];
    }
  }
}
