/**
 * The Tree object: an energy counter that sets the branching depth, a
 * clamped mutation value that widens the jitter, a day counter, the random
 * seed of the walk and the display/target fields the header initialises.
 * Tree.cpp's member bodies are the behaviour; Tree.h contributes its
 * inline members and its field initialisers.
 */
module FractalTree {
  import opened Framework
  import opened Branching

  /** The day counter stops here. */
  const LastDay: int := 50

  /** Every walk starts with a trunk this long. */
  const RootLength: real := 150.0

  /** The depth level never leaves [0, DepthCap]. */
  const DepthCap: int := 10

  /** setup draws the seed as ofRandom(999999). */
  const SeedRange: real := 999999.0

  /**
   * The depth level for an energy: floor(energy / 100) clamped to [0, 10].
   * Each full hundred of energy is one level; below 100 it is 0 and from
   * 1000 on it stays at 10.
   */
  function DepthFor(energy: real): (d: int)
    ensures 0 <= d <= DepthCap
    ensures d == 0 <==> energy < 100.0
    ensures d == DepthCap <==> energy >= 1000.0
    ensures 0 < d ==> d as real * 100.0 <= energy
    ensures d < DepthCap ==> energy < (d + 1) as real * 100.0
  {
    ClampInt((energy / 100.0).Floor, 0, DepthCap)
  }

  /** The part of a tree that setup, update, feed and mutate act on. */
  datatype Growth = Growth(energy: real, mutation: real, currentDepth: int)

  /** The growth state setup leaves. */
  const Sprout: Growth := Growth(0.0, 0.0, 0)

  /** update(weatherBonus): energy grows by half the bonus, then the depth follows the energy. */
  function Updated(g: Growth, weatherBonus: real): (h: Growth)
    ensures h.energy == g.energy + 0.5 * weatherBonus
    ensures h.currentDepth == DepthFor(h.energy) && h.mutation == g.mutation
  {
    var energy := g.energy + 0.5 * weatherBonus;
    Growth(energy, g.mutation, DepthFor(energy))
  }

  /** feed(amount): energy grows by the amount; the depth waits for the next update. */
  function Fed(g: Growth, amount: real): (h: Growth)
    ensures h.energy == g.energy + amount
    ensures h.mutation == g.mutation && h.currentDepth == g.currentDepth
  {
    g.(energy := g.energy + amount)
  }

  /** mutate(amount): the mutation moves by the amount but never leaves [0, 1]. */
  function Mutated(g: Growth, amount: real): (h: Growth)
    ensures 0.0 <= h.mutation <= 1.0
    ensures 0.0 <= g.mutation + amount <= 1.0 ==> h.mutation == g.mutation + amount
    ensures g.mutation + amount < 0.0 ==> h.mutation == 0.0
    ensures g.mutation + amount > 1.0 ==> h.mutation == 1.0
    ensures h.energy == g.energy && h.currentDepth == g.currentDepth
  {
    g.(mutation := Clamp(g.mutation + amount, 0.0, 1.0))
  }

  /** The three ways the growth state changes after setup. */
  datatype Action = Update(weatherBonus: real) | Feed(amount: real) | Mutate(amount: real)

  function Apply(g: Growth, a: Action): Growth
  {
    match a
    case Update(b) => Updated(g, b)
    case Feed(x) => Fed(g, x)
    case Mutate(x) => Mutated(g, x)
  }

  function Run(g: Growth, acts: seq<Action>): Growth
    decreases |acts|
  {
    if acts == [] then g else Run(Apply(g, acts[0]), acts[1..])
  }

  /** No update bonus and no feed is negative. */
  predicate Growing(a: Action)
  {
    match a
    case Update(b) => 0.0 <= b
    case Feed(x) => 0.0 <= x
    case Mutate(_) => true
  }

  /** The facts every growth state reachable from setup keeps. */
  predicate Sound(g: Growth)
  {
    0.0 <= g.mutation <= 1.0 && 0 <= g.currentDepth <= DepthCap
  }

  /** Every action keeps the growth state sound. */
  lemma {:induction false} RunKeepsSound(g: Growth, acts: seq<Action>)
    requires Sound(g)
    ensures Sound(Run(g, acts))
    decreases |acts|
  {
    if acts != [] {
      RunKeepsSound(Apply(g, acts[0]), acts[1..]);
    }
  }

  /** The depth level has not overtaken the energy (it may lag behind after a feed). */
  predicate Lagging(g: Growth)
  {
    g.currentDepth <= DepthFor(g.energy)
  }

  /** A feed that takes no energy away; updates and mutations always qualify. */
  predicate NoNegativeFeed(a: Action)
  {
    !a.Feed? || 0.0 <= a.amount
  }

  /**
   * Setup leaves a lagging state, and only a negative feed can make the depth
   * overtake the energy: an update recomputes the depth from the energy.
   */
  lemma {:induction false} LaggingKept(g: Growth, acts: seq<Action>)
    requires Lagging(g)
    requires forall k | 0 <= k < |acts| :: NoNegativeFeed(acts[k])
    ensures Lagging(Sprout)
    ensures Lagging(Run(g, acts))
    decreases |acts|
  {
    if acts != [] {
      var h := Apply(g, acts[0]);
      assert NoNegativeFeed(acts[0]);
      if acts[0].Feed? {
        DepthForMonotone(g.energy, h.energy);
      }
      assert forall k | 0 <= k < |acts[1..]| :: NoNegativeFeed(acts[1..][k]) by {
        forall k | 0 <= k < |acts[1..]| ensures NoNegativeFeed(acts[1..][k]) {
          assert acts[1..][k] == acts[k + 1];
        }
      }
      LaggingKept(h, acts[1..]);
    }
  }

  /**
   * From a state whose depth has not overtaken its energy's level, with no
   * negative bonus and no negative feed, the energy and the depth level never
   * go down, whatever the mutations in between.
   */
  lemma {:induction false} GrowingRunIsMonotone(g: Growth, acts: seq<Action>)
    requires Lagging(g)
    requires forall k | 0 <= k < |acts| :: Growing(acts[k])
    ensures Lagging(Run(g, acts))
    ensures g.energy <= Run(g, acts).energy && g.currentDepth <= Run(g, acts).currentDepth
    decreases |acts|
  {
    if acts != [] {
      var h := Apply(g, acts[0]);
      assert Growing(acts[0]);
      if !acts[0].Mutate? {
        DepthForMonotone(g.energy, h.energy);
      }
      assert forall k | 0 <= k < |acts[1..]| :: Growing(acts[1..][k]) by {
        forall k | 0 <= k < |acts[1..]| ensures Growing(acts[1..][k]) {
          assert acts[1..][k] == acts[k + 1];
        }
      }
      GrowingRunIsMonotone(h, acts[1..]);
    }
  }

  lemma DepthForMonotone(e1: real, e2: real)
    requires e1 <= e2
    ensures DepthFor(e1) <= DepthFor(e2)
  {
  }

  /**
   * After setup, any sequence of actions leaves mutation in [0, 1] and the
   * depth in [0, 10]; growing actions leave energy and depth at least
   * where setup put them.
   */
  lemma AfterSetup(acts: seq<Action>)
    ensures Sound(Run(Sprout, acts))
    ensures (forall k | 0 <= k < |acts| :: Growing(acts[k])) ==> 0.0 <= Run(Sprout, acts).energy
  {
    RunKeepsSound(Sprout, acts);
    if forall k | 0 <= k < |acts| :: Growing(acts[k]) {
      GrowingRunIsMonotone(Sprout, acts);
    }
  }

  /** incrementDay: one more day until the last, then no change. */
  function NextDay(d: int): (e: int)
    ensures e == d + 1 <==> d < LastDay
    ensures e == d <==> d >= LastDay
  {
    if d < LastDay then d + 1 else d
  }

  /** The day counter after n calls of incrementDay. */
  function DayAfter(d: int, n: nat): int
    decreases n
  {
    if n == 0 then d else DayAfter(NextDay(d), n - 1)
  }

  /** From a day in [1, 50], n calls reach day min(d + n, 50). */
  lemma {:induction false} DayAfterClosedForm(d: int, n: nat)
    requires 1 <= d <= LastDay
    ensures DayAfter(d, n) == if d + n < LastDay then d + n else LastDay
    decreases n
  {
    if n > 0 {
      DayAfterClosedForm(NextDay(d), n - 1);
    }
  }

  /** From the first day the counter stays in [1, 50] and is 50 after 49 calls or more. */
  lemma DaysFromFirst(n: nat)
    ensures 1 <= DayAfter(1, n) <= LastDay
    ensures n >= 49 ==> DayAfter(1, n) == LastDay
  {
    DayAfterClosedForm(1, n);
  }

  /** The raw draws the generator yields after ofSeedRandom(s), for every seed s. */
  type Seeding = nat -> Draws

  ghost predicate IsUnitSeeding(seeding: Seeding)
  {
    forall s: nat, i: nat :: 0.0 <= seeding(s)(i) < 1.0
  }

  class Tree {
    /** The header's MAX_DEPTH; no member of Tree.cpp or Tree.h reads it. */
    static const MaxDepth: int := 6

    var energy: real
    var mutation: real
    var currentDepth: int
    var seed: nat
    var dayCount: int

    // display and target values of length, thickness and mutation
    var bLen: real
    var bThick: real
    var bMutation: real
    var tLen: real
    var tThick: real
    var tMutation: real
    var maxMutationReached: real

    ghost predicate Valid()
      reads this
    {
      0.0 <= mutation <= 1.0 && 0 <= currentDepth <= DepthCap && 1 <= dayCount <= LastDay
    }

    function GrowthState(): Growth
      reads this
    {
      Growth(energy, mutation, currentDepth)
    }

    /** A fresh tree, as the header's field initialisers leave it. */
    constructor ()
      ensures Valid()
      ensures bLen == 0.0 && bThick == 0.0 && bMutation == 0.0
      ensures tLen == 10.0 && tThick == 2.0 && tMutation == 0.0
      ensures currentDepth == 0 && dayCount == 1 && maxMutationReached == 0.0
      ensures energy == 0.0 && mutation == 0.0
    {
      bLen, bThick, bMutation := 0.0, 0.0, 0.0;
      tLen, tThick, tMutation := 10.0, 2.0, 0.0;
      currentDepth, dayCount := 0, 1;
      maxMutationReached := 0.0;
      energy, mutation := 0.0, 0.0;
      seed := 0;
    }

    /** setup: energy, mutation and depth back to 0 and a new seed from the raw draw `u`. */
    method Setup(u: real)
      requires Valid()
      requires 0.0 <= u < 1.0
      modifies this`energy, this`mutation, this`currentDepth, this`seed
      ensures Valid()
      ensures GrowthState() == Sprout
      ensures seed == Uniform(u, 0.0, SeedRange).Floor && seed < 999999
    {
      energy := 0.0;
      mutation := 0.0;
      currentDepth := 0;
      var drawn := Uniform(u, 0.0, SeedRange);
      seed := drawn.Floor;
    }

    /** update(weatherBonus) as Tree.cpp defines it. */
    method Update(weatherBonus: real)
      requires Valid()
      modifies this`energy, this`currentDepth
      ensures Valid()
      ensures GrowthState() == Updated(old(GrowthState()), weatherBonus)
      ensures 0 <= currentDepth <= DepthCap
    {
      energy := energy + 0.5 * weatherBonus;
      currentDepth := ClampInt((energy / 100.0).Floor, 0, DepthCap);
    }

    method Feed(amount: real)
      requires Valid()
      modifies this`energy
      ensures Valid()
      ensures GrowthState() == Fed(old(GrowthState()), amount)
    {
      energy := energy + amount;
    }

    method Mutate(amount: real)
      requires Valid()
      modifies this`mutation
      ensures Valid()
      ensures GrowthState() == Mutated(old(GrowthState()), amount)
    {
      mutation := Clamp(mutation + amount, 0.0, 1.0);
    }

    method GetDayCount() returns (d: int)
      ensures d == dayCount
    {
      d := dayCount;
    }

    method GetLen() returns (len: real)
      ensures len == bLen
    {
      len := bLen;
    }

    method IncrementDay()
      requires Valid()
      modifies this`dayCount
      ensures Valid()
      ensures dayCount == NextDay(old(dayCount))
    {
      if dayCount < LastDay {
        dayCount := dayCount + 1;
      }
    }

    /**
     * draw's walk: the generator re-seeded with `seed`, then drawBranch(150,
     * currentDepth). The lines depend only on the seeded stream, the depth
     * and the mutation, so drawing again gives the same lines. There are at
     * most 2^(currentDepth+1) - 1 of them, each 150 * 0.75^k long for k its
     * distance from the trunk, and every fork is mirrored within the jitter.
     */
    method Draw(seeding: Seeding) returns (b: Branch)
      requires Valid() && IsUnitSeeding(seeding)
      ensures b == DrawBranch(seeding(seed), 0, RootLength, currentDepth, mutation).branch
      ensures 1 <= |Segments(b)| <= Pow2(currentDepth + 1) - 1
      ensures Segments(b)[0] == Segment(RootLength, currentDepth + 1, currentDepth)
      ensures forall s | s in Segments(b) :: Scaled(s, RootLength, currentDepth)
      ensures forall t | t in Turns(b) :: MirroredWithin(t, mutation)
    {
      var draws := seeding(seed);
      b := DrawBranch(draws, 0, RootLength, currentDepth, mutation).branch;
      CallShape(draws, 0, RootLength, currentDepth, mutation);
      SegmentCountBound(draws, 0, RootLength, currentDepth, mutation);
      SegmentsScaled(draws, 0, RootLength, currentDepth, mutation);
      ForksMirrored(draws, 0, RootLength, currentDepth, mutation);
    }
  }
}
