/**
 * Tree::drawBranch as a pure generator of segments.
 *
 * The recursive walk draws one line per call and then, if a gate draw lets
 * it, recurses into two mirrored children. The matrix stack and the drawing
 * calls are replaced by data: each call yields a `Node` holding the line it
 * drew, and each fork records the two rotations applied before the children.
 * The global random generator becomes an explicit stream of raw draws and a
 * position in it; every call that draws takes, in order, the x jitter, the
 * y jitter and the gate draw, then the left child and after it the right
 * child take theirs.
 */
module Branching {
  import opened Framework

  /** The line one call draws: its length, its line width, and its depth. */
  datatype Segment = Segment(length: real, lineWidth: int, depth: int)

  /** The rotations, in degrees about local Y and then local Z, applied at the tip before a child. */
  datatype Turn = Turn(yawDeg: real, rollDeg: real)

  /** What one call of the walk produces. */
  datatype Branch =
    | Pruned                       // depth < 0: the call returns at once
    | Node(seg: Segment, fork: Fork)

  /** A node's children: none when the gate draw fails, otherwise exactly two. */
  datatype Fork =
    | Bare
    | Forked(leftTurn: Turn, left: Branch, rightTurn: Turn, right: Branch)

  /** A walk together with the stream position after its last draw. */
  datatype Walk = Walk(branch: Branch, next: nat)

  /** Each child is drawn at three quarters of its parent's length. */
  const LengthRatio: real := 0.75

  /** A fork happens when the gate draw is above this. */
  const ForkGate: real := 0.1

  /** The largest jitter, in degrees, at full mutation. */
  const JitterRange: real := 30.0

  function Negated(t: Turn): Turn
  {
    Turn(-t.yawDeg, -t.rollDeg)
  }

  /** The lines of a walk in the order they are drawn (pre-order, left child before right). */
  function Segments(b: Branch): (s: seq<Segment>)
    ensures b == Pruned <==> s == []
    ensures b.Node? ==> s[0] == b.seg
    ensures b.Node? && b.fork.Forked? ==> s == [b.seg] + Segments(b.fork.left) + Segments(b.fork.right)
    ensures b.Node? && b.fork.Bare? ==> |s| == 1
  {
    match b
    case Pruned => []
    case Node(seg, Bare) => [seg]
    case Node(seg, Forked(_, l, _, r)) => [seg] + Segments(l) + Segments(r)
  }

  /** The turn pairs (left, right) of every fork of a walk, in pre-order. */
  function Turns(b: Branch): seq<(Turn, Turn)>
  {
    match b
    case Pruned => []
    case Node(_, Bare) => []
    case Node(_, Forked(lt, l, rt, r)) => [(lt, rt)] + Turns(l) + Turns(r)
  }

  /** The jitter of one call: ofRandom(-30, 30) scaled by the mutation. */
  function Jitter(u: real, mutation: real): (j: real)
    ensures mutation == 0.0 ==> j == 0.0
    ensures 0.0 <= u < 1.0 && 0.0 <= mutation ==> -JitterRange * mutation <= j <= JitterRange * mutation
  {
    var x := Uniform(u, -JitterRange, JitterRange);
    if 0.0 <= u < 1.0 && 0.0 <= mutation then
      ProductSign(x + JitterRange, mutation);
      ProductSign(JitterRange - x, mutation);
      x * mutation
    else x * mutation
  }

  function Pow(b: real, k: nat): real
  {
    if k == 0 then 1.0 else b * Pow(b, k - 1)
  }

  function Pow2(k: nat): (p: nat)
    ensures 1 <= p
  {
    if k == 0 then 1 else 2 * Pow2(k - 1)
  }

  /**
   * drawBranch(length, depth) reading the draws from position `pos`: the
   * walk together with the position of the first draw it left untouched.
   * A call that draws takes at least its own three draws.
   */
  function DrawBranch(draws: Draws, pos: nat, length: real, depth: int, mutation: real): (w: Walk)
    ensures pos <= w.next
    ensures depth >= 0 ==> w.branch.Node? && pos + 3 <= w.next
    decreases if depth < 0 then 0 else depth + 1
  {
    if depth < 0 then Walk(Pruned, pos)
    else
      var jitterX := Jitter(draws(pos), mutation);
      var jitterY := Jitter(draws(pos + 1), mutation);
      var seg := Segment(length, depth + 1, depth);
      if Uniform(draws(pos + 2), 0.0, 1.0) > ForkGate then
        var lt := Turn(30.0 + jitterY, 20.0 + jitterX);
        var rt := Turn(-30.0 - jitterY, -20.0 - jitterX);
        var l := DrawBranch(draws, pos + 3, length * LengthRatio, depth - 1, mutation);
        var r := DrawBranch(draws, l.next, length * LengthRatio, depth - 1, mutation);
        Walk(Node(seg, Forked(lt, l.branch, rt, r.branch)), r.next)
      else
        Walk(Node(seg, Bare), pos + 3)
  }

  /**
   * One call of the walk: with negative depth it draws nothing and takes no
   * draw; otherwise it draws one line of the given length and width
   * depth + 1 before anything else, and it forks exactly when the gate draw
   * is above 0.1, each child three quarters as long and one level shallower.
   */
  lemma {:induction false} CallShape(draws: Draws, pos: nat, length: real, depth: int, mutation: real)
    ensures var w := DrawBranch(draws, pos, length, depth, mutation);
      && (depth < 0 <==> w.branch == Pruned)
      && (depth < 0 ==> w.next == pos)
      && (depth >= 0 ==> w.branch.seg == Segment(length, depth + 1, depth))
      && (depth >= 0 ==> Segments(w.branch)[0] == Segment(length, depth + 1, depth))
      && (depth >= 0 ==> (w.branch.fork.Forked? <==> Uniform(draws(pos + 2), 0.0, 1.0) > ForkGate))
      && (depth >= 0 && w.branch.fork.Forked? ==>
        && w.branch.fork.leftTurn == Turn(30.0 + Jitter(draws(pos + 1), mutation), 20.0 + Jitter(draws(pos), mutation))
        && w.branch.fork.rightTurn == Turn(-30.0 - Jitter(draws(pos + 1), mutation), -20.0 - Jitter(draws(pos), mutation)))
      && (w.branch.Node? && w.branch.fork.Forked? ==>
        var f := w.branch.fork;
        && (depth == 0 ==> f.left == Pruned && f.right == Pruned)
        && (depth > 0 ==> f.left.Node? && f.left.seg == Segment(length * LengthRatio, depth, depth - 1))
        && (depth > 0 ==> f.right.Node? && f.right.seg == Segment(length * LengthRatio, depth, depth - 1)))
    decreases if depth < 0 then 0 else depth + 1
  {
    if depth >= 0 && Uniform(draws(pos + 2), 0.0, 1.0) > ForkGate {
      var l := DrawBranch(draws, pos + 3, length * LengthRatio, depth - 1, mutation);
      CallShape(draws, pos + 3, length * LengthRatio, depth - 1, mutation);
      CallShape(draws, l.next, length * LengthRatio, depth - 1, mutation);
    }
  }

  /** Every call that draws takes exactly three draws, so the walk takes three per line. */
  lemma {:induction false} DrawsTaken(draws: Draws, pos: nat, length: real, depth: int, mutation: real)
    ensures var w := DrawBranch(draws, pos, length, depth, mutation);
      w.next == pos + 3 * |Segments(w.branch)|
    decreases if depth < 0 then 0 else depth + 1
  {
    if depth >= 0 && Uniform(draws(pos + 2), 0.0, 1.0) > ForkGate {
      var l := DrawBranch(draws, pos + 3, length * LengthRatio, depth - 1, mutation);
      DrawsTaken(draws, pos + 3, length * LengthRatio, depth - 1, mutation);
      DrawsTaken(draws, l.next, length * LengthRatio, depth - 1, mutation);
    }
  }

  /** A walk from depth d draws at most 2^(d+1) - 1 lines; with depth < 0 it draws none. */
  lemma {:induction false} SegmentCountBound(draws: Draws, pos: nat, length: real, depth: int, mutation: real)
    ensures depth < 0 ==> Segments(DrawBranch(draws, pos, length, depth, mutation).branch) == []
    ensures depth >= 0 ==> |Segments(DrawBranch(draws, pos, length, depth, mutation).branch)| <= Pow2(depth + 1) - 1
    decreases if depth < 0 then 0 else depth + 1
  {
    if depth >= 0 && Uniform(draws(pos + 2), 0.0, 1.0) > ForkGate {
      var l := DrawBranch(draws, pos + 3, length * LengthRatio, depth - 1, mutation);
      SegmentCountBound(draws, pos + 3, length * LengthRatio, depth - 1, mutation);
      SegmentCountBound(draws, l.next, length * LengthRatio, depth - 1, mutation);
    }
  }

  /** The shape every line of a walk from (length, depth) has. */
  predicate Scaled(s: Segment, length: real, depth: int)
  {
    0 <= s.depth <= depth && s.lineWidth == s.depth + 1 &&
    s.length == length * Pow(LengthRatio, depth - s.depth)
  }

  lemma ScaledChild(s: Segment, length: real, depth: int)
    requires Scaled(s, length * LengthRatio, depth - 1)
    ensures Scaled(s, length, depth)
  {
    var k := depth - 1 - s.depth;
    calc {
      length * LengthRatio * Pow(LengthRatio, k);
      length * (LengthRatio * Pow(LengthRatio, k));
      length * Pow(LengthRatio, k + 1);
    }
  }

  /**
   * Every line of a walk from (length, depth) is drawn at a depth k' in
   * [0, depth], with width k' + 1 and length `length * 0.75^(depth - k')`.
   */
  lemma {:induction false} SegmentsScaled(draws: Draws, pos: nat, length: real, depth: int, mutation: real)
    ensures forall s | s in Segments(DrawBranch(draws, pos, length, depth, mutation).branch) :: Scaled(s, length, depth)
    decreases if depth < 0 then 0 else depth + 1
  {
    var w := DrawBranch(draws, pos, length, depth, mutation);
    if depth >= 0 {
      assert Scaled(w.branch.seg, length, depth);
      if w.branch.fork.Forked? {
        var l := DrawBranch(draws, pos + 3, length * LengthRatio, depth - 1, mutation);
        var r := DrawBranch(draws, l.next, length * LengthRatio, depth - 1, mutation);
        SegmentsScaled(draws, pos + 3, length * LengthRatio, depth - 1, mutation);
        SegmentsScaled(draws, l.next, length * LengthRatio, depth - 1, mutation);
        forall s | s in Segments(l.branch) + Segments(r.branch) ensures Scaled(s, length, depth) {
          ScaledChild(s, length, depth);
        }
      }
    }
  }

  /** The two turns of a fork are mirror images, each within the jitter range of (30, 20). */
  predicate MirroredWithin(t: (Turn, Turn), mutation: real)
  {
    t.1 == Negated(t.0) &&
    -JitterRange * mutation <= t.0.yawDeg - 30.0 <= JitterRange * mutation &&
    -JitterRange * mutation <= t.0.rollDeg - 20.0 <= JitterRange * mutation
  }

  lemma JitterBound(u: real, mutation: real)
    requires 0.0 <= u < 1.0 && 0.0 <= mutation
    ensures -JitterRange * mutation <= Uniform(u, -JitterRange, JitterRange) * mutation <= JitterRange * mutation
  {
    var x := Uniform(u, -JitterRange, JitterRange);
    ProductSign(x + JitterRange, mutation);
    ProductSign(JitterRange - x, mutation);
    assert (x + JitterRange) * mutation == x * mutation + JitterRange * mutation;
    assert (JitterRange - x) * mutation == JitterRange * mutation - x * mutation;
  }

  /**
   * With unit draws and a non-negative mutation, every fork turns its left
   * child by (30 + jy, 20 + jx) and its right child by the negation, with
   * both jitters at most 30 * mutation in magnitude.
   */
  lemma {:induction false} ForksMirrored(draws: Draws, pos: nat, length: real, depth: int, mutation: real)
    requires IsUnitStream(draws) && 0.0 <= mutation
    ensures forall t | t in Turns(DrawBranch(draws, pos, length, depth, mutation).branch) :: MirroredWithin(t, mutation)
    decreases if depth < 0 then 0 else depth + 1
  {
    var w := DrawBranch(draws, pos, length, depth, mutation);
    if depth >= 0 && w.branch.fork.Forked? {
      var l := DrawBranch(draws, pos + 3, length * LengthRatio, depth - 1, mutation);
      JitterBound(draws(pos), mutation);
      JitterBound(draws(pos + 1), mutation);
      ForksMirrored(draws, pos + 3, length * LengthRatio, depth - 1, mutation);
      ForksMirrored(draws, l.next, length * LengthRatio, depth - 1, mutation);
    }
  }

  /** With no mutation every fork turns its children by exactly (30, 20) and (-30, -20). */
  lemma StillForks(draws: Draws, pos: nat, length: real, depth: int)
    requires IsUnitStream(draws)
    ensures forall t | t in Turns(DrawBranch(draws, pos, length, depth, 0.0).branch) ::
      t.0 == Turn(30.0, 20.0) && t.1 == Turn(-30.0, -20.0)
  {
    ForksMirrored(draws, pos, length, depth, 0.0);
  }

  /** The two streams agree on every position in [lo, hi). */
  ghost predicate Agree(d1: Draws, d2: Draws, lo: nat, hi: nat)
  {
    forall i: nat | lo <= i < hi :: d1(i) == d2(i)
  }

  lemma AgreeWithin(d1: Draws, d2: Draws, lo: nat, hi: nat, lo': nat, hi': nat)
    requires Agree(d1, d2, lo, hi) && lo <= lo' && hi' <= hi
    ensures Agree(d1, d2, lo', hi')
  {
  }

  /** One call reads its own three draws and then its children's. */
  lemma SameCall(d1: Draws, d2: Draws, pos: nat, length: real, depth: int, mutation: real)
    requires depth >= 0
    requires d1(pos) == d2(pos) && d1(pos + 1) == d2(pos + 1) && d1(pos + 2) == d2(pos + 2)
    requires Uniform(d1(pos + 2), 0.0, 1.0) > ForkGate ==>
      var l := DrawBranch(d1, pos + 3, length * LengthRatio, depth - 1, mutation);
      && DrawBranch(d2, pos + 3, length * LengthRatio, depth - 1, mutation) == l
      && DrawBranch(d2, l.next, length * LengthRatio, depth - 1, mutation)
         == DrawBranch(d1, l.next, length * LengthRatio, depth - 1, mutation)
    ensures DrawBranch(d2, pos, length, depth, mutation) == DrawBranch(d1, pos, length, depth, mutation)
  {
  }

  /**
   * The walk reads only the draws in [pos, next): two streams that agree on
   * them give the same walk. Re-seeding the generator before each walk
   * therefore reproduces the same lines.
   */
  lemma {:induction false} DrawsDetermineWalk(d1: Draws, d2: Draws, pos: nat, length: real, depth: int, mutation: real)
    requires Agree(d1, d2, pos, DrawBranch(d1, pos, length, depth, mutation).next)
    ensures DrawBranch(d2, pos, length, depth, mutation) == DrawBranch(d1, pos, length, depth, mutation)
    decreases if depth < 0 then 0 else depth + 1
  {
    if depth >= 0 {
      var w := DrawBranch(d1, pos, length, depth, mutation);
      var l := DrawBranch(d1, pos + 3, length * LengthRatio, depth - 1, mutation);
      var r := DrawBranch(d1, l.next, length * LengthRatio, depth - 1, mutation);
      assert d1(pos) == d2(pos) && d1(pos + 1) == d2(pos + 1) && d1(pos + 2) == d2(pos + 2);
      if Uniform(d1(pos + 2), 0.0, 1.0) > ForkGate {
        AgreeWithin(d1, d2, pos, w.next, pos + 3, l.next);
        DrawsDetermineWalk(d1, d2, pos + 3, length * LengthRatio, depth - 1, mutation);
        AgreeWithin(d1, d2, pos, w.next, l.next, r.next);
        DrawsDetermineWalk(d1, d2, l.next, length * LengthRatio, depth - 1, mutation);
      }
      SameCall(d1, d2, pos, length, depth, mutation);
    }
  }
}
