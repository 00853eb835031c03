/**
 * The 3D particle: a position that moves by its velocity once per update and
 * a death flag that is raised once the particle falls below y = 0 and is
 * never lowered again.
 */
module Particles {
  import opened Framework

  datatype Vec3 = Vec3(x: real, y: real, z: real)

  function Plus(a: Vec3, b: Vec3): Vec3
  {
    Vec3(a.x + b.x, a.y + b.y, a.z + b.z)
  }

  function Scale(k: real, v: Vec3): Vec3
  {
    Vec3(k * v.x, k * v.y, k * v.z)
  }

  /** Where a particle that starts at `p` with velocity `v` is after `k` steps. */
  function PosAfter(p: Vec3, v: Vec3, k: nat): Vec3
  {
    Plus(p, Scale(k as real, v))
  }

  /** The part of a particle's state that update changes. */
  datatype Motion = Motion(pos: Vec3, isDead: bool)

  /** One update: move by the velocity, then die if below the ground plane. */
  function Stepped(m: Motion, vel: Vec3): (n: Motion)
    ensures m.isDead ==> n.isDead
    ensures n.pos.y < 0.0 ==> n.isDead
    ensures n.isDead ==> m.isDead || n.pos.y < 0.0
  {
    var p := Plus(m.pos, vel);
    Motion(p, m.isDead || p.y < 0.0)
  }

  /** `n` updates in a row. */
  function Steps(m: Motion, vel: Vec3, n: nat): Motion
    decreases n
  {
    if n == 0 then m else Stepped(Steps(m, vel, n - 1), vel)
  }

  lemma OneMoreStep(p: Vec3, k: real, v: Vec3)
    ensures Plus(Plus(p, Scale(k, v)), v) == Plus(p, Scale(k + 1.0, v))
  {
    assert k * v.x + v.x == (k + 1.0) * v.x;
    assert k * v.y + v.y == (k + 1.0) * v.y;
    assert k * v.z + v.z == (k + 1.0) * v.z;
  }

  /** After `n` updates the particle has moved by exactly `n` velocities. */
  lemma {:induction false} StepsPosition(m: Motion, vel: Vec3, n: nat)
    ensures Steps(m, vel, n).pos == PosAfter(m.pos, vel, n)
    decreases n
  {
    if n > 0 {
      StepsPosition(m, vel, n - 1);
      var k := (n - 1) as real;
      OneMoreStep(m.pos, k, vel);
      assert k + 1.0 == n as real;
    }
  }

  /**
   * After `n` updates the particle is dead exactly when it was dead already
   * or one of the positions it reached on the way had y < 0.
   */
  lemma {:induction false} StepsDeath(m: Motion, vel: Vec3, n: nat)
    ensures Steps(m, vel, n).isDead <==>
      m.isDead || exists k: nat | 1 <= k <= n :: PosAfter(m.pos, vel, k).y < 0.0
    decreases n
  {
    if n > 0 {
      StepsDeath(m, vel, n - 1);
      StepsPosition(m, vel, n);
      if Steps(m, vel, n).isDead && !m.isDead && !Steps(m, vel, n - 1).isDead {
        assert PosAfter(m.pos, vel, n).y < 0.0;
      }
    }
  }

  /** Once dead, a particle stays dead however many updates follow. */
  lemma {:induction false} DeathIsSticky(m: Motion, vel: Vec3, n: nat, k: nat)
    requires Steps(m, vel, n).isDead
    ensures Steps(m, vel, n + k).isDead
    decreases k
  {
    if k > 0 {
      DeathIsSticky(m, vel, n, k - 1);
      assert Steps(m, vel, n + k) == Stepped(Steps(m, vel, n + k - 1), vel);
    }
  }

  class Particle {
    var pos: Vec3
    var vel: Vec3
    var color: Color
    var isDead: bool

    /** A particle before setup; only the death flag has an initial value. */
    constructor ()
      ensures !isDead
    {
      pos := Vec3(0.0, 0.0, 0.0);
      vel := Vec3(0.0, 0.0, 0.0);
      color := Rgb(255, 255, 255);
      isDead := false;
    }

    function State(): Motion
      reads this
    {
      Motion(pos, isDead)
    }

    /** setup: stores position, velocity and colour and revives the particle. */
    method Setup(p: Vec3, v: Vec3, c: Color)
      modifies this
      ensures pos == p && vel == v && color == c && !isDead
    {
      pos := p;
      vel := v;
      color := c;
      isDead := false;
    }

    /** update: one step of Stepped; velocity and colour stay as they were. */
    method Update()
      modifies this`pos, this`isDead
      ensures State() == Stepped(old(State()), vel)
      ensures pos == Plus(old(pos), vel)
      ensures isDead <==> old(isDead) || pos.y < 0.0
    {
      pos := Plus(pos, vel);
      if pos.y < 0.0 {
        isDead := true;
      }
    }
  }

  /** A particle set up at `p` with velocity `v` is at p + n·v after n updates, and dead iff it dipped below y = 0 on the way. */
  lemma FromSetup(p: Vec3, v: Vec3, n: nat)
    ensures Steps(Motion(p, false), v, n).pos == PosAfter(p, v, n)
    ensures Steps(Motion(p, false), v, n).isDead <==> exists k: nat | 1 <= k <= n :: PosAfter(p, v, k).y < 0.0
  {
    StepsPosition(Motion(p, false), v, n);
    StepsDeath(Motion(p, false), v, n);
  }
}
