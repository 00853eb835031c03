/**
 * The shared game vocabulary: the enumerations, the records whose fields
 * have default initialisers, and the 2D effect particle whose update
 * dispatches on its type.
 */
module Constants {
  import opened Framework

  datatype GrowthType = TypeDefault | TypeElegant | TypeSturdy | TypeEldritch
  datatype FlowerType = FlowerNone | FlowerCrystal | FlowerPetal | FlowerSpirit
  datatype CommandType = CmdWater | CmdFertilizer | CmdKotodama
  datatype BarState = BarIdle | BarLevelUpFlash | BarResetWait
  datatype ParticleType = PWater | PFertilizer | PKotodama | PRainSplash | PBloom

  /** The enumerator's value in the C++ enum: declaration order from 0. */
  function GrowthOrdinal(t: GrowthType): (n: nat)
    ensures n < 4
    ensures n == 0 <==> t == TypeDefault
  {
    match t
    case TypeDefault => 0
    case TypeElegant => 1
    case TypeSturdy => 2
    case TypeEldritch => 3
  }

  function FlowerOrdinal(f: FlowerType): (n: nat)
    ensures n < 4
    ensures n == 0 <==> f == FlowerNone
  {
    match f
    case FlowerNone => 0
    case FlowerCrystal => 1
    case FlowerPetal => 2
    case FlowerSpirit => 3
  }

  function ParticleOrdinal(t: ParticleType): (n: nat)
    ensures n < 5
  {
    match t
    case PWater => 0
    case PFertilizer => 1
    case PKotodama => 2
    case PRainSplash => 3
    case PBloom => 4
  }

  /** Distinct enumerators have distinct values. */
  lemma OrdinalsInjective(a: GrowthType, b: GrowthType, f: FlowerType, g: FlowerType, p: ParticleType, q: ParticleType)
    ensures GrowthOrdinal(a) == GrowthOrdinal(b) ==> a == b
    ensures FlowerOrdinal(f) == FlowerOrdinal(g) ==> f == g
    ensures ParticleOrdinal(p) == ParticleOrdinal(q) ==> p == q
  {
  }

  datatype EvolutionFlags = EvolutionFlags(hasEvolvedType: bool, hasEvolvedFlower: bool, growth: GrowthType)

  /** A default-initialised EvolutionFlags: nothing has evolved, the growth type is the default one. */
  function NewEvolutionFlags(): (f: EvolutionFlags)
    ensures !f.hasEvolvedType && !f.hasEvolvedFlower && GrowthOrdinal(f.growth) == 0
  {
    EvolutionFlags(false, false, TypeDefault)
  }

  /**
   * TreeSettings with its one default initialiser applied: `init` stands for
   * the values the creator supplies for the other fields.
   */
  datatype TreeSettings = TreeSettings(
    maxDepth: int,
    expBase: real, expPower: real,
    lenScale: real, thickScale: real,
    branchLenRatio: real, branchThickRatio: real,
    baseAngle: real, mutationAngleMax: real,
    trunkHueStart: real, trunkHueEnd: real,
    twistFactor: real,
    leafColor: Color, flowerColor: Color)

  /** The settings `init` with the twist reset to its default 0; every other field is kept. */
  function NewTreeSettings(init: TreeSettings): (s: TreeSettings)
    ensures s.twistFactor == 0.0
    ensures s.(twistFactor := init.twistFactor) == init
  {
    init.(twistFactor := 0.0)
  }

  /**
   * The scalar part of GameState; the UI settings, the audio state and the
   * sigil rings are records without logic and are not part of this model.
   */
  datatype GameState = GameState(
    dayCount: int,
    skillPoints: int,
    gameEnded: bool,
    viewMode: bool,
    showDebug: bool,
    timeFrozen: bool,
    infiniteSkills: bool,
    finalTitle: string,
    maxDays: int,
    currentType: GrowthType,
    currentFlowerType: FlowerType,
    resilienceLevel: int,
    actionCooldown: real,
    cinematicMode: bool,
    flashAlpha: real,
    currentPresetIndex: int,
    evo: EvolutionFlags,
    barState: BarState,
    barFlashTimer: real,
    auraTimer: real,
    levelUpBubbleTimer: real,
    lastCommandIndex: int,
    auraColor: Color,
    auraLayers: int,
    sigilRotationSpeed: real)

  /**
   * A default-initialised GameState: day 1 of 50 with 3 skill points, no
   * growth type or flower chosen, no flags set, no command used yet, all
   * timers at zero and a white aura of two layers.
   */
  function NewGameState(): (g: GameState)
    ensures g.dayCount == 1 && g.maxDays == 50 && g.dayCount <= g.maxDays
    ensures g.skillPoints == 3 && g.resilienceLevel == 0
    ensures GrowthOrdinal(g.currentType) == 0 && FlowerOrdinal(g.currentFlowerType) == 0
    ensures !g.gameEnded && !g.viewMode && !g.showDebug && !g.timeFrozen && !g.infiniteSkills && !g.cinematicMode
    ensures g.finalTitle == [] && g.evo == NewEvolutionFlags() && g.barState == BarIdle
    ensures g.actionCooldown == 0.0 && g.flashAlpha == 0.0 && g.barFlashTimer == 0.0
    ensures g.auraTimer == 0.0 && g.levelUpBubbleTimer == 0.0
    ensures g.currentPresetIndex == 0 && g.lastCommandIndex == -1
    ensures g.auraColor == Rgb(255, 255, 255) && IsByteColor(g.auraColor)
    ensures g.auraLayers == 2 && g.sigilRotationSpeed == 45.0
  {
    GameState(1, 3, false, false, false, false, false, "", 50, TypeDefault, FlowerNone, 0, 0.0,
              false, 0.0, 0, NewEvolutionFlags(), BarIdle, 0.0, 0.0, 0.0, -1, Rgb(255, 255, 255), 2, 45.0)
  }

  datatype Vec2 = Vec2(x: real, y: real)

  function Plus2(a: Vec2, b: Vec2): Vec2
  {
    Vec2(a.x + b.x, a.y + b.y)
  }

  function Scale2(k: real, v: Vec2): Vec2
  {
    Vec2(k * v.x, k * v.y)
  }

  /** One update takes decay * (dt * 60) of the particle's life, so it falls whenever decay and dt are positive. */
  function LifeAfter(life: real, decay: real, dt: real): (l: real)
    ensures 0.0 < decay && 0.0 < dt ==> l < life
    ensures decay == 0.0 || dt == 0.0 ==> l == life
  {
    if 0.0 < decay && 0.0 < dt then ProductSign(decay, dt * 60.0); life - decay * (dt * 60.0)
    else life - decay * (dt * 60.0)
  }

  /** The kotodama size for a remaining `life`: 25 at full life shrinking to 2 at none, never outside [2, 25]. */
  function KotodamaSize(life: real): (size: real)
    ensures 2.0 <= size <= 25.0
  {
    MapRange(life, 1.0, 0.0, 25.0, 2.0, true)
  }

  /** Inside [0, 1] the size is the straight line from 2 at life 0 to 25 at life 1; outside it is clamped. */
  lemma KotodamaSizeLinear(life: real)
    ensures 0.0 <= life <= 1.0 ==> KotodamaSize(life) == 2.0 + 23.0 * life
    ensures 1.0 < life ==> KotodamaSize(life) == 25.0
    ensures life < 0.0 ==> KotodamaSize(life) == 2.0
  {
    var out := (life - 1.0) / (0.0 - 1.0) * (2.0 - 25.0) + 25.0;
    assert (life - 1.0) / (0.0 - 1.0) == 1.0 - life;
    assert out == 2.0 + 23.0 * life;
  }

  /** The kotodama position: on the circle of radius `r` round the screen centre at the given angle. */
  function SpiralPos(width: real, height: real, cos: real -> real, sin: real -> real, angle: real, r: real): (p: Vec2)
    ensures r == 0.0 ==> p == Vec2(width * 0.5, height * 0.5)
    ensures cos(angle) == 1.0 && sin(angle) == 0.0 ==> p == Vec2(width * 0.5 + r, height * 0.5)
  {
    Vec2(width * 0.5 + cos(angle) * r, height * 0.5 + sin(angle) * r)
  }

  /** Where cos and sin satisfy cos² + sin² = 1, the spiral point lies at distance exactly `r` from the centre. */
  lemma SpiralDistance(width: real, height: real, cos: real -> real, sin: real -> real, angle: real, r: real)
    requires cos(angle) * cos(angle) + sin(angle) * sin(angle) == 1.0
    ensures var p := SpiralPos(width, height, cos, sin, angle, r);
      (p.x - width * 0.5) * (p.x - width * 0.5) + (p.y - height * 0.5) * (p.y - height * 0.5) == r * r
  {
    var c, s := cos(angle), sin(angle);
    calc {
      (c * r) * (c * r) + (s * r) * (s * r);
      ==
      (c * c + s * s) * (r * r);
      ==
      r * r;
    }
  }

  /**
   * Where a particle that is neither kotodama nor a rain splash is after n
   * updates with the same dt: each update adds vel·dt·60 (Particle2D.Update
   * states its own step as Drift with n = 1).
   */
  function Drift(pos: Vec2, vel: Vec2, dt: real, n: nat): Vec2
    decreases n
  {
    if n == 0 then pos else Plus2(Drift(pos, vel, dt, n - 1), Scale2(dt * 60.0, vel))
  }

  /**
   * The 2D effect particle. Position, velocity, colour, size, decay and
   * type come from its creator; life, angle and spiral radius have default
   * initialisers. Screen size and the trigonometric functions are given to
   * update as parameters.
   */
  class Particle2D {
    var pos: Vec2
    var vel: Vec2
    var color: Color
    var size: real
    var life: real
    var decay: real
    var kind: ParticleType
    var angle: real
    var spiralRadius: real

    constructor (pos0: Vec2, vel0: Vec2, color0: Color, size0: real, decay0: real, kind0: ParticleType)
      ensures pos == pos0 && vel == vel0 && color == color0 && size == size0 && decay == decay0 && kind == kind0
      ensures life == 1.0 && angle == 0.0 && spiralRadius == 0.0
    {
      pos := pos0;
      vel := vel0;
      color := color0;
      size := size0;
      decay := decay0;
      kind := kind0;
      life := 1.0;
      angle := 0.0;
      spiralRadius := 0.0;
    }

    /**
     * update(dt): a kotodama particle turns by 8·dt and sits on a spiral
     * whose radius shrinks with its life; a rain splash stays where it is;
     * every other particle moves by vel·dt·60. Every particle loses life.
     */
    method Update(dt: real, width: real, height: real, cos: real -> real, sin: real -> real)
      modifies this`pos, this`size, this`life, this`angle
      ensures life == LifeAfter(old(life), decay, dt)
      ensures kind == PKotodama ==>
        && angle == old(angle) + 8.0 * dt
        && pos == SpiralPos(width, height, cos, sin, angle, spiralRadius * old(life))
        && size == KotodamaSize(old(life))
      ensures kind == PRainSplash ==> pos == old(pos) && angle == old(angle) && size == old(size)
      ensures kind != PKotodama && kind != PRainSplash ==>
        pos == Plus2(old(pos), Scale2(dt * 60.0, vel)) && pos == Drift(old(pos), vel, dt, 1)
        && angle == old(angle) && size == old(size)
    {
      // the spiral radius and the size read the life from before this
      // update's decay
      var oldLife := life;
      life := life - decay * (dt * 60.0);
      if kind == PKotodama {
        angle := angle + 8.0 * dt;
        var currentR := spiralRadius * oldLife;
        size := MapRange(oldLife, 1.0, 0.0, 25.0, 2.0, true);
        pos := SpiralPos(width, height, cos, sin, angle, currentR);
      } else if kind == PRainSplash {
      } else {
        pos := Plus2(pos, Scale2(dt * 60.0, vel));
      }
    }
  }

  lemma {:induction false} DriftClosedForm(pos: Vec2, vel: Vec2, dt: real, n: nat)
    ensures Drift(pos, vel, dt, n) == Plus2(pos, Scale2(n as real * dt * 60.0, vel))
    decreases n
  {
    if n > 0 {
      DriftClosedForm(pos, vel, dt, n - 1);
      var k := (n - 1) as real * dt * 60.0;
      var step := dt * 60.0;
      assert k * vel.x + step * vel.x == (k + step) * vel.x;
      assert k * vel.y + step * vel.y == (k + step) * vel.y;
      assert k + step == n as real * dt * 60.0;
    }
  }
}
