/**
 * The weather: a three-state cycle with a name, a background colour and a
 * growth bonus per state, and a fixed set of 2D rain lines that fall and
 * wrap to the top while it rains. Screen size and the random generator
 * are parameters.
 */
module Weather {
  import opened Framework

  datatype WeatherState = Sunny | Rainy | Moonlight

  /** The enumerator's value in the C++ enum (SUNNY = 0, RAINY = 1, MOONLIGHT = 2). */
  function Ordinal(s: WeatherState): (n: nat)
    ensures n < 3
  {
    match s
    case Sunny => 0
    case Rainy => 1
    case Moonlight => 2
  }

  /** static_cast<WeatherState>(n) for an in-range n. */
  function FromOrdinal(n: nat): (s: WeatherState)
    requires n < 3
    ensures Ordinal(s) == n
  {
    if n == 0 then Sunny else if n == 1 then Rainy else Moonlight
  }

  /** toggle: the next state of the cycle SUNNY -> RAINY -> MOONLIGHT -> SUNNY. */
  function Toggled(s: WeatherState): (t: WeatherState)
    ensures s == Sunny ==> t == Rainy
    ensures s == Rainy ==> t == Moonlight
    ensures s == Moonlight ==> t == Sunny
  {
    FromOrdinal((Ordinal(s) + 1) % 3)
  }

  /** Three toggles bring the weather back where it was. */
  lemma ToggleThrice(s: WeatherState)
    ensures Toggled(Toggled(Toggled(s))) == s
    ensures Toggled(s) != s
  {
  }

  /** The C++ conversion of a float to int, which drops the fraction toward zero. */
  function Truncate(x: real): (n: int)
    ensures 0.0 <= x ==> n as real <= x < n as real + 1.0
    ensures x < 0.0 ==> n as real - 1.0 < x <= n as real
  {
    if 0.0 <= x then x.Floor else -((-x).Floor)
  }

  /** randomize for the raw draw `u`: (int)ofRandom(0, 3) names one of the three states. */
  function Randomized(u: real): (s: WeatherState)
    requires 0.0 <= u < 1.0
    ensures Ordinal(s) as real <= Uniform(u, 0.0, 3.0) < Ordinal(s) as real + 1.0
  {
    FromOrdinal(Truncate(Uniform(u, 0.0, 3.0)))
  }

  /** getName: the state's name in capitals. */
  function Name(s: WeatherState): (n: string)
    ensures s == Sunny ==> n == "SUNNY"
    ensures s == Rainy ==> n == "RAINY"
    ensures s == Moonlight ==> n == "MOONLIGHT"
  {
    if s == Sunny then "SUNNY"
    else if s == Rainy then "RAINY"
    else "MOONLIGHT"
  }

  /** Different states have different names. */
  lemma NameInjective(s: WeatherState, t: WeatherState)
    ensures Name(s) == Name(t) ==> s == t
  {
    if s != t {
      assert Name(s)[0] != Name(t)[0] || |Name(s)| != |Name(t)|;
    }
  }

  /** getBgColor; a colour for each of the three states. */
  function BgColor(s: WeatherState): (c: Color)
    ensures IsByteColor(c) && c.a == 255
    ensures s == Sunny ==> c == Rgb(135, 206, 235)
    ensures s == Rainy ==> c == Rgb(80, 85, 95)
    ensures s == Moonlight ==> c == Rgb(15, 20, 40)
  {
    match s
    case Sunny => Rgb(135, 206, 235)
    case Rainy => Rgb(80, 85, 95)
    case Moonlight => Rgb(15, 20, 40)
  }

  /** Different states have different background colours, darkest under the moon. */
  lemma BgColorDistinct(s: WeatherState, t: WeatherState)
    ensures BgColor(s) == BgColor(t) ==> s == t
    ensures s != Moonlight ==> BgColor(Moonlight).r < BgColor(s).r && BgColor(Moonlight).g < BgColor(s).g
  {
  }

  /** getGrowthBuff: the same bonus whatever the weather. */
  function GrowthBuff(s: WeatherState): (buff: real)
    ensures buff == 1.5
  {
    1.5
  }

  datatype RainLine = RainLine(x: real, y: real, speed: real, length: real)

  const RainLineCount: nat := 200

  /** A line setup leaves lies on the screen, falls 12 to 25 per step and is 15 to 40 long. */
  predicate Placed(r: RainLine, width: real, height: real)
  {
    0.0 <= r.x <= width && 0.0 <= r.y <= height &&
    12.0 <= r.speed < 25.0 && 15.0 <= r.length < 40.0
  }

  /** The i-th line setup places: x, y, speed and length drawn in that order. */
  function NewLine(draws: Draws, pos: nat, i: nat, width: real, height: real): (r: RainLine)
    ensures IsUnitStream(draws) && 0.0 <= width && 0.0 <= height ==> Placed(r, width, height)
  {
    RainLine(Uniform(draws(pos + 4 * i), 0.0, width),
             Uniform(draws(pos + 4 * i + 1), 0.0, height),
             Uniform(draws(pos + 4 * i + 2), 12.0, 25.0),
             Uniform(draws(pos + 4 * i + 3), 15.0, 40.0))
  }

  /** The lines setup leaves, reading 4 draws per line from position `pos`. */
  function InitialLines(draws: Draws, pos: nat, width: real, height: real): (lines: seq<RainLine>)
    ensures |lines| == RainLineCount
  {
    seq(RainLineCount, i requires 0 <= i => NewLine(draws, pos, i, width, height))
  }

  lemma InitialLinesPlaced(draws: Draws, pos: nat, width: real, height: real)
    requires IsUnitStream(draws) && 0.0 <= width && 0.0 <= height
    ensures forall r | r in InitialLines(draws, pos, width, height) :: Placed(r, width, height)
  {
    var lines := InitialLines(draws, pos, width, height);
    forall r | r in lines ensures Placed(r, width, height) {
      var i :| 0 <= i < |lines| && lines[i] == r;
      assert 0.0 <= draws(pos + 4 * i) < 1.0 && 0.0 <= draws(pos + 4 * i + 1) < 1.0;
      assert 0.0 <= draws(pos + 4 * i + 2) < 1.0 && 0.0 <= draws(pos + 4 * i + 3) < 1.0;
    }
  }

  /** The line leaves the bottom of the screen on this step. */
  predicate Wraps(r: RainLine, height: real)
  {
    r.y + r.speed > height
  }

  /** One step of one line: it falls by its speed, and restarts above the top at a fresh x once past the bottom. */
  function Fall(r: RainLine, u: real, width: real, height: real): (f: RainLine)
    ensures f.speed == r.speed && f.length == r.length
    ensures Wraps(r, height) ==> f.y == -r.length && f.x == Uniform(u, 0.0, width)
    ensures !Wraps(r, height) ==> f.y == r.y + r.speed && f.x == r.x
    ensures Wraps(r, height) && 0.0 <= u < 1.0 && 0.0 <= width ==> 0.0 <= f.x <= width
  {
    var y := r.y + r.speed;
    if y > height then r.(y := -r.length, x := Uniform(u, 0.0, width)) else r.(y := y)
  }

  /** How many of the first `k` lines wrap on this step; each takes one draw for its new x. */
  function WrapsBefore(lines: seq<RainLine>, k: nat, height: real): (n: nat)
    requires k <= |lines|
    ensures n <= k
  {
    if k == 0 then 0
    else (if Wraps(lines[k - 1], height) then 1 else 0) + WrapsBefore(lines, k - 1, height)
  }

  /** How many of the lines wrap on this step. */
  function WrapCount(lines: seq<RainLine>, height: real): (n: nat)
    ensures n <= |lines|
  {
    WrapsBefore(lines, |lines|, height)
  }

  /** The lines after one rainy step, the k-th wrapping line taking the k-th draw from `pos`. */
  function Rained(lines: seq<RainLine>, draws: Draws, pos: nat, width: real, height: real): (after: seq<RainLine>)
    ensures |after| == |lines|
  {
    seq(|lines|, i requires 0 <= i < |lines| => FallAt(lines, draws, pos, width, height, i))
  }

  /** Line `i` after the rainy step: it takes the draw after those of the wrapping lines before it. */
  function FallAt(lines: seq<RainLine>, draws: Draws, pos: nat, width: real, height: real, i: nat): RainLine
    requires i < |lines|
  {
    Fall(lines[i], draws(pos + WrapsBefore(lines, i, height)), width, height)
  }

  /**
   * In the rainy step every line keeps its speed and length; it moves down by
   * its speed, or, once past the bottom, restarts at y = -length and at a new
   * x across the screen.
   */
  lemma RainedLines(lines: seq<RainLine>, draws: Draws, pos: nat, width: real, height: real)
    ensures var after := Rained(lines, draws, pos, width, height);
      forall i | 0 <= i < |lines| ::
        && after[i].speed == lines[i].speed && after[i].length == lines[i].length
        && (Wraps(lines[i], height) ==> after[i].y == -lines[i].length)
        && (!Wraps(lines[i], height) ==> after[i].y == lines[i].y + lines[i].speed && after[i].x == lines[i].x)
    ensures var after := Rained(lines, draws, pos, width, height);
      IsUnitStream(draws) && 0.0 <= width ==>
        forall i | 0 <= i < |lines| :: Wraps(lines[i], height) ==> 0.0 <= after[i].x <= width
  {
    var after := Rained(lines, draws, pos, width, height);
    if IsUnitStream(draws) && 0.0 <= width {
      forall i | 0 <= i < |lines| && Wraps(lines[i], height) ensures 0.0 <= after[i].x <= width {
        var u := draws(pos + WrapsBefore(lines, i, height));
        assert 0.0 <= u < 1.0;
      }
    }
  }

  /** The first `i` lines of `now` have fallen as in the rainy step; the rest are still those of `before`. */
  ghost predicate FallenUpTo(before: seq<RainLine>, now: seq<RainLine>, i: nat, draws: Draws, pos: nat, width: real, height: real)
    requires i <= |before| == |now|
  {
    && (forall j | 0 <= j < i :: now[j] == FallAt(before, draws, pos, width, height, j))
    && (forall j | i <= j < |before| :: now[j] == before[j])
  }

  /** Letting line `i` fall extends the prefix of fallen lines by one. */
  lemma FallenStep(before: seq<RainLine>, now: seq<RainLine>, i: nat, draws: Draws, pos: nat, width: real, height: real)
    requires i < |before| == |now|
    requires FallenUpTo(before, now, i, draws, pos, width, height)
    ensures FallenUpTo(before, now[i := FallAt(before, draws, pos, width, height, i)], i + 1, draws, pos, width, height)
  {
  }

  /** Once every line has fallen in order, the lines are the rainy step. */
  lemma RainedByLine(lines: seq<RainLine>, after: seq<RainLine>, draws: Draws, pos: nat, width: real, height: real)
    requires |after| == |lines|
    requires FallenUpTo(lines, after, |lines|, draws, pos, width, height)
    ensures after == Rained(lines, draws, pos, width, height)
  {
    var r := Rained(lines, draws, pos, width, height);
    assert forall j | 0 <= j < |lines| :: r[j] == after[j];
  }

  class Weather {
    var state: WeatherState
    var rainLines: seq<RainLine>

    /** A fresh weather object: sunny and without rain lines until setup. */
    constructor ()
      ensures state == Sunny && rainLines == []
    {
      state := Sunny;
      rainLines := [];
    }

    /**
     * setup: whatever lines there were are replaced by exactly 200 new ones;
     * `next` is the position after the 800 draws it takes.
     */
    method Setup(draws: Draws, pos: nat, width: real, height: real) returns (next: nat)
      modifies this`rainLines
      ensures rainLines == InitialLines(draws, pos, width, height)
      ensures |rainLines| == RainLineCount && next == pos + 4 * RainLineCount
    {
      rainLines := [];
      var i := 0;
      while i < 200
        invariant 0 <= i <= RainLineCount
        invariant rainLines == InitialLines(draws, pos, width, height)[..i]
      {
        rainLines := rainLines + [NewLine(draws, pos, i, width, height)];
        i := i + 1;
      }
      next := pos + 4 * i;
    }

    /**
     * update: nothing happens unless it rains; in the rain every line falls
     * in place, the lines past the bottom restart at the top and take one draw
     * each for a new x, and `next` is the position after those draws.
     */
    method Update(draws: Draws, pos: nat, width: real, height: real) returns (next: nat)
      modifies this`rainLines
      ensures state != Rainy ==> rainLines == old(rainLines) && next == pos
      ensures state == Rainy ==> rainLines == Rained(old(rainLines), draws, pos, width, height)
      ensures state == Rainy ==> next == pos + WrapCount(old(rainLines), height)
    {
      next := pos;
      if state == Rainy {
        ghost var before := rainLines;
        var i := 0;
        while i < |rainLines|
          invariant 0 <= i <= |rainLines| == |before|
          invariant next == pos + WrapsBefore(before, i, height)
          invariant FallenUpTo(before, rainLines, i, draws, pos, width, height)
        {
          var r := rainLines[i];
          var y := r.y + r.speed;
          if y > height {
            r := r.(y := -r.length, x := Uniform(draws(next), 0.0, width));
            next := next + 1;
          } else {
            r := r.(y := y);
          }
          assert r == FallAt(before, draws, pos, width, height, i);
          FallenStep(before, rainLines, i, draws, pos, width, height);
          rainLines := rainLines[i := r];
          i := i + 1;
        }
        RainedByLine(before, rainLines, draws, pos, width, height);
      }
    }

    method Toggle()
      modifies this`state
      ensures state == Toggled(old(state)) && rainLines == old(rainLines)
    {
      state := FromOrdinal((Ordinal(state) + 1) % 3);
    }

    /** randomize for the raw draw `u` of the generator. */
    method Randomize(u: real)
      requires 0.0 <= u < 1.0
      modifies this`state
      ensures state == Randomized(u) && rainLines == old(rainLines)
    {
      state := FromOrdinal(Truncate(Uniform(u, 0.0, 3.0)));
    }
  }
}
