# Fractal tree prototype: a verified model

This project models the logic of an early prototype of a 3D fractal-tree toy
built on openFrameworks:

- The tree grows an energy counter. An update turns the energy into a
  branching depth, floor(energy / 100) clamped to [0, 10]. Feeding adds
  energy. Mutating moves a mutation value that stays clamped to [0, 1].
- The tree is drawn by a recursive, pre-order binary walk (`drawBranch`).
  Each call draws one line and then, if a gate draw lets it, recurses into
  two mirrored children 0.75 times as long and one level shallower. The
  random generator is re-seeded with the tree's seed before every walk.
- The tree has a day counter that stops at 50, and display/target fields
  that start at fixed values.
- The weather is a three-state cycle (sunny, rainy, moonlight). Each state
  has a name, a background colour and a growth bonus. The weather also keeps
  200 rain lines that fall, and wrap back to the top, while it rains.
- A 3D particle moves by its velocity each update. It is marked dead, for
  good, once it drops below y = 0.
- A 2D effect particle loses life on every update. Its position is fixed, or
  moves linearly, or follows a shrinking spiral, depending on its type.
- The shared enumerations and default-initialised records live alongside
  these.

Models by file:

- `framework.dfy` (module `Framework`) models the library calls the code
  uses:
  - The random generator is an explicit stream of raw draws in [0, 1),
    indexed by position (`Draws`). A call `ofRandom(lo, hi)` that takes raw
    draw `u` is `Uniform(u, lo, hi) = lo + (hi - lo) * u`.
  - `ofClamp` and `ofMap` become functions over `real`.
- `branching.dfy` (module `Branching`) models `drawBranch`.
  - It is a pure function that threads a stream position. Each call that
    draws takes three draws, in order: the x jitter, the y jitter and the
    gate. The left child's draws come next, then the right child's.
  - The walk's result is a tree of segments (length, line width, depth)
    together with each fork's pair of rotations.
- `tree.dfy` (module `FractalTree`) has:
  - the class `Tree`;
  - pure step functions for setup, update, feed and mutate;
  - the day counter;
  - lemmas about any sequence of actions.
- `weather.dfy` (module `Weather`) has the state functions and the class
  `Weather`. The class holds `rainLines` as a sequence field, which `setup`
  and `update` reassign in loops.
- `particle.dfy` (module `Particles`) has the 3D particle class and the pure
  iteration of its update.
- `constants.dfy` (module `Constants`) has:
  - the enumerations;
  - the `EvolutionFlags`, `TreeSettings` and `GameState` defaults;
  - the class `Particle2D`.

Screen width and height, raw random draws and the `cos`/`sin` functions are
parameters. C++ `float` is modelled as `real`, and nothing is claimed about
rounding.

Two versions of the tree code disagree:

- `Tree.h` declares `update()` with no argument, while `Tree.cpp` defines
  `update(float weatherBonus)`. The model follows `Tree.cpp`.
- `feed` and `mutate` are defined in `Tree.cpp` but not declared in the
  header. Neither are the fields they use, `energy` and `mutation`. The model
  gives the class those two fields, and its constructor sets them to 0.

Other notes:

- The header's `MAX_DEPTH` (6) is kept as `FractalTree.Tree.MaxDepth`. No
  member of `Tree.cpp` or `Tree.h` reads it. The depth `update` computes is clamped to 10,
  not 6.
- Some fields are renamed:
  - The 2D particle's field `type` is named `kind`, because `type` is a
    Dafny keyword.
  - `EvolutionFlags.type` is named `growth`, for the same reason.
  - The `GameState` flags `bGameEnded`, `bViewMode`, `bShowDebug`,
    `bTimeFrozen`, `bInfiniteSkills` and `bCinematicMode` drop the `b`
    prefix: `gameEnded`, `viewMode`, `showDebug`, `timeFrozen`,
    `infiniteSkills` and `cinematicMode`.

## Model

| member | source | states |
|---|---|---|
| Framework.Uniform | Tree.cpp:7 | ofRandom(lo, hi) on a unit draw lies in [lo, hi], and strictly below hi when the range is not empty |
| Framework.Clamp | Tree.cpp:57 | ofClamp gives lo below the range, hi above it and the value itself inside, so the result is in [lo, hi] |
| Framework.ClampInt | Tree.cpp:12 | the integer instance of ofClamp that DepthFor applies to floor(energy / 100): the same three clamp cases over whole numbers |
| Framework.Rgb | Weather.h:59-61 | ofColor(r, g, b) keeps the three channels and is fully opaque (alpha 255) |
| Framework.MapRange | Constants.h:126 | ofMap: an empty input range gives outMin; with clamping the result lies between the two outputs in either order; without clamping it is the linear map through (inMin, outMin) and (inMax, outMax) |
| Branching.Segments | Tree.cpp:34-50 | the lines in the order they are drawn: none for a pruned call; otherwise the call's own line first, then all of the left child's lines, then all of the right child's (pre-order); this defines the order lines are drawn, and the count, scale and draw lemmas are about it |
| Branching.Jitter | Tree.cpp:31-32 | ofRandom(-30, 30) * mutation: 0 without mutation, and at most 30 * mutation in magnitude for a unit draw |
| Branching.DrawBranch | Tree.cpp:28-54 | the walk never moves the stream back, and a call with depth >= 0 yields a node and takes at least its three draws |
| Branching.CallShape | Tree.cpp:28-52 | a negative depth yields nothing and takes no draw; otherwise the call's line comes first, has the given length and width depth + 1, and the node forks exactly when the gate draw is above 0.1, into two children 0.75 as long and one level shallower (none below depth 0); the left child is turned by (30 + jitter of the 2nd draw, 20 + jitter of the 1st draw) and the right child by the negation |
| Branching.DrawsTaken | Tree.cpp:31-50 | the walk takes exactly three draws per line it draws |
| Branching.SegmentCountBound | Tree.cpp:40-52 | a walk from depth d draws at most 2^(d+1) - 1 lines, and none when d < 0 |
| Branching.SegmentsScaled | Tree.cpp:34-50 | every line of a walk from (length, depth) sits at a depth k in [0, depth], with width k + 1 and length length * 0.75^(depth - k) |
| Branching.JitterBound | Tree.cpp:31-32 | each jitter is at most 30 * mutation in magnitude |
| Branching.ForksMirrored | Tree.cpp:31-49 | every fork turns the left child by (30 + jy, 20 + jx) and the right child by their negation, with both jitters within 30 * mutation |
| Branching.StillForks | Tree.cpp:42-49 | with mutation 0 every fork turns by exactly (30, 20) and (-30, -20) |
| Branching.DrawsDetermineWalk | Tree.cpp:18-23 | the walk depends only on the draws it reads, so streams that agree on them, such as the same seed twice, give the same lines |
| FractalTree.DepthFor | Tree.cpp:12 | the depth is in [0, 10]; it is 0 exactly below energy 100 and 10 exactly from 1000; otherwise d * 100 <= energy < (d + 1) * 100 |
| FractalTree.Updated | Tree.cpp:10-13 | energy grows by half the bonus, the depth becomes the level of the new energy, and mutation is kept |
| FractalTree.Fed | Tree.cpp:56 | energy grows by the amount and nothing else changes |
| FractalTree.Mutated | Tree.cpp:57 | mutation becomes mutation + amount clamped to [0, 1], so it stays in [0, 1]; energy and depth are kept |
| FractalTree.RunKeepsSound | Tree.cpp:10-57 | any sequence of updates, feeds and mutations keeps mutation in [0, 1] and the depth in [0, 10] |
| FractalTree.GrowingRunIsMonotone | Tree.cpp:10-56 | from any state whose depth has not overtaken its energy's level (every state setup leaves, and every state reached without a negative feed), non-negative bonuses and feeds never lower energy or depth, whatever the mutations |
| FractalTree.LaggingKept | Tree.cpp:10-56 | setup leaves a state whose depth has not overtaken its energy's level, and every run without a negative feed keeps it so, because update recomputes the depth from the energy |
| FractalTree.DepthForMonotone | Tree.cpp:12 | more energy never gives a smaller depth |
| FractalTree.AfterSetup | Tree.cpp:3-57 | from the state setup leaves, any actions keep mutation and depth in range, and growing actions keep energy non-negative |
| FractalTree.NextDay | Tree.h:18 | incrementDay adds one exactly when the day is below 50 and otherwise leaves it |
| FractalTree.DayAfterClosedForm | Tree.h:18 | from a day d in [1, 50], n calls reach min(d + n, 50) |
| FractalTree.DaysFromFirst | Tree.h:18-33 | from the initial day 1 the counter stays in [1, 50] and is 50 after 49 calls or more |
| FractalTree.Tree.constructor | Tree.h:29-35 | a fresh tree has bLen = bThick = bMutation = 0, tLen = 10, tThick = 2, tMutation = 0, depth 0, day 1 and maxMutationReached 0 |
| FractalTree.Tree.Setup | Tree.cpp:3-8 | setup puts energy, mutation and depth at 0 and sets the seed to the truncated draw of ofRandom(999999), below 999999; nothing else changes |
| FractalTree.Tree.Update | Tree.cpp:10-13 | the new growth state is Updated of the old one; only energy and depth change |
| FractalTree.Tree.Feed | Tree.cpp:56 | the new growth state is Fed of the old one; only energy changes |
| FractalTree.Tree.Mutate | Tree.cpp:57 | the new growth state is Mutated of the old one; only mutation changes |
| FractalTree.Tree.GetDayCount | Tree.h:17 | returns the day counter and changes nothing |
| FractalTree.Tree.GetLen | Tree.h:19 | returns bLen and changes nothing |
| FractalTree.Tree.IncrementDay | Tree.h:18 | the day becomes NextDay of the old day, staying in [1, 50]; only the day changes |
| FractalTree.Tree.Draw | Tree.cpp:15-26 | the walk from the re-seeded stream at length 150 and the current depth: a function of seed, depth and mutation only, with 1 to 2^(depth+1) - 1 lines, the 150-long trunk first, every line 150 * 0.75^k long, and mirrored forks |
| Weather.Ordinal | Weather.h:4 | the three states are the values 0, 1 and 2 |
| Weather.FromOrdinal | Weather.h:49-50 | the cast of 0, 1 or 2 back to a state inverts Ordinal |
| Weather.Toggled | Weather.h:49 | toggle maps SUNNY to RAINY, RAINY to MOONLIGHT and MOONLIGHT to SUNNY |
| Weather.ToggleThrice | Weather.h:49 | three toggles give back the state, and one toggle always changes it |
| Weather.Truncate | Weather.h:50 | the C++ float-to-int cast drops the fraction toward zero |
| Weather.Randomized | Weather.h:50 | randomize picks the state whose value is the integer part of a draw in [0, 3) |
| Weather.Name | Weather.h:51-55 | getName is "SUNNY", "RAINY" or "MOONLIGHT" for the three states |
| Weather.NameInjective | Weather.h:51-55 | different states have different names |
| Weather.BgColor | Weather.h:57-64 | the background is (135, 206, 235) when sunny, (80, 85, 95) when rainy and (15, 20, 40) under the moon, every colour opaque and fitting in bytes |
| Weather.BgColorDistinct | Weather.h:57-64 | (helper) the three background colours differ; that the moonlight colour has the lowest red and green is an observation about the constants, not something the source promises |
| Weather.GrowthBuff | Weather.h:66 | the growth bonus is 1.5 whatever the weather |
| Weather.NewLine | Weather.h:20 | a line built from unit draws lies on the screen, with speed in [12, 25) and length in [15, 40) |
| Weather.InitialLines | Weather.h:16-22 | setup's lines are exactly 200 |
| Weather.InitialLinesPlaced | Weather.h:16-22 | each line setup places is on screen, with speed in [12, 25) and length in [15, 40) |
| Weather.Fall | Weather.h:27-31 | one line's step keeps speed and length; past the height it restarts at y = -length with x = ofRandomWidth() of its draw, on screen for a unit draw; otherwise it moves down by its speed and keeps x |
| Weather.WrapsBefore | Weather.h:26-31 | (helper) the number of draws taken by the first k lines, at most k |
| Weather.WrapCount | Weather.h:26-31 | (helper) the number of draws one rainy step takes, at most one per line |
| Weather.Rained | Weather.h:24-34 | one rainy step keeps the number of lines |
| Weather.RainedLines | Weather.h:24-34 | in a rainy step every line keeps its speed and length; a line whose new y passes the height restarts at y = -length with a new x on screen; every other line moves down by its speed and keeps its x |
| Weather.Weather.constructor | Weather.h:8-14 | a fresh weather is sunny, with no rain lines |
| Weather.Weather.Setup | Weather.h:16-22 | whatever lines there were, setup leaves exactly InitialLines, 200 of them, after 800 draws |
| Weather.Weather.Update | Weather.h:24-34 | nothing changes unless it rains; in the rain the lines become the rainy step of the old lines, taking one draw per wrapped line |
| Weather.Weather.Toggle | Weather.h:49 | the state becomes Toggled of the old state; the rain lines are untouched |
| Weather.Weather.Randomize | Weather.h:50 | the state becomes Randomized of the draw; the rain lines are untouched |
| Particles.Stepped | Particle.h:17-20 | after an update the particle is dead exactly when it was dead already or its new y is below 0 |
| Particles.StepsPosition | Particle.h:18 | after n updates the position is the start plus n velocities |
| Particles.StepsDeath | Particle.h:17-20 | after n updates the particle is dead exactly when it was dead already or one of the n positions it reached had y < 0 |
| Particles.DeathIsSticky | Particle.h:19 | once dead, a particle stays dead through any number of further updates |
| Particles.FromSetup | Particle.h:10-20 | after setup(p, v, c) and n updates the particle is at p + n * v, and dead exactly when one of those positions had y < 0 |
| Particles.Particle.constructor | Particle.h:8 | a fresh particle is alive |
| Particles.Particle.Setup | Particle.h:10-15 | setup stores position, velocity and colour and makes the particle alive |
| Particles.Particle.Update | Particle.h:17-20 | the position advances by the velocity and the flag follows Stepped; velocity and colour stay as they were |
| Constants.GrowthOrdinal | Constants.h:4 | the four growth types take values 0 to 3, with TYPE_DEFAULT the 0 |
| Constants.FlowerOrdinal | Constants.h:5 | the four flower types take values 0 to 3, with FLOWER_NONE the 0 |
| Constants.ParticleOrdinal | Constants.h:8 | the five particle types take values 0 to 4 |
| Constants.OrdinalsInjective | Constants.h:4-8 | (helper) distinct enumerators have distinct values |
| Constants.NewEvolutionFlags | Constants.h:19-23 | nothing has evolved and the growth type is TYPE_DEFAULT |
| Constants.NewTreeSettings | Constants.h:62-71 | twistFactor starts at 0 and every other field is the creator's |
| Constants.NewGameState | Constants.h:73-107 | a new game is day 1 of 50 with 3 skill points, TYPE_DEFAULT, FLOWER_NONE and resilience 0; all flags are off, the timers are 0, no command has been used, and a white aura has two layers |
| Constants.LifeAfter | Constants.h:134 | an update lowers life by decay * dt * 60, so it falls whenever decay and dt are positive and stays when either is 0 |
| Constants.KotodamaSize | Constants.h:126 | the kotodama size never leaves [2, 25] |
| Constants.KotodamaSizeLinear | Constants.h:126 | for life in [0, 1] the size is 2 + 23 * life (25 at full life, 2 at none); it is 25 above and 2 below |
| Constants.SpiralPos | Constants.h:122-124 | the kotodama point: at the screen centre when the radius is 0 (the default spiralRadius), and r to the right of it at an angle whose cos is 1 and sin 0 |
| Constants.SpiralDistance | Constants.h:122-124 | wherever cos and sin satisfy cos² + sin² = 1, the kotodama point lies at distance spiralRadius * life from the screen centre |
| Constants.Particle2D.constructor | Constants.h:109-115 | life starts at 1, angle and spiral radius at 0; the other fields come from the creator |
| Constants.Particle2D.Update | Constants.h:117-135 | life always drops by decay * dt * 60; a kotodama particle turns by 8 * dt, goes to the spiral point for its old life and takes the size KotodamaSize of it; a rain splash keeps its position; other types move by vel * dt * 60, one step of Drift; velocity, colour, decay, type and spiral radius are never changed |
| Constants.DriftClosedForm | Constants.h:132 | n linear updates with the same dt (each the one-step Drift that Particle2D.Update ensures) move a particle by n * dt * 60 velocities |

## Left out

- Rendering is not modelled. That covers the `ofDraw*` calls, line widths as
  drawn, the matrix stack and rotations in `Tree::draw` and `drawBranch`,
  `Weather::draw2D`, `Particle::draw` and `Particle2D::draw`. The walk yields
  the segments and rotations as data instead.
- `Ground.h` is rendering only and is not part of this model.
- `src/ofApp.cpp` and `src/ofApp.h` are not part of this model: event wiring,
  HUD, GUI, camera, and their older copy of `ParticleType`/`Particle2D`.
- `water`, `fertilize`, `kotodama`, `reset` and the mesh builders are
  declared in `Tree.h` but have no bodies in `Tree.cpp` or the header. They are not
  modelled.
- The library's random generator is not modelled. The draws are a
  parameter, and so is the stream produced for each seed. The model assumes
  only that every draw lies in [0, 1).
- Screen width and height (`ofGetWidth`, `ofGetHeight`, `ofRandomWidth`,
  `ofRandomHeight`) are parameters.
- `cos` and `sin` are uninterpreted function parameters of
  `Particle2D.Update`.
- IEEE float rounding is not modelled. All C++ floats are `real`.
- `AuraBeam`, `UISettings`, `AudioTrack`, `AudioState` and `SigilRing` are
  records without logic and are not modelled. So are the `ui`, `audio` and
  `sigils` members of `GameState`.
- `Weather.BgColor`: the `default` branch of `getBgColor` cannot be
  represented, because a `WeatherState` value is always one of the three
  states.
- `FractalTree.Tree.constructor`:
  - The header leaves `seed` uninitialised; the model starts it at 0 and
    states nothing about it.
  - `energy` and `mutation` are not declared in the header; the model starts
    them at 0.
- `Particles.Particle.constructor`: position, velocity and colour are
  default-constructed library values. The model states nothing about them.
- `FractalTree.Tree.Setup`: the float-to-unsigned conversion of the seed is
  modelled as the floor of a non-negative draw. The wrap-around of
  `unsigned int` never arises below 999999.
