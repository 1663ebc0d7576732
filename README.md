# Throw For Broke: the run store and the aim state machine in Dafny

This project models the game logic of the browser darts game "Throw For Broke".
It has three parts:

- **Shared types** (`models.dfy`, module `Models`). These are the datatypes
  `AimPhase`, `Ring`, `RunPhase` and `HitResult`, and the board's segment
  numbers `BoardNumbers`. A predicate `Documented` states what the field
  comments of `HitResult` promise: bulls score 50 and 25, a miss scores 0, and
  a single, double or triple on segment `i` scores `BoardNumbers[i]` times 1, 2
  or 3, with labels like `"7"`, `"D5"` and `"T20"`.
- **The run store** (`run_store.dfy`, module `Run`). A run is a series of
  rounds. Each round has nine darts and a target score. Beating the target
  pays the surplus as coins. Each won round raises the target by a factor of
  1.25, rounded. The class `RunStore` has the store's fields, and its three
  actions change them in place. Each action is also written as a pure function
  of a `RunState` snapshot (`Submitted`, `NextRound`, `Initial`). Each method's
  `ensures` ties the new `State()` to that function of `old(State())`. The
  getters are functions of the state, as in the source. The lemmas prove the
  invariant `Valid` (darts used plus darts left is nine, the target matches the
  round, the phase matches the score), the per-throw accounting, and the
  outcome of a whole round of throws.
- **The aim state machine** (`dart_scene.dfy`, module `Scene`). This is the
  non-rendering part of `DartScene`. The aim bearing `theta` turns clockwise.
  The first click locks it. The radius `r` then bounces between 0 and the board
  radius. The second click locks the radius and starts a 0.6 s hold, after
  which the next aim starts from the top. The class `DartScene` has the aim
  fields. `Update`, `Confirm` and `ResetAim` are proved against the pure
  functions `Updated`, `Confirmed` and `Reset`. The lemmas prove the clamps,
  the wrap-around, the phase order, and an invariant `AimInv` that holds over
  every game of admissible frames and clicks (`PlayAimInv`).

Times, angles and radii are Dafny `real`s. `PI` is the exact value of the
double `Math.PI`. Scores, counts and coins are unbounded `int`s.

Two consequences are proved beyond the single-call contracts:
- The target of round `n` is a function of `n` alone (`TargetFor`). Round 10
  asks for 564 points (`TargetForTen`). Nine documented darts score at most
  9 × 60 = 540, so round 10 always ends the run (`RoundTenUnwinnable`).
- Two clicks with any radius frames between them lock a throw. The throw has
  the bearing of the first click and the radius at the second. From any state
  inside the aim invariant, that radius is on the board (`ConfirmedThrow`).

Facts about the program that shape the model:
- src/game/DartScene.ts keeps `theta` in `[-PI, PI)`: it wraps once, by
  adding 2π, when the bearing falls below `-PI` (line 106).
- src/game/DartScene.ts sweeps at fixed speeds (1.8 rad/s and 1.2 units/s,
  lines 18-19). It has no speed ramp, no jitter and no scoring of
  `(lockedTheta, lockedR)` into a `HitResult`.
- src/game/DartScene.ts never calls the run store. So `HitResult` appears
  only as the input of `submitThrow`.

## Model

| member | source | states |
|---|---|---|
| Models.VariantCounts | src/models.ts:1-9 | `AimPhase` has exactly 3 variants and `Ring` has exactly 6, each listed once (`RunPhase`, line 45, has 3 as well) |
| Models.BoardNumbersPermutation | src/models.ts:40-43 | the board numbers are 20 entries with 20 at index 0 (the top); each is in 1..20, none repeats, and every value 1..20 occurs |
| Models.BoardNumbers | src/models.ts:41-43 | the constant board order, clockwise from the top; its properties are stated by `Models.BoardNumbersPermutation` |
| Models.Documented | src/models.ts:31-38 | the field relations the comments document; a documented segment throw has a number in 1..20, a multiplier of at least 1, and a total of number times multiplier |
| Models.DocumentedTotalBounds | src/models.ts:31-38 | a throw whose fields satisfy their documented relations scores between 0 and 60, and 60 only as a triple 20 |
| Models.TripleTwentyIsDocumented | src/models.ts:31-43 | the throw `T20` (triple, segment 0, number 20, multiplier 3, total 60) satisfies the documented relations, so the 60 bound is reached |
| Run.Initial | src/stores/runStore.ts:5-13 | the initial state record satisfies the store invariant, is aiming and has no throws |
| Run.SumTotals | src/stores/runStore.ts:16 | the left fold of the throws' totals is 0 for no throws and non-negative when every total is |
| Run.TotalScore | src/stores/runStore.ts:16 | the `totalScore` getter; for documented throws it is between 0 and 60 per throw |
| Run.SumTotalsPrepend | src/stores/runStore.ts:16 | the left fold of totals over `[hit] + throws` is `hit.total` plus the fold over `throws` |
| Run.SumTotalsBounds | src/stores/runStore.ts:16 | the total score of documented throws is between 0 and 60 per throw |
| Run.ScoreNeeded | src/stores/runStore.ts:17-21 | `scoreNeeded` is the least non-negative value at least target minus total |
| Run.ScoreOver | src/stores/runStore.ts:22-26 | `scoreOver` is the least non-negative value at least total minus target |
| Run.ScoreBalance | src/stores/runStore.ts:16-26 | at most one of `scoreNeeded` and `scoreOver` is positive; their difference is target minus total; nothing is needed exactly when the total reaches the target |
| Run.MathRound | src/stores/runStore.ts:66 | `Math.round(x)` is the integer within half a unit of `x`, with halves rounded up |
| Run.NextTarget | src/stores/runStore.ts:66 | `Math.round(t * 1.25)` equals `(5t + 2) / 4` in integers; it never shrinks a non-negative target and strictly raises every target of 2 or more |
| Run.TargetFor | src/stores/runStore.ts:66 | the target of round `n`: 75 for round 1, then `Math.round(target * 1.25)` per won round; never below 75 |
| Run.TargetForMonotone | src/stores/runStore.ts:60-71 | the target of a later round is never below that of an earlier one, nor below 75 |
| Run.TargetForTen | src/stores/runStore.ts:66 | from the start target 75, round 10's target is 564, and every later round's target is at least that |
| Run.InitialValid | src/stores/runStore.ts:5-13 | the initial state satisfies the store invariant and needs the full 75 points |
| Run.Submitted | src/stores/runStore.ts:30-47 | `submitThrow` changes nothing unless the phase is aiming and darts are left; it never changes round, target or darts per round |
| Run.SubmittedAccepted | src/stores/runStore.ts:34-46 | an accepted throw is prepended and costs exactly one dart; the total rises by its score; the phase stays aiming while darts remain; on the last dart the round is won (coins grow by total minus target) exactly when the total reaches the target, and otherwise the run is over with coins unchanged |
| Run.SubmittedCoins | src/stores/runStore.ts:40-41 | submitting a throw never decreases coins |
| Run.SubmittedValid | src/stores/runStore.ts:30-47 | `submitThrow` preserves the store invariant (throws plus darts left is darts per round, phase matches darts and score, coins non-negative) |
| Run.NextRound | src/stores/runStore.ts:60-71 | `startNextRound` changes nothing unless the round is complete, and never changes coins or darts per round |
| Run.NextRoundOpens | src/stores/runStore.ts:60-71 | from a won round: round plus one, target `Math.round(target * 1.25)` and strictly larger, empty throws, nine darts, phase aiming, invariant kept |
| Run.NextRoundValid | src/stores/runStore.ts:60-71 | `startNextRound` preserves the store invariant |
| Run.SubmittedAllAfterResolve | src/stores/runStore.ts:31 | once a round is won or lost, any further sequence of throws leaves the state unchanged |
| Run.SubmittedAllRound | src/stores/runStore.ts:30-47 | throwing all remaining darts of an open round stacks them newest first and resolves the round: won with surplus coins exactly when the round total reaches the target, lost otherwise |
| Run.RoundTenUnwinnable | src/stores/runStore.ts:66 | in round 10 or later, nine documented darts always end the run |
| Run.RunStore.constructor | src/stores/runStore.ts:5-13 | the store starts in round 1 with target 75, nine of nine darts, no throws, no coins and phase aiming, which is valid |
| Run.RunStore.SubmitThrow | src/stores/runStore.ts:30-47 | the new state is `Submitted(old state, hit)`, and the invariant is kept |
| Run.RunStore.StartNextRound | src/stores/runStore.ts:60-71 | the new state is `NextRound(old state)`, and the invariant is kept |
| Run.RunStore.ResetRun | src/stores/runStore.ts:73-81 | the state becomes exactly the initial one (round 1, target 75, 9 darts per round, 9 left, no throws, no coins, aiming), which is valid |
| Scene.Initial | src/game/DartScene.ts:10-22 | the initial fields: angle phase, marker hidden, `theta = lockedTheta = π/2`, inside the aim invariant |
| Scene.TurnClockwise | src/game/DartScene.ts:101-106 | the new bearing is the old minus `angleSpeed * dt` when that is at least -π, and that plus 2π when it fell below -π; a bearing in `[-π, π)` turned by at most 2π stays in `[-π, π)` |
| Scene.Bounce | src/game/DartScene.ts:112-123 | the new radius is always in `[0, BOARD_RADIUS]`; reaching the top clamps there and sets direction -1; reaching 0 clamps there and sets direction 1; otherwise the move and direction stand |
| Scene.Reset | src/game/DartScene.ts:153-164 | `resetAim` returns to the angle phase with the marker hidden, `theta == lockedTheta` in `[-π, π)`, `r` on the board and direction 1; it keeps `lockedR` and the timer |
| Scene.Updated | src/game/DartScene.ts:93-126 | after a frame in either aiming phase, `r` is on the board; no frame changes `lockedR` |
| Scene.Confirmed | src/game/DartScene.ts:129-147 | a click never moves the cursor (`theta`, `r`, direction) and changes the phase exactly when the aim is not locked |
| Scene.UpdatedAngle | src/game/DartScene.ts:101-110 | in the angle phase `update` changes only `theta` and pins `r` to 0.85 × `BOARD_RADIUS`; `theta` turns clockwise by `angleSpeed * dt`, plus 2π exactly when the turn fell below -π |
| Scene.UpdatedRadius | src/game/DartScene.ts:112-123 | in the radius phase `update` changes only `r` and `radiusDir`; `r` ends in `[0, BOARD_RADIUS]` whatever it started at, with the direction reversals at the clamps |
| Scene.UpdatedLocked | src/game/DartScene.ts:95-98 | when locked, `update` only counts the timer down by `dt` while it stays positive; when it reaches 0 or below, the aim resets (angle phase, `theta = lockedTheta = π/2`, `r = 0.85`, direction 1, marker hidden), with no movement in that frame |
| Scene.UpdatedPhase | src/game/DartScene.ts:93-126 | `update` never advances the phase; its one phase change is locked to angle; it never changes `lockedR`, and it changes neither `lockedTheta` nor the timer in the aiming phases |
| Scene.ConfirmedSteps | src/game/DartScene.ts:129-147 | `confirm` in the angle phase sets `lockedTheta := theta` and moves to the radius phase, changing nothing else; in the radius phase it sets `lockedR := r`, locks, shows the marker and sets the timer to 0.6, leaving `theta`, `lockedTheta`, `r` and the direction alone; when locked it changes nothing |
| Scene.ConfirmedThrow | src/game/DartScene.ts:129-147 | from a state inside the aim invariant, a click in the angle phase, any radius frames (none included), then a click: the throw locks at the first click's bearing and the radius at the second click, which is on the board, with a 0.6 s hold |
| Scene.RadiusFrames | src/game/DartScene.ts:112-123 | any sequence of frames in the radius phase stays in it, keeps the bearings and `lockedR`, and leaves `r` on the board |
| Scene.LockedHold | src/game/DartScene.ts:95-98 | while non-negative frame times add up to less than the timer, a locked throw stays locked and only the timer changes, by their sum |
| Scene.InitialAimInv | src/game/DartScene.ts:10-22 | the initial fields satisfy the aim invariant |
| Scene.UpdatedAimInv | src/game/DartScene.ts:93-126 | one admissible frame (`0 ≤ dt`, `angleSpeed * dt ≤ 2π`) preserves the aim invariant: bearings in `[-π, π)`, radii on the board, marker shown exactly while locked, timer in `(0, 0.6]` while locked |
| Scene.ConfirmedAimInv | src/game/DartScene.ts:129-147 | `confirm` preserves the aim invariant |
| Scene.PlayAimInv | src/game/DartScene.ts:93-147 | every sequence of admissible frames and clicks preserves the aim invariant |
| Scene.DartScene.constructor | src/game/DartScene.ts:10-22 | the scene starts in the angle phase at bearing π/2 (locked bearing too), radius 0, direction 1, timer 0, marker hidden |
| Scene.DartScene.Update | src/game/DartScene.ts:93-126 | the new fields are `Updated(old fields, dt)`, and an admissible frame keeps the invariant |
| Scene.DartScene.Confirm | src/game/DartScene.ts:129-147 | the new fields are `Confirmed(old fields)`, and the invariant is kept |
| Scene.DartScene.GetPhase | src/game/DartScene.ts:149-151 | returns the current phase |
| Scene.DartScene.ResetAim | src/game/DartScene.ts:153-164 | the new fields are `Reset(old fields)`: angle phase, marker hidden, `theta = lockedTheta = π/2`, `r = 0.85`, direction 1 |

## Left out

- `resolveRound` (src/stores/runStore.ts:49-58): no action calls it, and it assigns to a `state` field the store does not have. Round resolution is modelled only inside `submitThrow`.
- Rendering (src/game/DartScene.ts:24-90, 140-142, 166-182): the three.js scene, camera, meshes, crosshair rotation, marker positioning and `polarToBoardPoint`. Of the marker, only its visibility is kept, as the boolean field `markerVisible`.
- `BOARD_THICKNESS` and the z offsets: rendering constants only.
- Floating point: all times, angles and radii are exact reals. `Math.PI` is its exact double value; 0.85, 0.6, 1.8, 1.2 and 1.25 are exact decimals; no operation rounds. `Math.round` is modelled exactly over reals.
- JavaScript numbers used as counts, scores and coins are unbounded integers. The store never produces fractions, so no overflow or precision loss is modelled.
- Pinia (`defineStore`) and its reactivity: the store is a plain class, and the getters are functions of its state snapshot.
- `COLORS` and `Palette` (src/models.ts:11-29): presentation constants, no logic.
- src/router/index.ts: browser routing and the page title, not game logic.
- The local copy of the `AimPhase` type in src/game/DartScene.ts:3 is the same union as src/models.ts:1: both use `Models.AimPhase`.
- `HitResult`'s documented field relations (src/models.ts:33-37) are not enforced anywhere in the code. `Documented` is used only as a hypothesis, in `DocumentedTotalBounds`, `SumTotalsBounds` and `RoundTenUnwinnable`.
- Speed ramping, aim jitter, and scoring a locked `(theta, r)` into a `HitResult`: src/game/DartScene.ts has none of these, so they are not modelled.
- Run.RunStore.SubmitThrow: `throws.unshift(hit)` (src/stores/runStore.ts:34) updates the store's array in place and keeps the caller's `hit` object by reference, so a later change to that object would change `totalScore`. The model prepends an immutable `HitResult` value to a `seq`, so it does not capture the in-place update or the aliasing of `throws` and its elements.
- Scene.UpdatedAimInv: the bearing stays in `[-π, π)` only for frames with `0 ≤ dt` and `angleSpeed * dt ≤ 2π`, because the single wrap in the source cannot catch a longer turn. The two radius clamps hold for every `dt`.
