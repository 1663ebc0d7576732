/** The aim state machine of the dart scene (src/game/DartScene.ts),
    without its rendering: the angle sweeps clockwise, then the radius
    bounces in and out, then the locked throw is held briefly before the
    next aim starts. Times, angles and radii are reals. */
module Scene {
  import opened Models

  /** `Math.PI`: the double nearest to pi, written out exactly. */
  const PI: real := 3.141592653589793115997963468544185161590576171875

  const BoardRadius: real := 1.0
  /** Radians per second of the angle sweep. */
  const AngleSpeed: real := 1.8
  /** Board units per second of the radius sweep. */
  const RadiusSpeed: real := 1.2
  /** Seconds a locked throw is held. */
  const LockHold: real := 0.6
  /** Bearing of the top of the board (12 o'clock), where every aim starts. */
  const TopBearing: real := PI / 2.0
  /** The fixed radius the crosshair sits on while the angle sweeps. */
  const AngleSweepRadius: real := BoardRadius * 0.85

  /** The field type `1 | -1` of the radius direction. */
  type Direction = d: int | d == 1 || d == -1 witness 1

  /** A snapshot of the scene's aim fields; `markerVisible` is the one bit
      of the marker mesh that the aim logic sets. */
  datatype AimState = AimState(
    phase: AimPhase,
    theta: real,
    lockedTheta: real,
    r: real,
    lockedR: real,
    radiusDir: Direction,
    lockTimer: real,
    markerVisible: bool)

  /** The fields as the constructor leaves them: the angle sweep from the
      top of the board, inside the aim invariant. */
  function Initial(): (s: AimState)
    ensures s.phase == AimAngle && !s.markerVisible
    ensures s.theta == s.lockedTheta == TopBearing
    ensures AimInv(s)
  {
    AimState(AimAngle, TopBearing, TopBearing, 0.0, 0.0, 1, 0.0, false)
  }

  // ---------------------------------------------------------------------
  // The steps of update(dt)

  /** The angle sweep of one frame: turn clockwise by `AngleSpeed * dt` and
      wrap once if the bearing fell below -PI. The result is the turned
      bearing up to one full turn, and stays in [-PI, PI) for a turn of at
      most one full circle. */
  function TurnClockwise(theta: real, dt: real): (t: real)
    ensures theta - AngleSpeed * dt >= -PI ==> t == theta - AngleSpeed * dt
    ensures theta - AngleSpeed * dt < -PI ==> t == theta - AngleSpeed * dt + 2.0 * PI
    ensures -PI <= theta < PI && 0.0 <= AngleSpeed * dt <= 2.0 * PI ==> -PI <= t < PI
  {
    var turned := theta - AngleSpeed * dt;
    if turned < -PI then turned + PI * 2.0 else turned
  }

  /** The radius sweep of one frame: move by `dir * RadiusSpeed * dt`, and at
      either edge of [0, BoardRadius] stop on the edge and turn around. */
  function Bounce(r: real, dir: Direction, dt: real): (p: (real, Direction))
    ensures 0.0 <= p.0 <= BoardRadius
    ensures var moved := r + dir as real * RadiusSpeed * dt;
      && (moved >= BoardRadius ==> p == (BoardRadius, -1))
      && (moved <= 0.0 ==> p == (0.0, 1))
      && (0.0 < moved < BoardRadius ==> p == (moved, dir))
  {
    var moved := r + dir as real * RadiusSpeed * dt;
    if moved >= BoardRadius then (BoardRadius, -1)
    else if moved <= 0.0 then (0.0, 1)
    else (moved, dir)
  }

  /** `resetAim()`: back to the angle sweep from the top of the board.
      The locked radius and the timer are left as they are. */
  function Reset(s: AimState): (t: AimState)
    ensures t.phase == AimAngle && !t.markerVisible
    ensures t.theta == t.lockedTheta && -PI <= t.theta < PI
    ensures 0.0 <= t.r <= BoardRadius && t.radiusDir == 1
    ensures t.lockedR == s.lockedR && t.lockTimer == s.lockTimer
  {
    s.(phase := AimAngle, markerVisible := false, theta := TopBearing,
       lockedTheta := TopBearing, r := AngleSweepRadius, radiusDir := 1)
  }

  /** `update(dt)`. After a frame in either aiming phase the crosshair
      radius is on the board, and no frame changes the locked radius. */
  function Updated(s: AimState, dt: real): (t: AimState)
    ensures s.phase != Locked ==> 0.0 <= t.r <= BoardRadius
    ensures t.lockedR == s.lockedR
  {
    match s.phase
    case Locked =>
      var held := s.(lockTimer := s.lockTimer - dt);
      if held.lockTimer <= 0.0 then Reset(held) else held
    case AimAngle =>
      s.(theta := TurnClockwise(s.theta, dt), r := BoardRadius * 0.85)
    case AimRadius =>
      var p := Bounce(s.r, s.radiusDir, dt);
      s.(r := p.0, radiusDir := p.1)
  }

  /** `confirm()`: lock the angle, then the radius; ignored while locked.
      A click never moves the cursor, and moves the phase on exactly when
      the aim is not locked. */
  function Confirmed(s: AimState): (t: AimState)
    ensures t.theta == s.theta && t.r == s.r && t.radiusDir == s.radiusDir
    ensures t.phase == s.phase <==> s.phase == Locked
  {
    match s.phase
    case AimAngle => s.(lockedTheta := s.theta, phase := AimRadius)
    case AimRadius =>
      s.(lockedR := s.r, phase := Locked, markerVisible := true, lockTimer := LockHold)
    case Locked => s
  }

  // ---------------------------------------------------------------------
  // Properties of update

  /** In the angle sweep only the bearing and the radius change: the bearing
      turns clockwise (wrapping once) and the radius is pinned. */
  lemma UpdatedAngle(s: AimState, dt: real)
    requires s.phase == AimAngle
    ensures var t := Updated(s, dt);
      && t == s.(theta := t.theta, r := AngleSweepRadius)
      && (s.theta - AngleSpeed * dt >= -PI ==> t.theta == s.theta - AngleSpeed * dt)
      && (s.theta - AngleSpeed * dt < -PI ==> t.theta == s.theta - AngleSpeed * dt + 2.0 * PI)
      && (-PI <= s.theta < PI && 0.0 <= AngleSpeed * dt <= 2.0 * PI ==> -PI <= t.theta < PI)
  {
  }

  /** In the radius sweep only the radius and its direction change; the
      radius ends on [0, BoardRadius] whatever it started at, and an edge
      hit sends it back the other way. */
  lemma UpdatedRadius(s: AimState, dt: real)
    requires s.phase == AimRadius
    ensures var t := Updated(s, dt);
      && t == s.(r := t.r, radiusDir := t.radiusDir)
      && 0.0 <= t.r <= BoardRadius
      && (s.r + s.radiusDir as real * RadiusSpeed * dt >= BoardRadius ==>
            t.r == BoardRadius && t.radiusDir == -1)
      && (s.r + s.radiusDir as real * RadiusSpeed * dt <= 0.0 ==> t.r == 0.0 && t.radiusDir == 1)
  {
  }

  /** While locked the timer counts down; when it runs out the next aim
      starts from the top, and nothing moves in that frame. */
  lemma UpdatedLocked(s: AimState, dt: real)
    requires s.phase == Locked
    ensures var t := Updated(s, dt);
      && (s.lockTimer - dt > 0.0 ==> t == s.(lockTimer := s.lockTimer - dt))
      && (s.lockTimer - dt <= 0.0 ==>
            && t.phase == AimAngle && !t.markerVisible
            && t.theta == TopBearing && t.lockedTheta == TopBearing
            && t.r == AngleSweepRadius && t.radiusDir == 1
            && t.lockedR == s.lockedR && t.lockTimer == s.lockTimer - dt)
  {
  }

  /** Update never moves the aim forward: its one phase change is from
      locked back to the angle sweep, it never touches the locked radius,
      and it touches the locked bearing only on that reset. */
  lemma UpdatedPhase(s: AimState, dt: real)
    ensures var t := Updated(s, dt);
      && (t.phase == s.phase || (s.phase == Locked && t.phase == AimAngle))
      && t.lockedR == s.lockedR
      && (s.phase != Locked ==> t.lockedTheta == s.lockedTheta && t.lockTimer == s.lockTimer)
  {
  }

  // ---------------------------------------------------------------------
  // Properties of confirm

  /** Each confirm locks the current value of the coordinate being swept and
      moves on; confirm while locked changes nothing. */
  lemma ConfirmedSteps(s: AimState)
    ensures s.phase == AimAngle ==>
      Confirmed(s) == s.(lockedTheta := s.theta, phase := AimRadius)
    ensures s.phase == AimRadius ==>
      var t := Confirmed(s);
      && t.phase == Locked && t.lockedR == s.r && t.lockTimer == LockHold && t.markerVisible
      && t.theta == s.theta && t.lockedTheta == s.lockedTheta && t.r == s.r
      && t.radiusDir == s.radiusDir
    ensures s.phase == Locked ==> Confirmed(s) == s
  {
  }

  /** Two confirms from the angle sweep lock a throw at the bearing of the
      first and the radius of the second, with any radius frames between;
      from a state inside the aim invariant that radius is on the board. */
  lemma {:induction false} ConfirmedThrow(s: AimState, dts: seq<real>)
    requires s.phase == AimAngle && AimInv(s)
    ensures var u := UpdatedAll(Confirmed(s), dts);
      var t := Confirmed(u);
      && u.phase == AimRadius
      && t.phase == Locked && t.lockedTheta == s.theta && t.lockedR == u.r
      && t.lockTimer == LockHold
      && 0.0 <= t.lockedR <= BoardRadius
    decreases |dts|
  {
    if dts != [] {
      RadiusFrames(Confirmed(s), dts);
    }
  }

  // ---------------------------------------------------------------------
  // Sequences of frames

  /** Several frames of update, first to last. */
  function UpdatedAll(s: AimState, dts: seq<real>): (t: AimState)
    decreases |dts|
  {
    if dts == [] then s else UpdatedAll(Updated(s, dts[0]), dts[1..])
  }

  /** Radius frames keep the radius sweep going, keep the locked bearing and
      radius, and leave the radius on the board once at least one ran. */
  lemma {:induction false} RadiusFrames(s: AimState, dts: seq<real>)
    requires s.phase == AimRadius
    ensures var t := UpdatedAll(s, dts);
      && t.phase == AimRadius && t.theta == s.theta
      && t.lockedTheta == s.lockedTheta && t.lockedR == s.lockedR
      && (dts != [] ==> 0.0 <= t.r <= BoardRadius)
    decreases |dts|
  {
    if dts != [] {
      RadiusFrames(Updated(s, dts[0]), dts[1..]);
    }
  }

  function Sum(dts: seq<real>): (total: real)
    decreases |dts|
  {
    if dts == [] then 0.0 else dts[0] + Sum(dts[1..])
  }

  /** A locked throw stays locked, and nothing but its timer changes, for as
      long as the frame times add up to less than the timer. */
  lemma {:induction false} LockedHold(s: AimState, dts: seq<real>)
    requires s.phase == Locked
    requires forall k :: 0 <= k < |dts| ==> dts[k] >= 0.0
    requires Sum(dts) < s.lockTimer
    ensures UpdatedAll(s, dts) == s.(lockTimer := s.lockTimer - Sum(dts))
    decreases |dts|
  {
    if dts != [] {
      SumNonNegative(dts[1..]);
      LockedHold(Updated(s, dts[0]), dts[1..]);
    }
  }

  lemma {:induction false} SumNonNegative(dts: seq<real>)
    requires forall k :: 0 <= k < |dts| ==> dts[k] >= 0.0
    ensures Sum(dts) >= 0.0
    decreases |dts|
  {
    if dts != [] {
      SumNonNegative(dts[1..]);
    }
  }

  // ---------------------------------------------------------------------
  // Invariant over whole games

  /** A frame time for which the angle sweep turns at most one full circle. */
  predicate Admissible(dt: real) {
    0.0 <= dt && AngleSpeed * dt <= 2.0 * PI
  }

  /** What holds of every state reached from Initial() by confirms and
      admissible frames: bearings in [-PI, PI), radii on the board, the
      marker shown exactly while locked, and a positive timer no longer than
      the hold while locked. */
  predicate AimInv(s: AimState) {
    && -PI <= s.theta < PI
    && -PI <= s.lockedTheta < PI
    && 0.0 <= s.r <= BoardRadius
    && 0.0 <= s.lockedR <= BoardRadius
    && (s.markerVisible <==> s.phase == Locked)
    && (s.phase == Locked ==> 0.0 < s.lockTimer <= LockHold)
  }

  lemma InitialAimInv()
    ensures AimInv(Initial())
  {
  }

  lemma UpdatedAimInv(s: AimState, dt: real)
    requires AimInv(s) && Admissible(dt)
    ensures AimInv(Updated(s, dt))
  {
  }

  lemma ConfirmedAimInv(s: AimState)
    requires AimInv(s)
    ensures AimInv(Confirmed(s))
  {
  }

  /** An input event of the host loop: a frame of `dt` seconds, or a click. */
  datatype Event = Frame(dt: real) | Click

  function Play(s: AimState, events: seq<Event>): (t: AimState)
    decreases |events|
  {
    if events == [] then s
    else
      var next := match events[0]
        case Frame(dt) => Updated(s, dt)
        case Click => Confirmed(s);
      Play(next, events[1..])
  }

  /** Every game of admissible frames and clicks keeps the invariant. */
  lemma {:induction false} PlayAimInv(s: AimState, events: seq<Event>)
    requires AimInv(s)
    requires forall k :: 0 <= k < |events| && events[k].Frame? ==> Admissible(events[k].dt)
    ensures AimInv(Play(s, events))
    decreases |events|
  {
    if events != [] {
      match events[0] {
        case Frame(dt) => UpdatedAimInv(s, dt);
        case Click => ConfirmedAimInv(s);
      }
      var next := match events[0]
        case Frame(dt) => Updated(s, dt)
        case Click => Confirmed(s);
      PlayAimInv(next, events[1..]);
    }
  }

  // ---------------------------------------------------------------------
  // The scene

  /** The aim fields of `DartScene`, updated in place each frame and on each
      click. The speeds are fields the source never reassigns: constants
      here. */
  class DartScene {
    var phase: AimPhase
    var theta: real
    var lockedTheta: real
    var r: real
    var lockedR: real
    var radiusDir: Direction
    var lockTimer: real
    var markerVisible: bool

    function State(): AimState
      reads this
    {
      AimState(phase, theta, lockedTheta, r, lockedR, radiusDir, lockTimer, markerVisible)
    }

    constructor ()
      ensures State() == Initial() && AimInv(State())
    {
      phase := AimAngle;
      theta := PI / 2.0;
      lockedTheta := theta;
      r := 0.0;
      lockedR := 0.0;
      radiusDir := 1;
      lockTimer := 0.0;
      markerVisible := false;
    }

    /** Called once per frame with the frame time. */
    method Update(dt: real)
      modifies this
      ensures State() == Updated(old(State()), dt)
      ensures AimInv(old(State())) && Admissible(dt) ==> AimInv(State())
    {
      if AimInv(State()) && Admissible(dt) {
        UpdatedAimInv(State(), dt);
      }
      if phase == Locked {
        lockTimer := lockTimer - dt;
        if lockTimer <= 0.0 {
          ResetAim();
        }
        return;
      }

      if phase == AimAngle {
        theta := theta - AngleSpeed * dt;
        if theta < -PI {
          theta := theta + PI * 2.0;
        }
        r := BoardRadius * 0.85;
      }

      if phase == AimRadius {
        r := r + radiusDir as real * RadiusSpeed * dt;
        if r >= BoardRadius {
          r := BoardRadius;
          radiusDir := -1;
        } else if r <= 0.0 {
          r := 0.0;
          radiusDir := 1;
        }
      }
    }

    /** One click: lock the angle, then the radius. */
    method Confirm()
      modifies this
      ensures State() == Confirmed(old(State()))
      ensures AimInv(old(State())) ==> AimInv(State())
    {
      if AimInv(State()) {
        ConfirmedAimInv(State());
      }
      if phase == AimAngle {
        lockedTheta := theta;
        phase := AimRadius;
        return;
      }

      if phase == AimRadius {
        lockedR := r;
        phase := Locked;
        markerVisible := true;
        lockTimer := 0.6;
      }
    }

    method GetPhase() returns (p: AimPhase)
      ensures p == phase
    {
      return phase;
    }

    method ResetAim()
      modifies this
      ensures State() == Reset(old(State()))
    {
      phase := AimAngle;
      markerVisible := false;
      theta := PI / 2.0;
      lockedTheta := theta;
      r := BoardRadius * 0.85;
      radiusDir := 1;
    }
  }
}
