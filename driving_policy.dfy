/**
 * The decisions of the two driving states, separated from the objects they act
 * on: the player's throttle decision and steering rule, and the bot's steering
 * rule and its progress along the path it follows.
 */
module DrivingPolicy {

  import opened RealArith
  import opened Scalars

  // ---------------------------------------------------------------- player throttle

  /** The command one physics step of player driving issues to the controller. */
  datatype DriveCommand = Accelerate(isForward: bool) | Brake | NoCommand

  /**
   * MoveCar's decision from the vertical input axis and the car speed the state holds:
   * pushing forward accelerates below the top speed; pulling back brakes while moving
   * forward and reverses otherwise; no input does nothing.
   */
  function ThrottleDecision(verticalInput: real, carSpeed: real, maxCarSpeed: real): (r: DriveCommand)
    ensures r == Accelerate(true) <==> verticalInput > 0.0 && carSpeed < maxCarSpeed
    ensures r == Brake <==> verticalInput < 0.0 && carSpeed > 0.0
    ensures r == Accelerate(false) <==> verticalInput < 0.0 && carSpeed <= 0.0
    ensures r == NoCommand <==> verticalInput == 0.0 || (verticalInput > 0.0 && carSpeed >= maxCarSpeed)
  {
    if verticalInput > 0.0 then
      if carSpeed >= maxCarSpeed then NoCommand else Accelerate(true)
    else if verticalInput < 0.0 then
      if carSpeed > 0.0 then Brake else Accelerate(false)
    else NoCommand
  }

  /**
   * The player state never writes the speed it decides on, so the decision always sees
   * speed zero: pulling back can never brake and always reverses, and pushing forward
   * accelerates exactly when the top speed is positive, however fast the car really goes.
   */
  lemma StaleSpeedDecision(verticalInput: real, maxCarSpeed: real)
    ensures ThrottleDecision(verticalInput, 0.0, maxCarSpeed) != Brake
    ensures verticalInput < 0.0 ==> ThrottleDecision(verticalInput, 0.0, maxCarSpeed) == Accelerate(false)
    ensures verticalInput > 0.0 ==>
              (ThrottleDecision(verticalInput, 0.0, maxCarSpeed) == Accelerate(true) <==> maxCarSpeed > 0.0)
  {
  }

  /** With the speed it should have seen, the decision does brake a forward-moving car when the player pulls back. */
  lemma LiveSpeedWouldBrake(verticalInput: real, carSpeed: real, maxCarSpeed: real)
    requires verticalInput < 0.0 && carSpeed > 0.0
    ensures ThrottleDecision(verticalInput, carSpeed, maxCarSpeed) == Brake
    ensures ThrottleDecision(verticalInput, 0.0, maxCarSpeed) == Accelerate(false)
  {
  }

  // ---------------------------------------------------------------- player steering

  /** The yaw the player's front tyres turn toward: the steering lock scaled by the horizontal input, about the baseline. */
  function PlayerSteeringTarget(maxTyreRotation: real, horizontalInput: real, initialTyreRotation: real): real
  {
    maxTyreRotation * horizontalInput + initialTyreRotation
  }

  /** For an input axis in [-1, 1] the target never leaves the steering lock around the baseline. */
  lemma PlayerSteeringTargetWithinLock(maxTyreRotation: real, horizontalInput: real, initialTyreRotation: real)
    requires maxTyreRotation >= 0.0 && -1.0 <= horizontalInput <= 1.0
    ensures initialTyreRotation - maxTyreRotation
            <= PlayerSteeringTarget(maxTyreRotation, horizontalInput, initialTyreRotation)
            <= initialTyreRotation + maxTyreRotation
    ensures horizontalInput == 0.0 ==> PlayerSteeringTarget(maxTyreRotation, horizontalInput, initialTyreRotation) == initialTyreRotation
  {
    if horizontalInput >= 0.0 {
      ScaleByUnit(maxTyreRotation, horizontalInput);
    } else {
      ScaleByUnit(maxTyreRotation, -horizontalInput);
      assert maxTyreRotation * -horizontalInput == -(maxTyreRotation * horizontalInput);
    }
  }

  /** Multiplier on the turning rate when the steering should snap back. */
  const RotationBackToZeroMultiplier: real := 10.0

  /**
   * The turning rate per second: the tuning record's rate, ten times faster when the
   * horizontal input is approximately the baseline yaw.
   */
  function PlayerTurnRate(wheelRotationSpeed: real, horizontalInput: real, initialTyreRotation: real,
                          approximately: (real, real) -> bool): (r: real)
    ensures approximately(horizontalInput, initialTyreRotation) ==> r == wheelRotationSpeed * RotationBackToZeroMultiplier
    ensures !approximately(horizontalInput, initialTyreRotation) ==> r == wheelRotationSpeed
  {
    if approximately(horizontalInput, initialTyreRotation) then wheelRotationSpeed * RotationBackToZeroMultiplier
    else wheelRotationSpeed
  }

  /** Exact equality, one admissible reading of the engine's approximate float comparison. */
  function Exactly(a: real, b: real): bool { a == b }

  /**
   * The fast rate compares an input axis with a yaw angle. When the baseline yaw lies
   * outside the axis range [-1, 1] (a tyre mounted at 90 degrees, say), no input can
   * trigger it under exact comparison: the tyres return to centre at the normal rate.
   */
  lemma FastCentreNeedsBaselineInAxisRange(wheelRotationSpeed: real, horizontalInput: real, initialTyreRotation: real)
    requires -1.0 <= horizontalInput <= 1.0
    requires initialTyreRotation > 1.0 || initialTyreRotation < -1.0
    ensures PlayerTurnRate(wheelRotationSpeed, horizontalInput, initialTyreRotation, Exactly) == wheelRotationSpeed
  {
  }

  /**
   * The shared yaw is lerped once per front tyre, so it stays between where it started
   * and the target; starting inside the steering lock it never leaves it.
   */
  lemma {:induction false} PlayerSteeringStaysWithinLock(start: real, maxTyreRotation: real, horizontalInput: real,
                                                         initialTyreRotation: real, t: real, n: nat)
    requires maxTyreRotation >= 0.0 && -1.0 <= horizontalInput <= 1.0
    requires initialTyreRotation - maxTyreRotation <= start <= initialTyreRotation + maxTyreRotation
    ensures initialTyreRotation - maxTyreRotation
            <= LerpIterate(start, PlayerSteeringTarget(maxTyreRotation, horizontalInput, initialTyreRotation), t, n)
            <= initialTyreRotation + maxTyreRotation
  {
    PlayerSteeringTargetWithinLock(maxTyreRotation, horizontalInput, initialTyreRotation);
    LerpIterateBetween(start, PlayerSteeringTarget(maxTyreRotation, horizontalInput, initialTyreRotation), t, n);
  }

  /**
   * The shared yaw after `n` lerp steps of one frame: each step moves it toward the
   * player's target at the frame's turn rate times the frame time.
   */
  function PlayerYawAfter(start: real, maxTyreRotation: real, wheelRotationSpeed: real, horizontalInput: real,
                          initialTyreRotation: real, deltaTime: real, approximately: (real, real) -> bool, n: nat): real
  {
    LerpIterate(start, PlayerSteeringTarget(maxTyreRotation, horizontalInput, initialTyreRotation),
                PlayerTurnRate(wheelRotationSpeed, horizontalInput, initialTyreRotation, approximately) * deltaTime, n)
  }

  /**
   * One more tyre moves the shared yaw by one lerp step toward the player's target, at
   * `turnRate` (the frame's turn rate) times the frame time.
   */
  lemma PlayerYawStep(start: real, maxTyreRotation: real, wheelRotationSpeed: real, horizontalInput: real,
                      initialTyreRotation: real, deltaTime: real, approximately: (real, real) -> bool, n: nat,
                      turnRate: real)
    requires turnRate == PlayerTurnRate(wheelRotationSpeed, horizontalInput, initialTyreRotation, approximately)
    ensures PlayerYawAfter(start, maxTyreRotation, wheelRotationSpeed, horizontalInput, initialTyreRotation,
                           deltaTime, approximately, n + 1)
            == Lerp(PlayerYawAfter(start, maxTyreRotation, wheelRotationSpeed, horizontalInput, initialTyreRotation,
                                   deltaTime, approximately, n),
                    maxTyreRotation * horizontalInput + initialTyreRotation, turnRate * deltaTime)
  {
  }

  // ---------------------------------------------------------------- bot steering

  /** The bot's tyre yaw: the signed angle to the target, limited to the steering lock, about the baseline. */
  function BotSteeringTarget(signedAngle: real, maxTyreRotation: real, initialTyreRotation: real): (r: real)
    ensures maxTyreRotation >= 0.0 ==>
              initialTyreRotation - maxTyreRotation <= r <= initialTyreRotation + maxTyreRotation
    ensures -maxTyreRotation <= signedAngle <= maxTyreRotation ==> r == signedAngle + initialTyreRotation
    ensures maxTyreRotation >= 0.0 && signedAngle > maxTyreRotation ==> r == maxTyreRotation + initialTyreRotation
    ensures signedAngle < -maxTyreRotation ==> r == -maxTyreRotation + initialTyreRotation
  {
    Clamp(signedAngle, -maxTyreRotation, maxTyreRotation) + initialTyreRotation
  }

  // ---------------------------------------------------------------- bot path progress

  /** How far along the path (as a share of its length) the bot aims, and whether it still drives. */
  datatype PathProgress = PathProgress(point: real, enabled: bool)

  /**
   * An arrival at the current target: step the target forward by the increment; at or
   * past the end a closed path starts over at zero and an open path stops the bot.
   */
  function Advance(p: PathProgress, increment: real, isClosed: bool): (r: PathProgress)
    ensures r.enabled ==> p.enabled
    ensures isClosed ==> r.enabled == p.enabled && r.point < 1.0
    ensures isClosed && p.point >= 0.0 && increment >= 0.0 ==> r.point >= 0.0
    ensures p.point + increment < 1.0 ==> r == PathProgress(p.point + increment, p.enabled)
    ensures p.enabled && !r.enabled ==> !isClosed && r.point == p.point + increment && r.point >= 1.0
    ensures p.point + increment >= 1.0 && isClosed ==> r == PathProgress(0.0, p.enabled)
    ensures p.point + increment >= 1.0 && !isClosed ==> r == PathProgress(p.point + increment, false)
  {
    var next := p.point + increment;
    if next < 1.0 then PathProgress(next, p.enabled)
    else if isClosed then PathProgress(0.0, p.enabled)
    else PathProgress(next, false)
  }

  /** One frame of the bot: only a driving bot that has arrived at its target advances. */
  function PathStep(p: PathProgress, increment: real, isClosed: bool, arrived: bool): PathProgress
  {
    if p.enabled && arrived then Advance(p, increment, isClosed) else p
  }

  /** The progress after `n` frames that each arrive at the target. */
  function Arrivals(p: PathProgress, increment: real, isClosed: bool, n: nat): PathProgress
  {
    if n == 0 then p else PathStep(Arrivals(p, increment, isClosed, n - 1), increment, isClosed, true)
  }

  /** A frame without an arrival changes nothing, and a stopped bot is never started again. */
  lemma PathStepKeepsStopped(p: PathProgress, increment: real, isClosed: bool, arrived: bool)
    ensures !arrived ==> PathStep(p, increment, isClosed, arrived) == p
    ensures !p.enabled ==> PathStep(p, increment, isClosed, arrived) == p
    ensures PathStep(p, increment, isClosed, arrived).enabled ==> p.enabled
  {
  }

  /** On a closed path with a non-negative increment the target stays in [0, 1) and the bot keeps driving. */
  lemma {:induction false} ClosedPathStaysOnTrack(p: PathProgress, increment: real, n: nat)
    requires 0.0 <= p.point < 1.0 && increment >= 0.0
    ensures 0.0 <= Arrivals(p, increment, true, n).point < 1.0
    ensures Arrivals(p, increment, true, n).enabled == p.enabled
  {
    if n > 0 {
      ClosedPathStaysOnTrack(p, increment, n - 1);
    }
  }

  /** Once stopped the bot stays stopped: later arrivals change nothing. */
  lemma {:induction false} StoppedStaysStopped(p: PathProgress, increment: real, isClosed: bool, n: nat, m: nat)
    requires !Arrivals(p, increment, isClosed, n).enabled
    ensures Arrivals(p, increment, isClosed, n + m) == Arrivals(p, increment, isClosed, n)
  {
    if m > 0 {
      StoppedStaysStopped(p, increment, isClosed, n, m - 1);
    }
  }

  /**
   * On an open path, while the bot still drives after `n >= 1` arrivals, each arrival
   * has moved the target by exactly the increment and the target is still short of the end.
   */
  lemma {:induction false} OpenPathCountsArrivals(p: PathProgress, increment: real, n: nat)
    requires Arrivals(p, increment, false, n).enabled
    ensures p.enabled
    ensures Arrivals(p, increment, false, n).point == p.point + (n as real) * increment
    ensures n >= 1 ==> Arrivals(p, increment, false, n).point < 1.0
  {
    if n > 0 {
      OpenPathCountsArrivals(p, increment, n - 1);
      calc {
        Arrivals(p, increment, false, n).point;
      == Arrivals(p, increment, false, n - 1).point + increment;
      == p.point + ((n - 1) as real) * increment + increment;
      == p.point + (n as real) * increment;
      }
    }
  }

  /** On an open path the bot has stopped by the first arrival that carries the target to the end. */
  lemma OpenPathStops(p: PathProgress, increment: real, n: nat)
    requires n >= 1 && p.point + (n as real) * increment >= 1.0
    ensures !Arrivals(p, increment, false, n).enabled
  {
    if Arrivals(p, increment, false, n).enabled {
      OpenPathCountsArrivals(p, increment, n);
    }
  }

  /**
   * The bot starts with its target one increment along the path. With a quarter-path
   * increment on an open path it drives through two arrivals and stops at the third.
   */
  lemma QuarterIncrementOpenPath()
    ensures Arrivals(PathProgress(0.25, true), 0.25, false, 2) == PathProgress(0.75, true)
    ensures Arrivals(PathProgress(0.25, true), 0.25, false, 3) == PathProgress(1.0, false)
  {
  }
}
