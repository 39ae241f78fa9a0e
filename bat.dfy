/**
 * The player's bat: sonar with a cooldown, a dash with its own cooldown and countdown,
 * steering outside a dash, the control flag, and the camera hints it gives. Times are the
 * engine clock passed in; "never" (-Infinity as the start value) is a separate case.
 * Normalisation is the engine routine `normalized`.
 */
module Bat {
  import opened Wrappers
  import opened Geometry

  /** When an action last happened; Never stands for the start value -Infinity. */
  datatype Stamp = Never | At(time: real)

  /** now - last >= cooldown, where now - (-Infinity) is +Infinity and passes any finite cooldown. */
  predicate CooledDown(now: real, last: Stamp, cooldown: real)
  {
    match last
    case Never => true
    case At(t) => now - t >= cooldown
  }

  /** The first attempt always passes the cooldown check, whatever the clock and cooldown. */
  lemma FirstUseCooledDown(now: real, cooldown: real)
    ensures CooledDown(now, Never, cooldown)
  {
  }

  /** After a use at t, a new use is refused exactly while less than cooldown has passed. */
  lemma CooldownBlocksAfterUse(t: real, now: real, cooldown: real)
    ensures !CooledDown(now, At(t), cooldown) <==> now < t + cooldown
  {
  }

  /** |v| > threshold compared through squares, as exact reals allow (threshold >= 0). */
  predicate LongerThan(v: Vec2, threshold: real)
    requires threshold >= 0.0
  {
    SqrMagnitude(v) > threshold * threshold
  }

  /** For non-negative a and b, comparing a and b is comparing their squares. */
  lemma SquareMonotone(a: real, b: real)
    requires 0.0 <= a && 0.0 <= b
    ensures a < b <==> a * a < b * b
    ensures a <= b <==> a * a <= b * b
  {
    if a < b {
      SquareGrows(a, b);
    } else if b < a {
      SquareGrows(b, a);
    }
  }

  /** Squaring is strictly increasing on the non-negative reals. */
  lemma SquareGrows(a: real, b: real)
    requires 0.0 <= a < b
    ensures a * a < b * b
  {
    var d := b - a;
    assert b * b == a * a + d * (a + b);
    assert d * (a + b) > 0.0;
  }

  /** The force gain outside a dash: acceleration while steering, deceleration otherwise. */
  function Gain(input: Vec2, acceleration: real, deceleration: real): (g: real)
    ensures g == acceleration || g == deceleration
  {
    if LongerThan(input, 0.1) then acceleration else deceleration
  }

  /** What one physics step does to the body. */
  datatype Step =
    | DashStep                                   // velocity set to the dash velocity, no force, no turn
    | Steer(force: Vec2, turnToward: Option<Vec2>)  // AddForce(force) and, if present, RotateTowards the look direction

  /**
   * Against the input's length m (m >= 0, m * m its squared length): the gain is acceleration
   * exactly when m > 0.1, as the controller's magnitude test says.
   */
  lemma GainByMagnitude(input: Vec2, m: real, acceleration: real, deceleration: real)
    requires m >= 0.0 && m * m == SqrMagnitude(input)
    ensures m > 0.1 ==> Gain(input, acceleration, deceleration) == acceleration
    ensures m <= 0.1 ==> Gain(input, acceleration, deceleration) == deceleration
  {
    SquareMonotone(m, 0.1);
  }

  class TopDownBatController {
    const sonarCooldown: real
    const maxMoveSpeed: real
    const acceleration: real
    const deceleration: real
    const dashSpeed: real
    const dashDuration: real
    const dashCooldown: real
    const targetLookAheadRatio: real
    const lookDirectionDistance: real
    const cameraLerpAggression: real
    /** Whether a Rigidbody2D is attached. */
    const hasBody: bool

    var lastSonarTime: Stamp
    /** The sonar pulses spawned, by spawn position. */
    var pulses: seq<Vec2>
    var moveInput: Vec2
    var lookDirection: Vec2
    var velocity: Vec2
    var isDashing: bool
    var dashTimeLeft: real
    var lastDashTime: Stamp
    var dashDirection: Vec2
    var isInControl: bool
    var inputEnabled: bool
    var cameraSettingsChanged: bool

    constructor (sonarCooldown: real, maxMoveSpeed: real, acceleration: real, deceleration: real,
                 dashSpeed: real, dashDuration: real, dashCooldown: real,
                 targetLookAheadRatio: real, lookDirectionDistance: real, cameraLerpAggression: real,
                 hasBody: bool)
      ensures this.sonarCooldown == sonarCooldown && this.maxMoveSpeed == maxMoveSpeed
      ensures this.acceleration == acceleration && this.deceleration == deceleration
      ensures this.dashSpeed == dashSpeed && this.dashDuration == dashDuration && this.dashCooldown == dashCooldown
      ensures this.targetLookAheadRatio == targetLookAheadRatio
      ensures this.lookDirectionDistance == lookDirectionDistance
      ensures this.cameraLerpAggression == cameraLerpAggression && this.hasBody == hasBody
      ensures lastSonarTime == Never && lastDashTime == Never && pulses == []
      ensures moveInput == Zero2 && lookDirection == Up2 && velocity == Zero2
      ensures !isDashing && isInControl && !inputEnabled && !cameraSettingsChanged
    {
      this.sonarCooldown := sonarCooldown;
      this.maxMoveSpeed := maxMoveSpeed;
      this.acceleration := acceleration;
      this.deceleration := deceleration;
      this.dashSpeed := dashSpeed;
      this.dashDuration := dashDuration;
      this.dashCooldown := dashCooldown;
      this.targetLookAheadRatio := targetLookAheadRatio;
      this.lookDirectionDistance := lookDirectionDistance;
      this.cameraLerpAggression := cameraLerpAggression;
      this.hasBody := hasBody;
      lastSonarTime, lastDashTime := Never, Never;
      pulses := [];
      moveInput, lookDirection, velocity := Zero2, Up2, Zero2;
      isDashing, dashTimeLeft, dashDirection := false, 0.0, Zero2;
      isInControl, inputEnabled, cameraSettingsChanged := true, false, false;
    }

    /**
     * Fire a sonar pulse at the spawn point (or at the bat) unless the last one was less
     * than sonarCooldown ago.
     */
    method TrySonarPulse(now: real, spawnPoint: Option<Vec2>, position: Vec2)
      modifies this`lastSonarTime, this`pulses
      ensures CooledDown(now, old(lastSonarTime), sonarCooldown) ==>
        lastSonarTime == At(now)
        && pulses == old(pulses) + [if spawnPoint.Some? then spawnPoint.value else position]
      ensures !CooledDown(now, old(lastSonarTime), sonarCooldown) ==>
        lastSonarTime == old(lastSonarTime) && pulses == old(pulses)
    {
      if lastSonarTime.At? && now - lastSonarTime.time < sonarCooldown {
        return;
      }
      var spawnPos := if spawnPoint.Some? then spawnPoint.value else position;
      pulses := pulses + [spawnPos];
      lastSonarTime := At(now);
    }

    /** Take a move input; the look direction follows it only when it is not near zero. */
    method OnMove(input: Vec2, normalized: Vec2 -> Vec2)
      modifies this`moveInput, this`lookDirection
      ensures moveInput == input
      ensures lookDirection == if SqrMagnitude(input) > 0.01 then normalized(input) else old(lookDirection)
    {
      moveInput := input;
      if SqrMagnitude(input) > 0.01 {
        lookDirection := normalized(input);
      }
    }

    /** Start a dash along the look direction unless dashing or within the cooldown. */
    method TryDash(now: real, normalized: Vec2 -> Vec2)
      modifies this`isDashing, this`dashTimeLeft, this`dashDirection, this`lastDashTime
      ensures old(isDashing) || !CooledDown(now, old(lastDashTime), dashCooldown) ==>
        isDashing == old(isDashing) && dashTimeLeft == old(dashTimeLeft)
        && dashDirection == old(dashDirection) && lastDashTime == old(lastDashTime)
      ensures !old(isDashing) && CooledDown(now, old(lastDashTime), dashCooldown) ==>
        isDashing && dashTimeLeft == dashDuration && dashDirection == normalized(lookDirection)
        && lastDashTime == At(now)
    {
      if isDashing || (lastDashTime.At? && now - lastDashTime.time < dashCooldown) {
        return;
      }
      isDashing := true;
      dashTimeLeft := dashDuration;
      dashDirection := normalized(lookDirection);
      lastDashTime := At(now);
    }

    /**
     * One physics step of length dt. While dashing: fly at the dash velocity, count down and
     * end the dash once the time is used up; nothing else. Otherwise: push toward the input
     * velocity with the steering gain, and turn toward the look direction if it is not near zero.
     */
    method FixedUpdate(dt: real) returns (step: Step)
      modifies this`velocity, this`dashTimeLeft, this`isDashing
      ensures old(isDashing) ==>
        step == DashStep && velocity == Scale(dashDirection, dashSpeed)
        && dashTimeLeft == old(dashTimeLeft) - dt && isDashing == (dashTimeLeft > 0.0)
      ensures !old(isDashing) ==>
        && step == Steer(Scale(Sub(Scale(moveInput, maxMoveSpeed), velocity), Gain(moveInput, acceleration, deceleration)),
                         if SqrMagnitude(lookDirection) > 0.01 then Some(lookDirection) else None)
        && velocity == old(velocity) && dashTimeLeft == old(dashTimeLeft) && !isDashing
    {
      if isDashing {
        velocity := Scale(dashDirection, dashSpeed);
        dashTimeLeft := dashTimeLeft - dt;
        if dashTimeLeft <= 0.0 {
          isDashing := false;
        }
        return DashStep;
      }
      var targetVelocity := Scale(moveInput, maxMoveSpeed);
      var velocityDiff := Sub(targetVelocity, velocity);
      var accel := if LongerThan(moveInput, 0.1) then acceleration else deceleration;
      var force := Scale(velocityDiff, accel);
      var turn := if SqrMagnitude(lookDirection) > 0.01 then Some(lookDirection) else None;
      step := Steer(force, turn);
    }

    method OnEnable()
      modifies this`inputEnabled
      ensures inputEnabled
    {
      inputEnabled := true;
    }

    method OnDisable()
      modifies this`inputEnabled
      ensures !inputEnabled
    {
      inputEnabled := false;
    }

    function IsInControl(): bool
      reads this
    {
      isInControl
    }

    method OnTakeControl() returns (taken: bool)
      modifies this`isInControl, this`inputEnabled
      ensures taken && IsInControl() && inputEnabled
    {
      isInControl := true;
      OnEnable();
      return true;
    }

    method OnControlRemoved()
      modifies this`isInControl, this`inputEnabled
      ensures !IsInControl() && !inputEnabled
    {
      isInControl := false;
      OnDisable();
    }

    /** The body's position, or the origin without a body. */
    function WorldPosition(bodyPosition: Vec2): (p: Vec3)
      ensures !hasBody ==> p == Zero3
      ensures p.z == 0.0
    {
      if hasBody then Vec3(bodyPosition.x, bodyPosition.y, 0.0) else Zero3
    }

    /** The facing bias: the look direction at lookDirectionDistance, halved below speed 0.5. */
    function FacingBias(normalized: Vec2 -> Vec2): Vec2
      reads this
    {
      var bias := Scale(normalized(lookDirection), lookDirectionDistance);
      if SqrMagnitude(velocity) < 0.5 * 0.5 then Scale(bias, 0.5) else bias
    }

    /** How far ahead of the bat the camera should aim: the velocity share plus the facing bias. */
    function TargetLookAhead(normalized: Vec2 -> Vec2): (v: Vec2)
      reads this
      ensures !hasBody ==> v == Zero2
    {
      if !hasBody then Zero2 else Add(Scale(velocity, targetLookAheadRatio), FacingBias(normalized))
    }

    function Aggression(): real
      reads this
    {
      cameraLerpAggression
    }

    /** Read-and-clear: report a pending camera-settings change once, leaving none pending. */
    method CameraSettingsChanged() returns (changed: bool)
      modifies this`cameraSettingsChanged
      ensures changed == old(cameraSettingsChanged) && !cameraSettingsChanged
    {
      if cameraSettingsChanged {
        cameraSettingsChanged := false;
        return true;
      }
      return false;
    }
  }

  /**
   * Against the speed m (m >= 0, m * m the squared velocity): the camera aims the velocity
   * share ahead plus the look direction at lookDirectionDistance, and only half of that bias
   * when m < 0.5.
   */
  lemma LookAheadBySpeed(bat: TopDownBatController, normalized: Vec2 -> Vec2, m: real)
    requires bat.hasBody
    requires m >= 0.0 && m * m == SqrMagnitude(bat.velocity)
    ensures var share := Scale(bat.velocity, bat.targetLookAheadRatio);
      var bias := Scale(normalized(bat.lookDirection), bat.lookDirectionDistance);
      && (m < 0.5 ==> bat.TargetLookAhead(normalized) == Add(share, Scale(bias, 0.5)))
      && (m >= 0.5 ==> bat.TargetLookAhead(normalized) == Add(share, bias))
  {
    SquareMonotone(m, 0.5);
  }

  /** A new bat's first sonar pulse fires, at the spawn point or at the bat. */
  method FirstSonarFires(now: real, sonarCooldown: real, spawnPoint: Option<Vec2>, position: Vec2)
    returns (bat: TopDownBatController)
    ensures bat.pulses == [if spawnPoint.Some? then spawnPoint.value else position]
    ensures bat.lastSonarTime == At(now)
  {
    bat := new TopDownBatController(sonarCooldown, 5.0, 10.0, 10.0, 15.0, 0.2, 1.0, 0.3, 1.0, 5.0, true);
    bat.TrySonarPulse(now, spawnPoint, position);
  }
}
