/**
 The locomotion state machine of the player character: dash allotment,
 grounded jump, coyote jump, double jump, jump buffer, jump hold and the
 custom gravity. The engine is reduced to parameters: whether the ground
 sensor reports ground or a wall contact, the ground normal, the clock, the
 fixed time step, the body position and the direction vectors the engine
 computes.
 */
module Movement {
  import opened Engine

  /** The phase in which the input system reports an action. */
  datatype Phase = Started | Performed | Canceled

  /** The tunables the modelled operations read. */
  datatype Settings = Settings(
    dashHasGravity: bool,
    dashDistance: real,
    dashAmount: nat,
    sprintMaxSpeed: real,
    sprintForce: real,
    jumpForce: real,
    jumpHoldForce: real,
    jumpHoldDuration: real,
    canHoldJump: bool,
    canDoubleJump: bool,
    jumpAmount: nat,
    zeroVelocityOnDoubleJump: bool,
    jumpBufferTime: real,
    coyoteTime: real,
    jumpMultiplier: real,
    customGravity: real)
  {
    /** Distances, speed caps and the buffer window are not negative. */
    predicate Valid() {
      dashDistance >= 0.0 && sprintMaxSpeed >= 0.0 && jumpBufferTime >= 0.0
    }
  }

  /** The values the component starts with. */
  const DefaultSettings: Settings := Settings(
    dashHasGravity := true,
    dashDistance := 5.0,
    dashAmount := 1,
    sprintMaxSpeed := 10.0,
    sprintForce := 10.0,
    jumpForce := 8.0,
    jumpHoldForce := 3.0,
    jumpHoldDuration := 0.25,
    canHoldJump := false,
    canDoubleJump := false,
    jumpAmount := 1,
    zeroVelocityOnDoubleJump := false,
    jumpBufferTime := 0.15,
    coyoteTime := 0.15,
    jumpMultiplier := 0.5,
    customGravity := 9.81)

  /** The component's own defaults are an admissible configuration. */
  lemma DefaultSettingsValid()
    ensures DefaultSettings.Valid()
  {
  }

  function Abs(x: real): (r: real)
    ensures r >= 0.0 && (r == x || r == -x)
  {
    if x < 0.0 then -x else x
  }

  function Clamp(x: real, lo: real, hi: real): (r: real)
    requires lo <= hi
    ensures lo <= r <= hi
    ensures lo <= x <= hi ==> r == x
  {
    if x < lo then lo else if x > hi then hi else x
  }

  /** The factor by which the custom gravity is scaled for a given vertical
      velocity: 1 unless falling, then 1 plus the fall speed, capped at 2. */
  function GravityMultiplier(verticalVelocity: real): (m: real)
    ensures 1.0 <= m <= 2.0
    ensures verticalVelocity >= 0.0 ==> m == 1.0
    ensures verticalVelocity <= -1.0 ==> m == 2.0
  {
    if verticalVelocity < 0.0 then Clamp(1.0 + Abs(verticalVelocity), 1.0, 2.0) else 1.0
  }

  /** A faster fall never gets a weaker gravity. */
  lemma GravityMultiplierMonotone(v1: real, v2: real)
    requires v1 <= v2
    ensures GravityMultiplier(v1) >= GravityMultiplier(v2)
  {
  }

  /** The velocity after the ground-cancel step on ground with normal `n`:
      unless the body already moves away from the ground at 0.5 or more, its
      component along `n` is removed. */
  function GroundCancel(v: Vec3, n: Vec3): (r: Vec3)
    ensures Dot(v, n) >= 0.5 ==> r == v
    ensures Dot(v, n) < 0.5 && IsUnit(n) ==> Dot(r, n) == 0.0
    ensures forall t :: Dot(t, n) == 0.0 ==> Dot(r, t) == Dot(v, t)
  {
    var intoGround := Dot(v, n);
    if intoGround < 0.5 then Sub(v, Scale(n, intoGround)) else v
  }

  class PlayerMovement {
    const settings: Settings
    const rb: Rigidbody

    var dashCounter: int
    var jumpCounter: int
    var isJumping: bool
    var jumpHoldTimer: real
    var isJumpHeld: bool
    var jumpBufferCounter: real
    var dashStartPos: Vec3
    var moveDirection: Vec2
    var isSprinting: bool
    var isDashing: bool
    var lastGroundedTime: real
    var inCoyote: bool

    /** The invariant every operation keeps: the dash and jump counters stay
        within their allotments, the buffer never exceeds its window, the
        hold timer is not negative, and only a gravity-free dash is tracked. */
    ghost predicate Valid()
      reads this
    {
      && settings.Valid()
      && 0 <= dashCounter <= settings.dashAmount
      && 0 <= jumpCounter <= settings.jumpAmount
      && jumpBufferCounter <= settings.jumpBufferTime
      && 0.0 <= jumpHoldTimer
      && (isDashing ==> !settings.dashHasGravity)
    }

    constructor (s: Settings, body: Rigidbody)
      requires s.Valid()
      ensures settings == s && rb == body && Valid()
      ensures dashCounter == 0 && jumpCounter == 0 && jumpBufferCounter == 0.0
      ensures !isJumping && !isJumpHeld && !isSprinting && !isDashing && !inCoyote
      ensures jumpHoldTimer == 0.0 && lastGroundedTime == 0.0 && moveDirection == Zero2
    {
      settings := s;
      rb := body;
      dashCounter := 0;
      jumpCounter := 0;
      isJumping := false;
      jumpHoldTimer := 0.0;
      isJumpHeld := false;
      jumpBufferCounter := 0.0;
      dashStartPos := Zero3;
      moveDirection := Zero2;
      isSprinting := false;
      isDashing := false;
      lastGroundedTime := 0.0;
      inCoyote := false;
    }

    /** The engine's `Vector2 != Vector2.zero`, which treats vectors whose
        squared distance is below 1e-10 as equal: a vanishing move vector
        does not count as moving. */
    predicate IsMoving()
      reads this
      ensures moveDirection == Zero2 ==> !IsMoving()
    {
      moveDirection.x * moveDirection.x + moveDirection.y * moveDirection.y >= 0.0000000001
    }

    /** Move input counts only above a small dead zone, so it implies that
        the character is moving but not conversely. */
    predicate HasMoveInput()
      reads this
      ensures HasMoveInput() ==> IsMoving()
    {
      moveDirection.x * moveDirection.x + moveDirection.y * moveDirection.y > 0.01
    }

    method OnMove(phase: Phase, value: Vec2)
      modifies this`moveDirection
      ensures moveDirection == match phase
        case Performed => value
        case Canceled => Zero2
        case Started => old(moveDirection)
    {
      if phase == Performed {
        moveDirection := value;
      } else if phase == Canceled {
        moveDirection := Zero2;
      }
    }

    /** Sets the vertical velocity to `force`, keeping the horizontal part. */
    method ApplyJumpForce(force: real)
      modifies rb`velocity
      ensures rb.velocity == old(rb.velocity).(y := force)
    {
      rb.velocity := Vec3(rb.velocity.x, force, rb.velocity.z);
    }

    method StartJumpHold()
      modifies this`isJumping, this`jumpHoldTimer
      requires Valid()
      ensures Valid()
      ensures isJumping && jumpHoldTimer == 0.0
    {
      isJumping := true;
      jumpHoldTimer := 0.0;
    }

    /** A late jump: within the coyote window after leaving the ground and
        while falling, jump at full force and remember it. */
    method HandleCoyote(now: real)
      modifies rb`velocity, this`inCoyote
      ensures now - lastGroundedTime <= settings.coyoteTime && old(rb.velocity).y < 0.0 ==>
        rb.velocity == old(rb.velocity).(y := settings.jumpForce) && inCoyote
      ensures !(now - lastGroundedTime <= settings.coyoteTime && old(rb.velocity).y < 0.0) ==>
        rb.velocity == old(rb.velocity) && inCoyote == old(inCoyote)
    {
      if now - lastGroundedTime <= settings.coyoteTime {
        if rb.velocity.y < 0.0 {
          ApplyJumpForce(settings.jumpForce);
          inCoyote := true;
        }
      }
    }

    /** An air jump at reduced force. It is refused once the allotment is
        used; a jump that follows a coyote jump does not use the allotment
        but ends the coyote state instead. */
    method HandleDoubleJump()
      modifies rb`velocity, this`jumpCounter, this`inCoyote
      requires Valid()
      ensures Valid()
      ensures old(jumpCounter) >= settings.jumpAmount ==>
        rb.velocity == old(rb.velocity) && jumpCounter == old(jumpCounter) && inCoyote == old(inCoyote)
      ensures old(jumpCounter) < settings.jumpAmount ==>
        && rb.velocity == old(rb.velocity).(y := settings.jumpForce * settings.jumpMultiplier)
        && !inCoyote
        && jumpCounter == (if old(inCoyote) then old(jumpCounter) else old(jumpCounter) + 1)
    {
      if jumpCounter >= settings.jumpAmount {
        return;
      }
      if settings.zeroVelocityOnDoubleJump {
        rb.velocity := rb.velocity.(y := 0.0);
      }
      ApplyJumpForce(settings.jumpForce * settings.jumpMultiplier);
      if !inCoyote {
        jumpCounter := jumpCounter + 1;
      } else {
        inCoyote := false;
      }
    }

    /** The jump action: a press arms the buffer; a performed press jumps
        from the ground (starting the hold window) or tries the coyote and
        double jumps in the air; a release ends the hold. */
    method OnJump(phase: Phase, grounded: bool, now: real)
      modifies this`jumpBufferCounter, this`isJumpHeld, this`isJumping, this`jumpHoldTimer
      modifies this`inCoyote, this`jumpCounter, rb`velocity
      requires Valid()
      ensures Valid()
      ensures phase == Started ==>
        && jumpBufferCounter == settings.jumpBufferTime
        && isJumpHeld == old(isJumpHeld) && isJumping == old(isJumping)
        && jumpHoldTimer == old(jumpHoldTimer) && inCoyote == old(inCoyote)
        && jumpCounter == old(jumpCounter) && rb.velocity == old(rb.velocity)
      ensures phase == Canceled ==>
        && !isJumpHeld
        && jumpBufferCounter == old(jumpBufferCounter) && isJumping == old(isJumping)
        && jumpHoldTimer == old(jumpHoldTimer) && inCoyote == old(inCoyote)
        && jumpCounter == old(jumpCounter) && rb.velocity == old(rb.velocity)
      ensures phase == Performed && grounded ==>
        && isJumpHeld && isJumping && jumpHoldTimer == 0.0
        && rb.velocity == old(rb.velocity).(y := settings.jumpForce)
        && jumpBufferCounter == old(jumpBufferCounter)
        && inCoyote == old(inCoyote) && jumpCounter == old(jumpCounter)
      ensures phase == Performed && !grounded ==>
        var coyote := now - lastGroundedTime <= settings.coyoteTime && old(rb.velocity).y < 0.0;
        var airJump := settings.canDoubleJump && old(jumpCounter) < settings.jumpAmount;
        && isJumpHeld
        && isJumping == old(isJumping) && jumpHoldTimer == old(jumpHoldTimer)
        && jumpBufferCounter == old(jumpBufferCounter)
        && rb.velocity == (if airJump then old(rb.velocity).(y := settings.jumpForce * settings.jumpMultiplier)
                           else if coyote then old(rb.velocity).(y := settings.jumpForce)
                           else old(rb.velocity))
        && inCoyote == (!airJump && (coyote || old(inCoyote)))
        && jumpCounter == (if airJump && !(coyote || old(inCoyote)) then old(jumpCounter) + 1 else old(jumpCounter))
    {
      if phase == Started {
        jumpBufferCounter := settings.jumpBufferTime;
      }
      if phase == Performed {
        isJumpHeld := true;
        if grounded {
          ApplyJumpForce(settings.jumpForce);
          StartJumpHold();
        } else {
          HandleCoyote(now);
          if settings.canDoubleJump {
            HandleDoubleJump();
          }
        }
      }
      if phase == Canceled {
        isJumpHeld := false;
      }
    }

    /** The supplementary lift while the jump is held. `curve` is the
        engine's shaping of the hold progress (a half sine); the model keeps
        it opaque and only tracks the timer and the flags. */
    method HandleJumpHoldForce(fixedDeltaTime: real, curve: real -> real)
      modifies this`jumpHoldTimer, this`isJumping, rb`pendingVelocityChange
      requires Valid() && fixedDeltaTime > 0.0
      ensures Valid()
      ensures !(settings.canHoldJump && old(isJumping) && isJumpHeld) ==>
        && jumpHoldTimer == old(jumpHoldTimer) && isJumping == old(isJumping)
        && rb.pendingVelocityChange == old(rb.pendingVelocityChange)
      ensures settings.canHoldJump && old(isJumping) && isJumpHeld && old(jumpHoldTimer) < settings.jumpHoldDuration ==>
        && jumpHoldTimer == old(jumpHoldTimer) + fixedDeltaTime && isJumping
        && rb.pendingVelocityChange == Add(old(rb.pendingVelocityChange),
             Vec3(0.0, settings.jumpHoldForce * curve(jumpHoldTimer / settings.jumpHoldDuration), 0.0))
      ensures settings.canHoldJump && old(isJumping) && isJumpHeld && old(jumpHoldTimer) >= settings.jumpHoldDuration ==>
        && jumpHoldTimer == old(jumpHoldTimer) && !isJumping
        && rb.pendingVelocityChange == old(rb.pendingVelocityChange)
    {
      if !settings.canHoldJump || !isJumping || !isJumpHeld {
        return;
      }
      if jumpHoldTimer < settings.jumpHoldDuration {
        jumpHoldTimer := jumpHoldTimer + fixedDeltaTime;
        var t := jumpHoldTimer / settings.jumpHoldDuration;
        var currentForce := settings.jumpHoldForce * curve(t);
        rb.AddVelocityChange(Scale(Up, currentForce));
      } else {
        isJumping := false;
      }
    }

    /** The dash on a sprint press. `inputDirection` is the engine's
        (camera-relative, if configured) normalised move direction and
        `facing` the body's forward vector; `position` is where the body is. */
    method PerformDash(grounded: bool, inputDirection: Vec3, facing: Vec3, position: Vec3)
      modifies this`dashCounter, this`isDashing, this`dashStartPos
      modifies rb`velocity, rb`useGravity, rb`pendingVelocityChange
      requires Valid()
      ensures Valid()
      ensures old(dashCounter) >= settings.dashAmount ==>
        && dashCounter == old(dashCounter) && isDashing == old(isDashing)
        && dashStartPos == old(dashStartPos) && rb.velocity == old(rb.velocity)
        && rb.useGravity == old(rb.useGravity) && rb.pendingVelocityChange == old(rb.pendingVelocityChange)
      ensures old(dashCounter) < settings.dashAmount ==>
        dashCounter == (if grounded then old(dashCounter) else old(dashCounter) + 1)
      ensures old(dashCounter) < settings.dashAmount ==>
        var direction := if IsMoving() then inputDirection else facing;
        var belowCap := HorizontalSpeedSquared(old(rb.velocity)) < settings.sprintMaxSpeed * settings.sprintMaxSpeed;
        var suspends := belowCap && !settings.dashHasGravity;
        && rb.pendingVelocityChange == (if belowCap then Add(old(rb.pendingVelocityChange), Scale(direction, settings.sprintForce))
                                        else old(rb.pendingVelocityChange))
        && rb.useGravity == (if suspends then false else old(rb.useGravity))
        && isDashing == (suspends || old(isDashing))
        && dashStartPos == (if suspends then position else old(dashStartPos))
        && rb.velocity == (if suspends then old(rb.velocity).(y := 0.0) else old(rb.velocity))
    {
      if dashCounter >= settings.dashAmount {
        return;
      }
      if !grounded {
        dashCounter := dashCounter + 1;
      }
      var direction: Vec3;
      if IsMoving() {
        direction := inputDirection;
      } else {
        direction := facing;
      }
      if HorizontalSpeedSquared(rb.velocity) < settings.sprintMaxSpeed * settings.sprintMaxSpeed {
        if !settings.dashHasGravity {
          rb.useGravity := false;
          isDashing := true;
          dashStartPos := position;
          rb.velocity := rb.velocity.(y := 0.0);
        }
        rb.AddVelocityChange(Scale(direction, settings.sprintForce));
      }
    }

    /** The sprint action: a press dashes, a performed hold sprints, a
        release stops sprinting. */
    method OnSprint(phase: Phase, isHold: bool, grounded: bool, inputDirection: Vec3, facing: Vec3, position: Vec3)
      modifies this`dashCounter, this`isDashing, this`dashStartPos, this`isSprinting
      modifies rb`velocity, rb`useGravity, rb`pendingVelocityChange
      requires Valid()
      ensures Valid()
      ensures isSprinting == match phase
        case Started => old(isSprinting)
        case Performed => isHold || old(isSprinting)
        case Canceled => false
      ensures phase != Started ==>
        && dashCounter == old(dashCounter) && isDashing == old(isDashing)
        && dashStartPos == old(dashStartPos) && rb.velocity == old(rb.velocity)
        && rb.useGravity == old(rb.useGravity) && rb.pendingVelocityChange == old(rb.pendingVelocityChange)
      ensures phase == Started && old(dashCounter) >= settings.dashAmount ==>
        && dashCounter == old(dashCounter) && isDashing == old(isDashing)
        && dashStartPos == old(dashStartPos) && rb.velocity == old(rb.velocity)
        && rb.useGravity == old(rb.useGravity) && rb.pendingVelocityChange == old(rb.pendingVelocityChange)
      ensures phase == Started && old(dashCounter) < settings.dashAmount ==>
        dashCounter == (if grounded then old(dashCounter) else old(dashCounter) + 1)
      ensures phase == Started && old(dashCounter) < settings.dashAmount ==>
        var direction := if IsMoving() then inputDirection else facing;
        var belowCap := HorizontalSpeedSquared(old(rb.velocity)) < settings.sprintMaxSpeed * settings.sprintMaxSpeed;
        var suspends := belowCap && !settings.dashHasGravity;
        && rb.pendingVelocityChange == (if belowCap then Add(old(rb.pendingVelocityChange), Scale(direction, settings.sprintForce))
                                        else old(rb.pendingVelocityChange))
        && rb.useGravity == (if suspends then false else old(rb.useGravity))
        && isDashing == (suspends || old(isDashing))
        && dashStartPos == (if suspends then position else old(dashStartPos))
        && rb.velocity == (if suspends then old(rb.velocity).(y := 0.0) else old(rb.velocity))
    {
      if phase == Started {
        PerformDash(grounded, inputDirection, facing, position);
      }
      if phase == Performed && isHold {
        isSprinting := true;
      }
      if phase == Canceled {
        isSprinting := false;
      }
    }

    /** Per tick: count the buffer down, and on the ground record the time,
        restore the jump allotment, leave the coyote state and fire a
        buffered jump exactly once. */
    method UpdateJump(grounded: bool, now: real, fixedDeltaTime: real)
      modifies this`jumpBufferCounter, this`lastGroundedTime, this`jumpCounter, this`inCoyote, rb`velocity
      requires Valid() && fixedDeltaTime > 0.0
      ensures Valid()
      ensures
        var buffer := if old(jumpBufferCounter) > 0.0 then old(jumpBufferCounter) - fixedDeltaTime
                      else old(jumpBufferCounter);
        && (!grounded ==>
              && jumpBufferCounter == buffer && lastGroundedTime == old(lastGroundedTime)
              && jumpCounter == old(jumpCounter) && inCoyote == old(inCoyote)
              && rb.velocity == old(rb.velocity))
        && (grounded ==>
              && lastGroundedTime == now && jumpCounter == 0 && !inCoyote
              && jumpBufferCounter == (if buffer > 0.0 then 0.0 else buffer)
              && rb.velocity == (if buffer > 0.0 then old(rb.velocity).(y := settings.jumpForce)
                                 else old(rb.velocity)))
    {
      if jumpBufferCounter > 0.0 {
        jumpBufferCounter := jumpBufferCounter - fixedDeltaTime;
      }
      if grounded {
        lastGroundedTime := now;
        jumpCounter := 0;
        inCoyote := false;
        if jumpBufferCounter > 0.0 {
          ApplyJumpForce(settings.jumpForce);
          jumpBufferCounter := 0.0;
        }
      }
    }

    /** Per tick: the ground restores the dash allotment, and a gravity-free
        dash ends (restoring gravity) once it has covered the dash distance
        or the body touches ground or a wall. */
    method UpdateDash(grounded: bool, collided: bool, position: Vec3)
      modifies this`dashCounter, this`isDashing, rb`useGravity
      requires Valid()
      ensures Valid()
      ensures dashCounter == (if grounded then 0 else old(dashCounter))
      ensures
        var ends := old(isDashing) && !settings.dashHasGravity &&
          (DistanceSquared(dashStartPos, position) > settings.dashDistance * settings.dashDistance
           || grounded || collided);
        && (ends ==> rb.useGravity && !isDashing)
        && (!ends ==> rb.useGravity == old(rb.useGravity) && isDashing == old(isDashing))
    {
      if dashCounter != 0 && grounded {
        dashCounter := 0;
      }
      if isDashing && !settings.dashHasGravity {
        var travelledSquared := DistanceSquared(dashStartPos, position);
        if travelledSquared > settings.dashDistance * settings.dashDistance {
          rb.useGravity := true;
          isDashing := false;
        } else {
          if grounded || collided {
            rb.useGravity := true;
            isDashing := false;
          }
        }
      }
    }

    /** Per tick: in the air or against a wall, accumulate the scaled custom
        gravity; on the ground with normal `groundNormal`, cancel the
        velocity into the ground. */
    method ApplyCustomGravity(grounded: bool, collided: bool, groundNormal: Vec3)
      modifies rb`velocity, rb`pendingAcceleration
      ensures !grounded || collided ==>
        && rb.velocity == old(rb.velocity)
        && rb.pendingAcceleration == Add(old(rb.pendingAcceleration),
             Scale(Scale(Down, settings.customGravity), GravityMultiplier(old(rb.velocity).y)))
      ensures grounded && !collided ==>
        && rb.velocity == GroundCancel(old(rb.velocity), groundNormal)
        && rb.pendingAcceleration == old(rb.pendingAcceleration)
    {
      if !grounded || collided {
        var gravityMultiplier := GravityMultiplier(rb.velocity.y);
        rb.AddAcceleration(Scale(Scale(Down, settings.customGravity), gravityMultiplier));
      } else {
        var velocity := rb.velocity;
        if Dot(velocity, groundNormal) < 0.5 {
          rb.velocity := GroundCancel(velocity, groundNormal);
        }
      }
    }

    /** One physics tick, in the source's order: gravity, jump, dash, (the
        horizontal movement forces, not modelled), jump hold. */
    method FixedUpdate(grounded: bool, collided: bool, groundNormal: Vec3, now: real,
                       fixedDeltaTime: real, position: Vec3, curve: real -> real)
      modifies this`jumpBufferCounter, this`lastGroundedTime, this`jumpCounter, this`inCoyote
      modifies this`dashCounter, this`isDashing, this`jumpHoldTimer, this`isJumping
      modifies rb`velocity, rb`pendingAcceleration, rb`useGravity, rb`pendingVelocityChange
      requires Valid() && fixedDeltaTime > 0.0
      ensures Valid()
      ensures moveDirection == old(moveDirection) && isSprinting == old(isSprinting)
      ensures dashStartPos == old(dashStartPos) && isJumpHeld == old(isJumpHeld)
      // gravity, then the jump: a buffered jump replaces the vertical part of
      // the ground-cancelled velocity
      ensures
        var airborne := !grounded || collided;
        var cancelled := if airborne then old(rb.velocity) else GroundCancel(old(rb.velocity), groundNormal);
        var buffer := if old(jumpBufferCounter) > 0.0 then old(jumpBufferCounter) - fixedDeltaTime
                      else old(jumpBufferCounter);
        var fires := grounded && buffer > 0.0;
        && rb.velocity == (if fires then cancelled.(y := settings.jumpForce) else cancelled)
        && jumpBufferCounter == (if fires then 0.0 else buffer)
        && rb.pendingAcceleration == (if airborne then Add(old(rb.pendingAcceleration),
                                        Scale(Scale(Down, settings.customGravity), GravityMultiplier(old(rb.velocity).y)))
                                      else old(rb.pendingAcceleration))
      ensures lastGroundedTime == (if grounded then now else old(lastGroundedTime))
      ensures jumpCounter == (if grounded then 0 else old(jumpCounter))
      ensures inCoyote == (!grounded && old(inCoyote))
      ensures dashCounter == (if grounded then 0 else old(dashCounter))
      ensures
        var ends := old(isDashing) && !settings.dashHasGravity &&
          (DistanceSquared(old(dashStartPos), position) > settings.dashDistance * settings.dashDistance
           || grounded || collided);
        && (ends ==> rb.useGravity && !isDashing)
        && (!ends ==> rb.useGravity == old(rb.useGravity) && isDashing == old(isDashing))
      ensures
        var holding := settings.canHoldJump && old(isJumping) && old(isJumpHeld);
        && (!holding ==> jumpHoldTimer == old(jumpHoldTimer) && isJumping == old(isJumping)
                         && rb.pendingVelocityChange == old(rb.pendingVelocityChange))
        && (holding && old(jumpHoldTimer) < settings.jumpHoldDuration ==>
              && jumpHoldTimer == old(jumpHoldTimer) + fixedDeltaTime && isJumping
              && rb.pendingVelocityChange == Add(old(rb.pendingVelocityChange),
                   Vec3(0.0, settings.jumpHoldForce * curve(jumpHoldTimer / settings.jumpHoldDuration), 0.0)))
        && (holding && old(jumpHoldTimer) >= settings.jumpHoldDuration ==>
              && jumpHoldTimer == old(jumpHoldTimer) && !isJumping
              && rb.pendingVelocityChange == old(rb.pendingVelocityChange))
    {
      ApplyCustomGravity(grounded, collided, groundNormal);
      UpdateJump(grounded, now, fixedDeltaTime);
      UpdateDash(grounded, collided, position);
      HandleJumpHoldForce(fixedDeltaTime, curve);
    }
  }
}
