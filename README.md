# Character controller core, modelled in Dafny

This project models the core of a Unity platformer character controller. It covers three parts.

- **Ground and contact sensing** (`collision.dfy`, module `Collision`, class `CollisionCheck`):
  - the grounded check over the hits of a downward box cast;
  - the cached best ground hit and the ground normal taken from it;
  - the search for the first hit that is not the character's own collider;
  - the wall-contact flags;
  - the per-frame friction material;
  - the step-up check and the step-up repositioning.
- **Locomotion counters and timers** (`movement.dfy`, module `Movement`, class `PlayerMovement`):
  - the dash allotment and the gravity-free dash;
  - the grounded jump, the coyote jump and the double jump;
  - the jump buffer consumed on landing;
  - the jump-hold window;
  - the custom gravity multiplier and the ground cancel;
  - the order of the steps in one physics tick.
- **Service registry** (`services.dfy`, module `Services`, class `ServiceLocator`): register-if-absent, lookup with a default, remove and clear over one dictionary.

`engine.dfy` (module `Engine`) holds the stand-ins for the engine types.
- `Vec2` and `Vec3` have `real` components.
- `Rigidbody` is a class with the velocity, the gravity flag and two accumulators.
  - `AddAcceleration` and `AddVelocityChange` are the two force modes the controller uses. They only accumulate: the physics step integrates them, and it is not modelled.
  - Writing `velocity` takes effect at once.

## How the engine is abstracted

- A cast result is a `seq<Hit>` in engine order.
  - A `Hit` records whether it hit the character's own collider (`isSelf`), its normal and its contact point.
  - The engine reports unit normals. The model assumes this and does not enforce it; the wall test `IsSteep` agrees with the engine's angle test only for unit normals.
  - The cast geometry (origins, directions, distances, box extents) stays with the engine.
- The alignment of a hit is `normal.y`, which is exactly its dot product with up.
  - The slope limit is passed in as `minDot`, the cosine of the maximum slope angle.
  - The inspector range of that angle is 0° to 89°, so `minDot` is a `SlopeCosine` in (0, 1].
- The angle test `Vector3.Angle(n, up) >= wallAngleThreshold` is written `n.y <= wallCosine`.
  - `wallCosine` is the cosine of the threshold.
  - The two tests agree for unit normals and thresholds in 0°–180°.
- Comparisons of a length with a bound use squares, which is exact for non-negative bounds:
  - the horizontal speed against `SprintMaxSpeed`;
  - the dash distance travelled against `_dashDistance`.
  `Settings.Valid` requires these bounds to be non-negative.
- `PlayerMovement` receives, as parameters:
  - the ground sensor's verdict (`grounded`, `collided`) and the ground normal. `collided` is the sensor's public field `hasCollided` (Assets/CollisionCheck.cs:14). The movement code reads it as `HasCollided` (Assets/PlayerMovement.cs:120, 338), a name that the sensor file does not declare;
  - `Time.time` and `Time.fixedDeltaTime`;
  - the body position, the normalised (camera-relative if configured) input direction and the facing direction.

  Within one tick the body does not move, so one grounded verdict serves every query of that tick.
- `CollisionCheck.Update` evaluates the ground check once for the material choice and once more in `CheckForStep`. The source evaluates `IsGrounded` up to four times in a frame, but every cast runs against the same world, so all of them give the same verdict and store the same cached hit.
- `IsMoving` follows the engine's approximate vector inequality. A move vector counts as moving only when its squared length is at least 1e-10.
- The hold-force curve `sin(t·π)` is the function parameter `curve` of `HandleJumpHoldForce`. Only the timer and the flags are modelled.
- `float` is modelled as `real`; rounding is not modelled.

## Behaviour worth knowing, proved as stated

- In the air, a performed jump runs `HandleCoyote` and then, if double jumps are enabled, `HandleDoubleJump` in the same callback.
  - After a coyote jump the double jump still fires at once: the vertical velocity ends at `jumpForce * jumpMultiplier`, not `jumpForce`.
  - The coyote state is consumed and the jump counter is left as it was.
  - The `OnJump` contract states this outcome.
- `ZeroVelocityOnDoubleJump` has no observable effect: the vertical velocity it zeroes is overwritten by `ApplyJumpForce` straight after.
- The ground cancel also removes small motion away from the ground: any normal component below 0.5 is cancelled, including a positive one.
- The wall flags are set by a persisting contact and cleared by any ending contact. A persisting contact without a steep normal does not clear them.
- The material is reassigned every frame, with no check against the current material. Assigning the same material again changes nothing in the model.
- The ground check keeps the single best-aligned hit, and the earliest hit wins a tie.
  - It does not look for ascending slopes.
  - It does not average normals.

## Model

| member | source | states |
|---|---|---|
| `Collision.CollisionCheck.CheckIsGrounded` | Assets/CollisionCheck.cs:57-98 | grounded iff the collider is bound and some hit that is not the character's own has alignment at least cos(maxSlopeAngle); zero hits or an unbound collider give false; on success the cached hit is the best-aligned qualifying hit, the earliest among equals; on failure the cache is unchanged |
| `Collision.BestGroundExists` | Assets/CollisionCheck.cs:78-90 | whenever some hit qualifies, a best ground hit (maximal alignment, earliest among equals) exists |
| `Collision.BestGroundUnique` | Assets/CollisionCheck.cs:85 | the strict comparison makes the chosen ground hit unique |
| `Collision.CollisionCheck.TryGetGroundNormal` | Assets/CollisionCheck.cs:100-108 | returns true and the cached best hit's normal when grounded, false and up otherwise |
| `Collision.FirstNonSelf` | Assets/CollisionCheck.cs:204-213 | the index of the first hit not on the character's own collider; none exactly when all hits are the character's own |
| `Collision.TryGetNonPlayerHit` | Assets/CollisionCheck.cs:204-213 | found iff some hit is not the character's own, and then the hit is the first such one; otherwise the default hit |
| `Collision.ChooseMaterial` | Assets/CollisionCheck.cs:46-53 | the choice is total and never empty; slide iff airborne or (on a wall and moving), default otherwise |
| `Collision.CollisionCheck.Update` | Assets/CollisionCheck.cs:45-55 | the collider's material is the chosen one for this frame's ground verdict, wall flag and motion; then the step check's effect |
| `Collision.CollisionCheck.OnCollisionStay` | Assets/CollisionCheck.cs:178-190 | onWall and hasCollided become true iff some contact normal is at least the wall angle from up; they are never cleared here |
| `Collision.CollisionCheck.OnCollisionExit` | Assets/CollisionCheck.cs:192-195 | both wall flags are cleared |
| `Collision.CollisionCheck.CheckForStep` | Assets/CollisionCheck.cs:110-142 | the body is moved (and gravity switched off) iff grounded, the forward ray's first non-self hit is steep, the diagonal ray hits, the step height is in (0.01, maxStepHeight] and there is move input; otherwise position and gravity are unchanged |
| `Collision.CollisionCheck.StepUp` | Assets/CollisionCheck.cs:144-155 | gravity is switched off and the body is placed at the step-up position |
| `Collision.StepUpPosition` | Assets/CollisionCheck.cs:147-154 | the step-up position keeps x and z, sits half the scaled capsule height above the target point, then moves 0.02 along forward |
| `Collision.CollisionCheck.constructor` | Assets/CollisionCheck.cs:14-16 | a new sensor has no collider bound yet, both wall flags clear, the default hit cached and no material |
| `Collision.CollisionCheck.Start` | Assets/CollisionCheck.cs:39-43 | the collider is bound and has the default material |
| `Movement.GravityMultiplier` | Assets/PlayerMovement.cs:121-122 | the gravity multiplier lies in [1, 2], is 1 when not falling and 2 from a fall speed of 1 on |
| `Movement.GravityMultiplierMonotone` | Assets/PlayerMovement.cs:122 | a faster fall never gets a smaller multiplier |
| `Movement.GroundCancel` | Assets/PlayerMovement.cs:124-131 | velocity at least 0.5 along the ground normal is kept; otherwise the component along a unit normal becomes 0; every component orthogonal to the normal is preserved |
| `Movement.PlayerMovement.ApplyCustomGravity` | Assets/PlayerMovement.cs:119-133 | in the air or against a wall, the scaled downward gravity is accumulated and the velocity is untouched; on the ground, the velocity is ground-cancelled and no force is added |
| `Movement.PlayerMovement.IsMoving` | Assets/PlayerMovement.cs:56 | the engine's tolerant comparison with zero: moving iff the squared length is at least 1e-10, so a zero move vector is never moving |
| `Movement.PlayerMovement.HasMoveInput` | Assets/PlayerMovement.cs:361-363 | move input (above the dead zone) implies that the character is moving |
| `Movement.PlayerMovement.OnMove` | Assets/PlayerMovement.cs:143-150 | a performed move stores the value, a canceled move stores zero |
| `Movement.PlayerMovement.ApplyJumpForce` | Assets/PlayerMovement.cs:357-359 | the vertical velocity becomes the force, x and z unchanged |
| `Movement.PlayerMovement.StartJumpHold` | Assets/PlayerMovement.cs:169-172 | the hold window opens with timer 0 |
| `Movement.PlayerMovement.HandleCoyote` | Assets/PlayerMovement.cs:291-299 | jumps at full force and enters the coyote state iff within the coyote time since last grounded and falling; otherwise nothing changes |
| `Movement.PlayerMovement.HandleDoubleJump` | Assets/PlayerMovement.cs:301-311 | no-op once the jump allotment is used; otherwise jumps at jumpForce × multiplier and either uses one jump or, after a coyote jump, ends the coyote state instead; the counter stays within the allotment |
| `Movement.PlayerMovement.OnJump` | Assets/PlayerMovement.cs:152-167 | started arms the buffer; performed on the ground jumps and opens the hold window; performed in the air gives the combined coyote and double-jump outcome; canceled releases the hold; all counters stay in range |
| `Movement.PlayerMovement.HandleJumpHoldForce` | Assets/PlayerMovement.cs:174-186 | nothing changes unless hold is enabled, a jump is in progress and held; then the timer grows by the time step and lift is added while below the hold duration, and the jump ends once the timer is not below it |
| `Movement.PlayerMovement.PerformDash` | Assets/PlayerMovement.cs:260-289 | no-op once the dash allotment is used; otherwise an airborne dash uses one dash even when the speed cap blocks the impulse; below the cap the impulse is added along the input direction when moving (the tolerant test) or the facing otherwise and, without dash gravity, gravity is off, the dash is tracked from the current position and vertical velocity is zeroed; the counter stays within the allotment |
| `Movement.PlayerMovement.OnSprint` | Assets/PlayerMovement.cs:188-198 | started has exactly the dash's outcome: no-op once the allotment is used, otherwise the airborne-only counter step, the below-cap impulse and the gravity-free dash setup; performed hold sprints, canceled stops sprinting, and neither touches the dash state |
| `Movement.PlayerMovement.UpdateJump` | Assets/PlayerMovement.cs:313-328 | a positive buffer counts down; on the ground the time is recorded, the jump counter reset, the coyote state cleared, and a still-positive buffer fires exactly one jump and is zeroed |
| `Movement.PlayerMovement.UpdateDash` | Assets/PlayerMovement.cs:330-344 | the ground resets the dash counter; a gravity-free dash ends with gravity restored iff it travelled beyond the dash distance or touched ground or a wall; otherwise nothing changes |
| `Movement.PlayerMovement.FixedUpdate` | Assets/PlayerMovement.cs:111-117 | the whole new state of one tick in source order: gravity accumulated in the air or against a wall, otherwise the velocity ground-cancelled; then the buffer counts down, and on the ground the landing time, jump counter and coyote state reset and a still-positive buffer fires one jump on the ground-cancelled velocity; then the dash counter resets on the ground and a gravity-free dash ends; then the hold timer, flag and lift; the move input, sprint flag, dash start and hold flag are unchanged; every counter stays in range |
| `Movement.DefaultSettingsValid` | Assets/PlayerMovement.cs:13-49 | the component's default tunables form an admissible configuration |
| `Movement.PlayerMovement.constructor` | Assets/PlayerMovement.cs:23-60 | counters, timers and flags start at zero and false, and the invariant holds |
| `Services.ServiceLocator.constructor` | Assets/ServiceLocator.cs:6 | the registry starts with an empty dictionary |
| `Services.ServiceLocator.Register` | Assets/ServiceLocator.cs:8-15 | an absent type gets the service and a following lookup returns it; a present type leaves the dictionary unchanged; other types are unaffected |
| `Services.ServiceLocator.Get` | Assets/ServiceLocator.cs:17-24 | returns the registered service, or the default (`None`) exactly when the type is absent; reads only |
| `Services.ServiceLocator.Unregister` | Assets/ServiceLocator.cs:26-31 | removes exactly that type's entry; an absent type leaves the dictionary unchanged; other lookups are unaffected |
| `Services.ServiceLocator.Clear` | Assets/ServiceLocator.cs:33-35 | the dictionary is empty and every lookup gives the default |
| `Services.RegisterThenUnregister` | Assets/ServiceLocator.cs:8-31 | registering a new type and unregistering it restores the original dictionary |
| `Services.FirstRegistrationWins` | Assets/ServiceLocator.cs:10-14 | a second registration under the same type keeps the first service |

## Left out

- The physics casts (`Physics.BoxCastAll`, `Physics.RaycastAll`), bounds, transforms and `Time` are engine data. They arrive as parameters and cast results.
- The horizontal movement forces of `MovementLogic` (Assets/PlayerMovement.cs:200-258) are not modelled: projection onto the ground plane, normalisation, acceleration, braking, turn correction and the `Slerp` facing rotation are floating-point vector math. `FixedUpdate` leaves that step out.
- The camera-relative remapping `TranformToCameraRotation` reads camera state. Its result is the `inputDirection` parameter.
- The re-enabling of gravity by the `GravityChangeOnStep` coroutine after `stepGravTime` is engine scheduling. The model keeps only the immediate switch-off in `StepUp`.
- Gizmo and ray drawing (`OnDrawGizmos`, `DrawRays`) and the `Debug.Log*` calls are presentation. This includes the warnings in `Register`, `Get` and `Unregister`.
- Subscribing and unsubscribing the input actions in `OnEnable`/`OnDisable` is event wiring. Each callback is modelled as a method that takes its phase.
- `OnCursorLock`, `CursorLock.cs` and `InputManager.cs` are cursor, UI and input-device plumbing.
- Movement.PlayerMovement.HandleJumpHoldForce: the lift is `jumpHoldForce * curve(timer / jumpHoldDuration)`. The sine shape is not modelled, because it is the engine's math.
- Collision.CollisionCheck.CheckForStep: the collider null check that follows the grounded check is not repeated, because a successful ground check already implies a bound collider.
- Collision.CollisionCheck.Update: it requires a bound collider, because the source dereferences the collider to set the material. The engine calls `Start`, which binds it, before the first `Update`.
- `Settings.Valid` keeps the dash distance, the sprint cap and the jump buffer time non-negative, and `dashAmount` is a `nat`. The source accepts any inspector value, including a negative `DashAmount` (Assets/PlayerMovement.cs:26), with which every dash returns at once; the model cannot express that setting. The other bounds are what make the squared comparisons exact and the buffer invariant hold.
