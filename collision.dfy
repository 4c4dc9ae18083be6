/**
 Ground and contact sensing of the player character: deciding from a
 downward box cast whether the character stands on walkable ground, keeping
 the best-aligned ground hit, tracking wall contacts, choosing the friction
 material and climbing low steps. The casts themselves belong to the engine;
 their results arrive here as sequences of hits in the order the engine
 returns them.
 */
module Collision {
  import opened Engine
  import Movement

  /** One result of a cast: whether it hit the character's own collider,
      the surface normal (a unit vector) and the contact point. */
  datatype Hit = Hit(isSelf: bool, normal: Vec3, point: Vec3)

  /** What a search that finds nothing hands back. */
  const DefaultHit: Hit := Hit(false, Zero3, Zero3)

  /** Cosine of the maximum walkable slope angle. The angle is configured in
      the range 0 to 89 degrees, so the cosine is positive and at most 1. */
  type SlopeCosine = c: real | 0.0 < c <= 1.0 witness 1.0

  /** How well a hit faces up: the dot product of its normal with up. */
  function Alignment(h: Hit): real {
    h.normal.y
  }

  /** A hit that counts as walkable ground: not the character itself, and
      its angle from up is within the maximum slope angle. */
  predicate Qualifies(h: Hit, minDot: real) {
    !h.isSelf && Alignment(h) >= minDot
  }

  /** A unit normal at least `threshold` degrees away from up, with
      `thresholdCosine` the cosine of that threshold. */
  predicate IsSteep(normal: Vec3, thresholdCosine: real) {
    normal.y <= thresholdCosine
  }

  /** `hits[i]` is the ground hit chosen among the first `n` hits: it
      qualifies, no qualifying hit is better aligned, and every qualifying
      hit before it is strictly worse aligned (the earliest best one wins). */
  predicate BestAmong(hits: seq<Hit>, minDot: real, i: int, n: int)
    requires 0 <= n <= |hits|
  {
    && 0 <= i < n
    && Qualifies(hits[i], minDot)
    && (forall j :: 0 <= j < n && Qualifies(hits[j], minDot) ==> Alignment(hits[j]) <= Alignment(hits[i]))
    && (forall j :: 0 <= j < i && Qualifies(hits[j], minDot) ==> Alignment(hits[j]) < Alignment(hits[i]))
  }

  predicate IsBestGround(hits: seq<Hit>, minDot: real, i: int) {
    BestAmong(hits, minDot, i, |hits|)
  }

  predicate AnyQualifies(hits: seq<Hit>, minDot: real) {
    exists j :: 0 <= j < |hits| && Qualifies(hits[j], minDot)
  }

  /** Whenever some hit qualifies, a best ground hit exists. */
  lemma {:induction false} BestGroundExists(hits: seq<Hit>, minDot: real, n: nat)
    requires n <= |hits|
    requires exists j :: 0 <= j < n && Qualifies(hits[j], minDot)
    ensures exists i :: BestAmong(hits, minDot, i, n)
  {
    var k :| 0 <= k < n && Qualifies(hits[k], minDot);
    if k == n - 1 && !(exists j :: 0 <= j < n - 1 && Qualifies(hits[j], minDot)) {
      assert BestAmong(hits, minDot, n - 1, n);
    } else {
      if k == n - 1 {
        k :| 0 <= k < n - 1 && Qualifies(hits[k], minDot);
      }
      BestGroundExists(hits, minDot, n - 1);
      var b :| BestAmong(hits, minDot, b, n - 1);
      if Qualifies(hits[n - 1], minDot) && Alignment(hits[n - 1]) > Alignment(hits[b]) {
        assert BestAmong(hits, minDot, n - 1, n);
      } else {
        assert BestAmong(hits, minDot, b, n);
      }
    }
  }

  /** The best ground hit is unique. */
  lemma BestGroundUnique(hits: seq<Hit>, minDot: real, i: int, j: int)
    requires IsBestGround(hits, minDot, i) && IsBestGround(hits, minDot, j)
    ensures i == j
  {
  }

  /** Index of the first hit that is not the character's own collider. */
  function FirstNonSelf(hits: seq<Hit>): (r: Option<nat>)
    ensures r.Some? ==> r.value < |hits| && !hits[r.value].isSelf
    ensures r.Some? ==> forall j :: 0 <= j < r.value ==> hits[j].isSelf
    ensures r.None? ==> forall j :: 0 <= j < |hits| ==> hits[j].isSelf
  {
    if |hits| == 0 then None
    else if !hits[0].isSelf then Some(0)
    else match FirstNonSelf(hits[1..])
      case None => None
      case Some(k) => Some(k + 1)
  }

  /** The first hit that is not the character's own collider, or `false`
      and the default hit when every hit is. */
  method TryGetNonPlayerHit(hits: seq<Hit>) returns (found: bool, validHit: Hit)
    ensures found <==> exists j :: 0 <= j < |hits| && !hits[j].isSelf
    ensures found ==> FirstNonSelf(hits).Some? && validHit == hits[FirstNonSelf(hits).value]
    ensures !found ==> validHit == DefaultHit
  {
    var i := 0;
    while i < |hits|
      invariant 0 <= i <= |hits|
      invariant forall j :: 0 <= j < i ==> hits[j].isSelf
    {
      if !hits[i].isSelf {
        var first := FirstNonSelf(hits);
        assert first.Some? && first.value == i;
        return true, hits[i];
      }
      i := i + 1;
    }
    return false, DefaultHit;
  }

  /** The friction material of the character's collider. */
  datatype PhysicsMaterial = NoMaterial | DefaultMaterial | SlideMaterial

  /** The material for this frame: sliding in the air and when pushing
      against a wall, the default one otherwise. */
  function ChooseMaterial(grounded: bool, onWall: bool, moving: bool): (m: PhysicsMaterial)
    ensures m != NoMaterial
    ensures m == SlideMaterial <==> !grounded || (onWall && moving)
  {
    if grounded && onWall then
      (if moving then SlideMaterial else DefaultMaterial)
    else if !grounded then SlideMaterial
    else DefaultMaterial
  }

  /** The size of the character's capsule as the engine reports it this frame. */
  datatype Capsule = Capsule(boundsMinY: real, height: real, scaleY: real)

  /** Where a step-up puts the body: on top of `target`, half the capsule's
      scaled height above it, keeping x and z, then nudged 0.02 forward. */
  function StepUpPosition(position: Vec3, target: Vec3, capsule: Capsule, forward: Vec3): (p: Vec3)
    ensures p.y - forward.y * 0.02 - capsule.height * 0.5 * capsule.scaleY == target.y
    ensures p.x - forward.x * 0.02 == position.x && p.z - forward.z * 0.02 == position.z
  {
    Add(Vec3(position.x, target.y + capsule.height * 0.5 * capsule.scaleY, position.z), Scale(forward, 0.02))
  }

  class CollisionCheck {
    const minDot: SlopeCosine
    const wallCosine: real
    const firstStepOffset: real
    const maxStepHeight: real
    const rb: Rigidbody
    const playerMovement: Movement.PlayerMovement

    var hasCollider: bool
    var lastGroundHit: Hit
    var onWall: bool
    var hasCollided: bool
    var material: PhysicsMaterial
    var position: Vec3

    /** `minDot` is the cosine of the maximum slope angle, `wallCosine` the
        cosine of the wall angle threshold. */
    constructor (minDot: SlopeCosine, wallCosine: real, firstStepOffset: real, maxStepHeight: real,
                 rb: Rigidbody, playerMovement: Movement.PlayerMovement, position: Vec3)
      ensures this.minDot == minDot && this.wallCosine == wallCosine
      ensures this.firstStepOffset == firstStepOffset && this.maxStepHeight == maxStepHeight
      ensures this.rb == rb && this.playerMovement == playerMovement && this.position == position
      ensures !hasCollider && !onWall && !hasCollided
      ensures lastGroundHit == DefaultHit && material == NoMaterial
    {
      this.minDot := minDot;
      this.wallCosine := wallCosine;
      this.firstStepOffset := firstStepOffset;
      this.maxStepHeight := maxStepHeight;
      this.rb := rb;
      this.playerMovement := playerMovement;
      this.position := position;
      hasCollider := false;
      lastGroundHit := DefaultHit;
      onWall := false;
      hasCollided := false;
      material := NoMaterial;
    }

    /** The collider is bound and starts with the default material. */
    method Start()
      modifies this`hasCollider, this`material
      ensures hasCollider && material == DefaultMaterial
    {
      hasCollider := true;
      material := DefaultMaterial;
    }

    /** The verdict of the ground check on the cast result `hits`. */
    ghost predicate Grounded(hits: seq<Hit>)
      reads this
    {
      hasCollider && AnyQualifies(hits, minDot)
    }

    /** Grounded iff the collider is bound and some hit other than the
        character's own qualifies; on success the best-aligned qualifying hit
        (the earliest of equals) is cached, otherwise the cache is kept. */
    method CheckIsGrounded(hits: seq<Hit>) returns (grounded: bool)
      modifies this`lastGroundHit
      ensures grounded == Grounded(hits)
      ensures grounded ==> exists k :: IsBestGround(hits, minDot, k) && lastGroundHit == hits[k]
      ensures !grounded ==> lastGroundHit == old(lastGroundHit)
    {
      if !hasCollider {
        return false;
      }
      if |hits| == 0 {
        return false;
      }
      var bestAlignment: real := -1.0;
      var bestHit := DefaultHit;
      var foundValid := false;
      ghost var bestIndex := 0;
      var i := 0;
      while i < |hits|
        invariant 0 <= i <= |hits|
        invariant foundValid <==> exists j :: 0 <= j < i && Qualifies(hits[j], minDot)
        invariant !foundValid ==> bestAlignment == -1.0
        invariant foundValid ==> BestAmong(hits, minDot, bestIndex, i)
        invariant foundValid ==> bestHit == hits[bestIndex] && bestAlignment == Alignment(bestHit)
      {
        var hit := hits[i];
        if !hit.isSelf {
          var alignment := hit.normal.y;
          if alignment >= minDot && alignment > bestAlignment {
            bestAlignment := alignment;
            bestHit := hit;
            foundValid := true;
            bestIndex := i;
          }
        }
        i := i + 1;
      }
      if foundValid {
        lastGroundHit := bestHit;
        return true;
      }
      return false;
    }

    /** The cached ground normal when grounded, straight up otherwise. */
    method TryGetGroundNormal(hits: seq<Hit>) returns (ok: bool, normal: Vec3)
      modifies this`lastGroundHit
      ensures ok == Grounded(hits)
      ensures ok ==> normal == lastGroundHit.normal && exists k :: IsBestGround(hits, minDot, k) && lastGroundHit == hits[k]
      ensures !ok ==> normal == Up && lastGroundHit == old(lastGroundHit)
    {
      var grounded := CheckIsGrounded(hits);
      if grounded {
        return true, lastGroundHit.normal;
      }
      return false, Up;
    }

    /** A contact that persists marks a wall as soon as one of its normals
        is steep; it never clears the marks. */
    method OnCollisionStay(contactNormals: seq<Vec3>)
      modifies this`onWall, this`hasCollided
      ensures onWall == (old(onWall) || exists j :: 0 <= j < |contactNormals| && IsSteep(contactNormals[j], wallCosine))
      ensures hasCollided == (old(hasCollided) || exists j :: 0 <= j < |contactNormals| && IsSteep(contactNormals[j], wallCosine))
    {
      var i := 0;
      while i < |contactNormals|
        invariant 0 <= i <= |contactNormals|
        invariant forall j :: 0 <= j < i ==> !IsSteep(contactNormals[j], wallCosine)
        invariant onWall == old(onWall) && hasCollided == old(hasCollided)
      {
        if IsSteep(contactNormals[i], wallCosine) {
          onWall := true;
          hasCollided := true;
          break;
        }
        i := i + 1;
      }
    }

    /** A contact that ends clears both marks. */
    method OnCollisionExit()
      modifies this`onWall, this`hasCollided
      ensures !onWall && !hasCollided
    {
      onWall := false;
      hasCollided := false;
    }

    /** Whether this frame's casts call for a step-up: the character is
        grounded, the forward ray meets a steep surface other than itself,
        the diagonal ray meets something other than itself at a height above
        the feet in (0.01, maxStepHeight], and there is move input. */
    ghost predicate StepsUp(groundHits: seq<Hit>, forwardHits: seq<Hit>, diagonalHits: seq<Hit>,
                            capsule: Capsule)
      reads this, playerMovement
    {
      && Grounded(groundHits)
      && FirstNonSelf(forwardHits).Some?
      && IsSteep(forwardHits[FirstNonSelf(forwardHits).value].normal, wallCosine)
      && FirstNonSelf(diagonalHits).Some?
      && 0.01 < diagonalHits[FirstNonSelf(diagonalHits).value].point.y - (capsule.boundsMinY + firstStepOffset) <= maxStepHeight
      && playerMovement.HasMoveInput()
    }

    /** Lifts the body onto the step at `target`; gravity is switched off
        for the grace period that follows. */
    method StepUp(target: Vec3, capsule: Capsule, forward: Vec3)
      modifies this`position, rb`useGravity
      ensures position == StepUpPosition(old(position), target, capsule, forward)
      ensures !rb.useGravity
    {
      rb.useGravity := false;
      var heightOffset := capsule.height * 0.5;
      var worldOffset := heightOffset * capsule.scaleY;
      position := Vec3(position.x, target.y + worldOffset, position.z);
      position := Add(position, Scale(forward, 0.02));
    }

    /** The step check of one frame, given the ground cast, the forward ray
        and the diagonal ray. */
    method CheckForStep(groundHits: seq<Hit>, forwardHits: seq<Hit>, diagonalHits: seq<Hit>,
                        capsule: Capsule, forward: Vec3)
      modifies this`lastGroundHit, this`position, rb`useGravity
      ensures Grounded(groundHits) ==> exists k :: IsBestGround(groundHits, minDot, k) && lastGroundHit == groundHits[k]
      ensures !Grounded(groundHits) ==> lastGroundHit == old(lastGroundHit)
      ensures StepsUp(groundHits, forwardHits, diagonalHits, capsule) ==>
        && position == StepUpPosition(old(position), diagonalHits[FirstNonSelf(diagonalHits).value].point, capsule, forward)
        && !rb.useGravity
      ensures !StepsUp(groundHits, forwardHits, diagonalHits, capsule) ==>
        position == old(position) && rb.useGravity == old(rb.useGravity)
    {
      var grounded := CheckIsGrounded(groundHits);
      if !grounded {
        return;
      }
      var feetY := capsule.boundsMinY + firstStepOffset;
      var didHit1, hit1 := TryGetNonPlayerHit(forwardHits);
      if didHit1 && IsSteep(hit1.normal, wallCosine) {
        var didHit2, hit2 := TryGetNonPlayerHit(diagonalHits);
        if didHit2 {
          var stepHeight := hit2.point.y - feetY;
          if stepHeight > 0.01 && stepHeight <= maxStepHeight && playerMovement.HasMoveInput() {
            StepUp(hit2.point, capsule, forward);
          }
        }
      }
    }

    /** One frame: choose the material from the ground check, the wall mark
        and whether the character moves, then run the step check. */
    method Update(groundHits: seq<Hit>, forwardHits: seq<Hit>, diagonalHits: seq<Hit>,
                  capsule: Capsule, forward: Vec3)
      requires hasCollider
      modifies this`lastGroundHit, this`material, this`position, rb`useGravity
      ensures material == ChooseMaterial(Grounded(groundHits), onWall, playerMovement.IsMoving())
      ensures Grounded(groundHits) ==> exists k :: IsBestGround(groundHits, minDot, k) && lastGroundHit == groundHits[k]
      ensures !Grounded(groundHits) ==> lastGroundHit == old(lastGroundHit)
      ensures StepsUp(groundHits, forwardHits, diagonalHits, capsule) ==>
        && position == StepUpPosition(old(position), diagonalHits[FirstNonSelf(diagonalHits).value].point, capsule, forward)
        && !rb.useGravity
      ensures !StepsUp(groundHits, forwardHits, diagonalHits, capsule) ==>
        position == old(position) && rb.useGravity == old(rb.useGravity)
    {
      var grounded := CheckIsGrounded(groundHits);
      if grounded && onWall {
        if playerMovement.IsMoving() {
          material := SlideMaterial;
        } else {
          material := DefaultMaterial;
        }
      } else if !grounded {
        material := SlideMaterial;
      } else {
        material := DefaultMaterial;
      }
      CheckForStep(groundHits, forwardHits, diagonalHits, capsule, forward);
    }
  }
}
