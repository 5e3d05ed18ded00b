/** The stand-alone reverse GoGo grab (`ReverseGoGoGrab`): while the grab
    button is held, one fixed object follows the hand across (x and y one to
    one) and in depth by the ratio of the object's distance at grab time to
    the hand's current distance, so pulling the hand in pushes it away. */
module ReverseGoGoGrabbing {
  import opened Common
  import opened Scene

  /** The depth multiplier: the object's distance at grab time over the
      hand's current distance, floored at `minScaleDistance`. */
  function DepthRatio(initialDistance: real, handDistance: real, minScaleDistance: real): (s: real)
    requires minScaleDistance > 0.0
    ensures initialDistance >= 0.0 ==> 0.0 <= s <= initialDistance / minScaleDistance
    ensures handDistance >= minScaleDistance ==> s * handDistance == initialDistance
    ensures handDistance <= minScaleDistance ==> s == initialDistance / minScaleDistance
  {
    var denominator := Max(handDistance, minScaleDistance);
    DivideByLarger(initialDistance, minScaleDistance, denominator);
    initialDistance / denominator
  }

  lemma DivideByLarger(a: real, small: real, large: real)
    requires 0.0 < small <= large
    ensures a >= 0.0 ==> 0.0 <= a / large <= a / small
  {
    if a >= 0.0 {
      var q, r := a / large, a / small;
      assert q * large == a && r * small == a;
      MulMonotone(small, large, q);
      assert (q - r) * small <= 0.0;
    }
  }

  /** Reverse scaling: the closer the hand comes to the head, the larger the
      multiplier (for a non-negative grab distance). */
  lemma DepthRatioNonIncreasing(initialDistance: real, h1: real, h2: real, minScaleDistance: real)
    requires minScaleDistance > 0.0 && initialDistance >= 0.0 && h1 <= h2
    ensures DepthRatio(initialDistance, h2, minScaleDistance) <= DepthRatio(initialDistance, h1, minScaleDistance)
  {
    DivideByLarger(initialDistance, Max(h1, minScaleDistance), Max(h2, minScaleDistance));
  }

  /** Where the held object goes: the camera position plus the hand's
      lateral offset, plus the camera's forward direction times the hand's
      scaled depth offset. */
  function GrabbedPosition(camera: Pose, hand: Vec3, handDistance: real, initialDistance: real,
                           minScaleDistance: real): Vec3
    requires minScaleDistance > 0.0
  {
    var handOffset := Sub(hand, camera.position);
    var lateral := Vec3(handOffset.x, handOffset.y, 0.0);
    var scaledZ := handOffset.z * DepthRatio(initialDistance, handDistance, minScaleDistance);
    Add(Add(camera.position, lateral), Scale(camera.forward, scaledZ))
  }

  /** With the camera looking along +z, x and y follow the hand one to one
      and only the depth offset is scaled. */
  lemma LateralOneToOne(camera: Pose, hand: Vec3, handDistance: real, initialDistance: real,
                        minScaleDistance: real)
    requires minScaleDistance > 0.0 && camera.forward == Vec3(0.0, 0.0, 1.0)
    ensures var p := GrabbedPosition(camera, hand, handDistance, initialDistance, minScaleDistance);
      && p.x == hand.x && p.y == hand.y
      && p.z - camera.position.z
         == (hand.z - camera.position.z) * DepthRatio(initialDistance, handDistance, minScaleDistance)
  {
  }

  /** With the camera looking along +z, a hand exactly as far from the
      camera as the object was when grabbed holds the object at the hand. */
  lemma ObjectAtHandWhenDistancesMatch(camera: Pose, hand: Vec3, distance: real, minScaleDistance: real)
    requires 0.0 < minScaleDistance <= distance && camera.forward == Vec3(0.0, 0.0, 1.0)
    ensures GrabbedPosition(camera, hand, distance, distance, minScaleDistance) == hand
  {
    assert DepthRatio(distance, distance, minScaleDistance) == 1.0;
  }

  class ReverseGoGoGrab {
    /** `null` when the target transform is not assigned. */
    const targetObject: Body?
    /** Auto-release: a hand closer to the head than this drops the object. */
    const minGrabDistance: real
    const minScaleDistance: real
    var initialDistance: real
    var isGrabbing: bool

    ghost predicate Valid()
      reads this
    {
      minScaleDistance > 0.0
    }

    constructor (targetObject: Body?, minGrabDistance: real, minScaleDistance: real)
      requires minScaleDistance > 0.0
      ensures Valid() && !isGrabbing
      ensures this.targetObject == targetObject
      ensures this.minGrabDistance == minGrabDistance && this.minScaleDistance == minScaleDistance
    {
      this.targetObject := targetObject;
      this.minGrabDistance := minGrabDistance;
      this.minScaleDistance := minScaleDistance;
      initialDistance := 0.0;
      isGrabbing := false;
    }

    /** One frame. `camera` is the main camera, `hand` the right hand's
        position (`None` when unassigned). A press starts a grab, a grabbing
        frame moves the object, and a release or a hand nearer than
        `minGrabDistance` ends it, after that frame's move. */
    method Update(camera: Pose, hand: Option<Vec3>, grab: Edges, dist: Distance)
      requires Valid()
      modifies this, Just(targetObject)`position
      ensures Valid()
      ensures hand.None? || targetObject == null ==> unchanged(this) && unchanged(Just(targetObject))
      ensures hand.Some? && targetObject != null ==>
        var handDistance := dist(camera.position, hand.value);
        var starts := !old(isGrabbing) && grab.pressed;
        && initialDistance == (if starts then dist(camera.position, old(targetObject.position))
                                         else old(initialDistance))
        && (old(isGrabbing) || starts ==>
              targetObject.position == GrabbedPosition(camera, hand.value, handDistance,
                                                       initialDistance, minScaleDistance))
        && (!old(isGrabbing) && !starts ==> unchanged(targetObject))
        && (isGrabbing <==> (old(isGrabbing) || starts) && !grab.released && handDistance >= minGrabDistance)
    {
      if hand.None? || targetObject == null {
        return;
      }
      var handDistance := dist(camera.position, hand.value);
      if !isGrabbing && grab.pressed {
        StartGrab(camera, dist);
      }
      if isGrabbing {
        HandleObjectMovement(camera, hand.value, handDistance);
        if grab.released || handDistance < minGrabDistance {
          EndGrab();
        }
      }
    }

    method StartGrab(camera: Pose, dist: Distance)
      requires targetObject != null
      modifies this`initialDistance, this`isGrabbing
      ensures isGrabbing && initialDistance == dist(camera.position, targetObject.position)
    {
      initialDistance := dist(camera.position, targetObject.position);
      isGrabbing := true;
    }

    method HandleObjectMovement(camera: Pose, hand: Vec3, handDistance: real)
      requires Valid() && targetObject != null
      modifies targetObject`position
      ensures targetObject.position
              == GrabbedPosition(camera, hand, handDistance, initialDistance, minScaleDistance)
    {
      var handOffset := Sub(hand, camera.position);
      var lateral := Vec3(handOffset.x, handOffset.y, 0.0);
      var scale := initialDistance / Max(handDistance, minScaleDistance);
      var scaledZ := handOffset.z * scale;
      targetObject.position := Add(Add(camera.position, lateral), Scale(camera.forward, scaledZ));
    }

    /** Only the flag: the object stays where the last move put it. */
    method EndGrab()
      modifies this`isGrabbing
      ensures !isGrabbing
    {
      isGrabbing := false;
    }
  }
}
