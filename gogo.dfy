/** Traditional GoGo (`TraditionalGoGoInteraction`): the virtual hand sits on
    the HMD-to-controller ray, at the real distance inside the threshold and
    quadratically farther beyond it; the hand grabs whatever it touches. */
module GoGo {
  import opened Common
  import opened Scene

  /** Below this real distance the hand is parked in front of the HMD. */
  const NearLimit: real := 0.05
  /** Where the parked hand goes: a literal, not the threshold. */
  const ParkedReach: real := 0.3

  /** The virtual distance for a real distance of at least `NearLimit`:
      1:1 up to the threshold, then `real + k * (real - threshold)^2`
      clamped to `maxExtension`. */
  function VirtualDistance(realDistance: real, threshold: real, k: real, maxExtension: real): (v: real)
    ensures realDistance <= threshold ==> v == realDistance
    ensures realDistance > threshold ==> v <= maxExtension
    ensures realDistance > threshold && k >= 0.0 && realDistance <= maxExtension ==> v >= realDistance
  {
    if realDistance <= threshold then
      realDistance
    else
      Min(realDistance + Amplification(realDistance - threshold, k), maxExtension)
  }

  /** The quadratic term `k * beyond^2`. */
  function Amplification(beyond: real, k: real): (a: real)
    ensures k >= 0.0 ==> a >= 0.0
  {
    assert k >= 0.0 ==> k * (beyond * beyond) >= 0.0 by {
      if k >= 0.0 { MulMonotone(0.0, k, beyond * beyond); }
    }
    k * (beyond * beyond)
  }

  /** `CalculateVirtualHandPosition`, given the real HMD-to-controller
      distance the host measured. */
  function VirtualHandPosition(hmd: Pose, controller: Vec3, realDistance: real,
                               threshold: real, k: real, maxExtension: real): Vec3
  {
    if realDistance < NearLimit then
      Add(hmd.position, Scale(hmd.forward, ParkedReach))
    else
      var direction := Scale(Sub(controller, hmd.position), 1.0 / realDistance);
      Add(hmd.position, Scale(direction, VirtualDistance(realDistance, threshold, k, maxExtension)))
  }

  /** Amplification is non-decreasing in the real distance, as long as the
      clamp is not below the threshold. */
  lemma VirtualDistanceMonotone(r1: real, r2: real, threshold: real, k: real, maxExtension: real)
    requires r1 <= r2 && k >= 0.0 && maxExtension >= threshold
    ensures VirtualDistance(r1, threshold, k, maxExtension) <= VirtualDistance(r2, threshold, k, maxExtension)
  {
    if r1 > threshold {
      AmplificationMonotone(r1 - threshold, r2 - threshold, k);
      MinMonotone(r1 + Amplification(r1 - threshold, k), r2 + Amplification(r2 - threshold, k), maxExtension);
    } else if r2 > threshold {
      MinMonotone(r1, r2 + Amplification(r2 - threshold, k), maxExtension);
    }
  }

  lemma AmplificationMonotone(b1: real, b2: real, k: real)
    requires 0.0 <= b1 <= b2 && k >= 0.0
    ensures Amplification(b1, k) <= Amplification(b2, k)
  {
    MulMonotone(b1, b2, b1);
    MulMonotone(b1, b2, b2);
    assert b2 * b1 == b1 * b2;
    MulMonotone(b1 * b1, b2 * b2, k);
    assert (b1 * b1) * k == k * (b1 * b1) && (b2 * b2) * k == k * (b2 * b2);
  }

  lemma MinMonotone(x: real, y: real, m: real)
    requires x <= y
    ensures Min(x, m) <= Min(y, m)
  {
  }

  /** The clamp can make the virtual hand nearer than the real one: the
      "never attenuates" promise fails once the real distance exceeds
      `maxExtension`. */
  lemma ClampAttenuates()
    ensures VirtualDistance(12.0, 0.3, 20.0, 10.0) == 10.0 < 12.0
  {
  }

  /** Inside the threshold the virtual hand is exactly on the controller;
      nearer than `NearLimit` it is parked 0.3 in front of the HMD. */
  lemma VirtualHandInsideThreshold(hmd: Pose, controller: Vec3, realDistance: real,
                                   threshold: real, k: real, maxExtension: real)
    ensures realDistance < NearLimit ==>
      VirtualHandPosition(hmd, controller, realDistance, threshold, k, maxExtension)
        == Add(hmd.position, Scale(hmd.forward, 0.3))
    ensures NearLimit <= realDistance <= threshold ==>
      VirtualHandPosition(hmd, controller, realDistance, threshold, k, maxExtension) == controller
  {
    if NearLimit <= realDistance <= threshold {
      var v := Sub(controller, hmd.position);
      var r := realDistance;
      assert v.x * (1.0 / r) * r == v.x;
      assert v.y * (1.0 / r) * r == v.y;
      assert v.z * (1.0 / r) * r == v.z;
    }
  }

  /** Beyond the threshold the virtual hand is on the HMD-to-controller ray,
      `VirtualDistance / realDistance` times as far out as the controller. */
  lemma VirtualHandOnRay(hmd: Pose, controller: Vec3, realDistance: real,
                         threshold: real, k: real, maxExtension: real)
    requires realDistance >= NearLimit
    ensures var ratio := VirtualDistance(realDistance, threshold, k, maxExtension) / realDistance;
      Sub(VirtualHandPosition(hmd, controller, realDistance, threshold, k, maxExtension), hmd.position)
        == Scale(Sub(controller, hmd.position), ratio)
  {
    var v := Sub(controller, hmd.position);
    var r := realDistance;
    var d := VirtualDistance(realDistance, threshold, k, maxExtension);
    assert v.x * (1.0 / r) * d == v.x * (d / r);
    assert v.y * (1.0 / r) * d == v.y * (d / r);
    assert v.z * (1.0 / r) * d == v.z * (d / r);
  }

  class TraditionalGoGoInteraction {
    const threshold: real
    const scalingFactor: real
    const maxExtension: real
    const selectableLayers: bv32
    /** Whether the `virtualHand` transform is assigned. */
    const hasVirtualHand: bool
    /** `MonoBehaviour.enabled`: the engine calls `Update` only while true. */
    var enabled: bool
    var virtualHandPosition: Vec3
    var currentlyGrabbedObject: Body?
    var touchingObject: Body?
    var isGrabbing: bool
    var grabOffset: Vec3

    ghost predicate Valid()
      reads this
    {
      isGrabbing <==> currentlyGrabbedObject != null
    }

    constructor (threshold: real, scalingFactor: real, maxExtension: real,
                 selectableLayers: bv32, hasVirtualHand: bool)
      ensures Valid()
      ensures this.threshold == threshold && this.scalingFactor == scalingFactor
      ensures this.maxExtension == maxExtension && this.selectableLayers == selectableLayers
      ensures this.hasVirtualHand == hasVirtualHand && enabled
      ensures !isGrabbing && touchingObject == null && currentlyGrabbedObject == null
    {
      this.threshold := threshold;
      this.scalingFactor := scalingFactor;
      this.maxExtension := maxExtension;
      this.selectableLayers := selectableLayers;
      this.hasVirtualHand := hasVirtualHand;
      enabled := true;
      virtualHandPosition := Zero;
      currentlyGrabbedObject := null;
      touchingObject := null;
      isGrabbing := false;
      grabOffset := Zero;
    }

    /** The accessors: grabbing exactly while an object is held. */
    function IsGrabbing(): (b: bool)
      reads this
      requires Valid()
      ensures b <==> GetCurrentObject() != null
    {
      isGrabbing
    }

    function GetCurrentObject(): Body?
      reads this
    {
      currentlyGrabbedObject
    }

    function GetTouchingObject(): Body?
      reads this
    {
      touchingObject
    }

    /** Bit `1 << layer` of the layer mask (C# takes the shift count mod 32). */
    predicate Selectable(obj: Body)
    {
      ((1 as bv32) << (obj.layer % 32)) & selectableLayers != 0
    }

    /** The collision detector reports that the virtual hand touches `obj`. */
    method OnVirtualHandTouchObject(obj: Body)
      modifies this`touchingObject
      ensures touchingObject == if Selectable(obj) then obj else old(touchingObject)
    {
      if ((1 as bv32) << (obj.layer % 32)) & selectableLayers != 0 {
        touchingObject := obj;
      }
    }

    /** The collision detector reports that the virtual hand left `obj`;
        only the touched object itself clears the touch. */
    method OnVirtualHandLeaveObject(obj: Body)
      modifies this`touchingObject
      ensures touchingObject == if obj == old(touchingObject) then null else old(touchingObject)
    {
      if obj == touchingObject {
        touchingObject := null;
      }
    }

    /** Captures the offset from the virtual hand and suspends gravity on a
        dynamic body. */
    method GrabObject(obj: Body, handPosition: Vec3)
      modifies this`currentlyGrabbedObject, this`isGrabbing, this`grabOffset
      modifies obj`useGravity, obj`velocity, obj`angularVelocity
      ensures currentlyGrabbedObject == obj && isGrabbing
      ensures grabOffset == Sub(obj.position, handPosition)
      ensures Add(handPosition, grabOffset) == obj.position
      ensures obj.IsDynamic() ==> !obj.useGravity && obj.velocity == Zero && obj.angularVelocity == Zero
      ensures !obj.IsDynamic() ==> unchanged(obj)
    {
      currentlyGrabbedObject := obj;
      isGrabbing := true;
      grabOffset := Sub(obj.position, handPosition);
      if obj.IsDynamic() {
        obj.useGravity := false;
        obj.velocity := Zero;
        obj.angularVelocity := Zero;
      }
    }

    /** Drives the held object toward `handPosition + grabOffset`: by
        velocity for a dynamic body, by position otherwise. */
    method MoveGrabbedObject(handPosition: Vec3, dt: real)
      requires dt > 0.0
      modifies Just(currentlyGrabbedObject)`position, Just(currentlyGrabbedObject)`velocity
      modifies Just(currentlyGrabbedObject)`freezeRotation
      ensures currentlyGrabbedObject != null ==>
        var o := currentlyGrabbedObject;
        var target := Add(handPosition, grabOffset);
        if o.IsDynamic() then
          && o.velocity == Scale(Sub(target, o.position), 1.0 / dt)
          && o.freezeRotation && o.position == old(o.position)
        else
          o.position == target && o.velocity == old(o.velocity) && o.freezeRotation == old(o.freezeRotation)
    {
      if currentlyGrabbedObject == null {
        return;
      }
      var target := Add(handPosition, grabOffset);
      if currentlyGrabbedObject.IsDynamic() {
        var positionDiff := Sub(target, currentlyGrabbedObject.position);
        currentlyGrabbedObject.velocity := Scale(positionDiff, 1.0 / dt);
        currentlyGrabbedObject.freezeRotation := true;
      } else {
        currentlyGrabbedObject.position := target;
      }
    }

    /** Lets go of the held object, giving a dynamic body its gravity back
        at rest; the touched object is not affected. */
    method ReleaseObject()
      modifies this`currentlyGrabbedObject, this`isGrabbing
      modifies Just(currentlyGrabbedObject)`useGravity, Just(currentlyGrabbedObject)`velocity
      modifies Just(currentlyGrabbedObject)`angularVelocity, Just(currentlyGrabbedObject)`freezeRotation
      ensures Valid() && !isGrabbing && currentlyGrabbedObject == null
      ensures old(currentlyGrabbedObject) != null && old(currentlyGrabbedObject).IsDynamic() ==>
        var o := old(currentlyGrabbedObject);
        o.useGravity && o.velocity == Zero && o.angularVelocity == Zero && !o.freezeRotation
      ensures old(currentlyGrabbedObject) != null && !old(currentlyGrabbedObject).IsDynamic() ==>
        unchanged(old(currentlyGrabbedObject))
    {
      if currentlyGrabbedObject != null {
        if currentlyGrabbedObject.IsDynamic() {
          currentlyGrabbedObject.useGravity := true;
          currentlyGrabbedObject.velocity := Zero;
          currentlyGrabbedObject.angularVelocity := Zero;
          currentlyGrabbedObject.freezeRotation := false;
        }
        currentlyGrabbedObject := null;
      }
      isGrabbing := false;
    }

    /** One frame: place the virtual hand, then grab on a press edge, then
        release on a release edge, then move whatever is still held.
        `hmd` and `controller` are `None` where the reference is missing;
        `dist` measures the real HMD-to-controller distance. */
    method Update(hmd: Option<Pose>, controller: Option<Vec3>, dist: Distance, grip: Edges, dt: real)
      requires Valid() && dt > 0.0
      modifies this, Just(touchingObject), Just(currentlyGrabbedObject)
      ensures Valid()
      ensures !hasVirtualHand || hmd.None? || controller.None? ==>
        unchanged(this) && unchanged(Just(old(touchingObject))) && unchanged(Just(old(currentlyGrabbedObject)))
      ensures touchingObject == old(touchingObject)
      ensures hasVirtualHand && hmd.Some? && controller.Some? ==>
        var started := !old(isGrabbing) && grip.pressed && old(touchingObject) != null;
        var holding := old(isGrabbing) || started;
        && virtualHandPosition == VirtualHandPosition(hmd.value, controller.value,
                                                      dist(hmd.value.position, controller.value),
                                                      threshold, scalingFactor, maxExtension)
        && isGrabbing == (holding && !grip.released)
        && currentlyGrabbedObject == (if !isGrabbing then null
                                      else if started then old(touchingObject)
                                      else old(currentlyGrabbedObject))
        && grabOffset == (if started then Sub(old(touchingObject.position), virtualHandPosition)
                          else old(grabOffset))
      // the frame a grab starts, the object is driven to where it already is
      ensures hasVirtualHand && hmd.Some? && controller.Some? &&
              !old(isGrabbing) && grip.pressed && old(touchingObject) != null && !grip.released ==>
        var o := old(touchingObject);
        o.position == old(o.position) && (o.IsDynamic() ==> o.velocity == Zero && !o.useGravity)
      // while the grip stays down the held object is driven to the hand plus the offset
      ensures hasVirtualHand && hmd.Some? && controller.Some? && old(isGrabbing) && !grip.released ==>
        var o := currentlyGrabbedObject;
        var target := Add(virtualHandPosition, grabOffset);
        if o.IsDynamic() then
          && o.velocity == Scale(Sub(target, old(o.position)), 1.0 / dt)
          && o.freezeRotation && o.position == old(o.position)
        else
          o.position == target
      // a release gives a dynamic body its gravity back, at rest and free to rotate
      ensures hasVirtualHand && hmd.Some? && controller.Some? && old(isGrabbing) && grip.released ==>
        var o := old(currentlyGrabbedObject);
        o.IsDynamic() ==> o.useGravity && o.velocity == Zero && o.angularVelocity == Zero && !o.freezeRotation
      // a press while already grabbing does not grab again
      ensures old(isGrabbing) && !grip.released ==>
        isGrabbing && currentlyGrabbedObject == old(currentlyGrabbedObject) && grabOffset == old(grabOffset)
    {
      if !hasVirtualHand || hmd.None? || controller.None? {
        return;
      }
      var realDistance := dist(hmd.value.position, controller.value);
      var handPosition := VirtualHandPosition(hmd.value, controller.value, realDistance,
                                              threshold, scalingFactor, maxExtension);
      virtualHandPosition := handPosition;
      if !isGrabbing && grip.pressed {
        if touchingObject != null {
          GrabObject(touchingObject, handPosition);
        }
      }
      if isGrabbing && grip.released {
        ReleaseObject();
      }
      if isGrabbing && currentlyGrabbedObject != null {
        MoveGrabbedObject(handPosition, dt);
      }
    }
  }
}
