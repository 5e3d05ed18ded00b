/** ReverseGoGo (`VirtualHandAttach`): two mutually exclusive ways of holding
    the object the ray selector has picked. The trigger attaches it (it
    follows the controller's translation 1:1); the grip pulls it toward the
    controller as the controller retracts, and the pull turns into an attach
    once the object is within 0.15 of the controller. */
module ReverseGoGo {
  import opened Common
  import opened Scene
  import DepthScaling
  import Selection

  /** A pulled object this close to the controller becomes attached. */
  const AttachDistance: real := 0.15
  /** The pull's speed multiplier never drops below this. */
  const MinSpeedFactor: real := 0.1

  /** `Mathf.Clamp01(num / den)`. A zero denominator gives an infinite
      quotient, clamped to 1 for a positive numerator and to 0 for a
      negative one. The source's 0/0 is NaN, which `Clamp01` passes
      through; the model gives 0 there instead. */
  function ClampedRatio(num: real, den: real): (r: real)
    ensures 0.0 <= r <= 1.0
    ensures den > 0.0 && 0.0 <= num <= den ==> r == num / den
    ensures den > 0.0 && num >= den ==> r == 1.0
    ensures den < 0.0 && num > 0.0 ==> r == 0.0
  {
    if den == 0.0 then
      (if num > 0.0 then 1.0 else 0.0)
    else
      Clamp01(num / den)
  }

  /** Where remote pull drives the object: from its start position toward
      the controller, by the retraction progress raised to `power`. */
  function PullTarget(cubeStart: Vec3, controller: Vec3, retraction: real, maxPull: real, power: nat): Vec3 {
    Lerp(cubeStart, controller, Pow(ClampedRatio(retraction, maxPull), power))
  }

  /** The speed multiplier of a pull: `root` is the host's
      `Pow(normalizedDistance, 1 / power)`, scaled and floored at 0.1. */
  function SpeedFactor(root: real, maxScalingFactor: real): (s: real)
    ensures s >= MinSpeedFactor
    ensures root * maxScalingFactor >= MinSpeedFactor ==> s == root * maxScalingFactor
  {
    Max(MinSpeedFactor, root * maxScalingFactor)
  }

  /** The pull range is the distance beyond the threshold of THIS frame:
      once the controller has retracted past the range still left, the
      target is the controller itself; once it is inside the threshold the
      range is negative and the target jumps back to the start position. */
  lemma PullTargetEnds(cubeStart: Vec3, controller: Vec3, retraction: real, maxPull: real, power: nat)
    requires power >= 1
    ensures maxPull > 0.0 && retraction >= maxPull ==>
      PullTarget(cubeStart, controller, retraction, maxPull, power) == controller
    ensures maxPull < 0.0 && retraction > 0.0 ==>
      PullTarget(cubeStart, controller, retraction, maxPull, power) == cubeStart
  {
    if maxPull > 0.0 && retraction >= maxPull {
      PowOne(power);
    } else if maxPull < 0.0 && retraction > 0.0 {
      PowZero(power);
    }
  }

  /** The pull target lies on the segment from the start position to the
      controller: `start + t * (controller - start)` with `t` in [0, 1]. */
  lemma PullTargetOnSegment(cubeStart: Vec3, controller: Vec3, retraction: real, maxPull: real, power: nat)
    ensures exists t: real {:trigger Scale(Sub(controller, cubeStart), t)} ::
              && 0.0 <= t <= 1.0
              && PullTarget(cubeStart, controller, retraction, maxPull, power)
                 == Add(cubeStart, Scale(Sub(controller, cubeStart), t))
  {
    var t := Pow(ClampedRatio(retraction, maxPull), power);
    PowUnitInterval(ClampedRatio(retraction, maxPull), power);
    assert Clamp01(t) == t;
    assert PullTarget(cubeStart, controller, retraction, maxPull, power) == Add(cubeStart, Scale(Sub(controller, cubeStart), t));
  }

  lemma {:induction false} PowOne(n: nat)
    ensures Pow(1.0, n) == 1.0
  {
    if n > 0 {
      PowOne(n - 1);
    }
  }

  lemma PowZero(n: nat)
    requires n >= 1
    ensures Pow(0.0, n) == 0.0
  {
  }

  class VirtualHandAttach {
    /** Whether the `virtualHand` transform is assigned. */
    const hasVirtualHand: bool
    const selector: Selection.RaycastObjectSelector?
    const depthScale: DepthScaling.HandCalibrationDepthScale?
    /** `MonoBehaviour.enabled`: the engine calls `Update` only while true. */
    var enabled: bool
    var isAttached: bool
    var isRemotePulling: bool
    var currentlyGrabbedObject: Body?
    var controllerStartPos: Vec3
    var cubeStartPos: Vec3
    var controllerPullStartPos: Vec3
    var initialDistanceToController: real

    /** At most one grab mode, and an object is held exactly while one is on. */
    ghost predicate Valid()
      reads this
    {
      && !(isAttached && isRemotePulling)
      && ((isAttached || isRemotePulling) <==> currentlyGrabbedObject != null)
    }

    /** The selector is consistent and locked exactly while an object is held. */
    ghost predicate SelectorLocked()
      reads this, selector, if selector == null then {} else Just(selector.previousTarget)`material
    {
      selector != null ==> selector.Valid() && selector.isGrabbed == (currentlyGrabbedObject != null)
    }

    constructor (hasVirtualHand: bool, selector: Selection.RaycastObjectSelector?,
                 depthScale: DepthScaling.HandCalibrationDepthScale?)
      ensures Valid() && enabled
      ensures this.hasVirtualHand == hasVirtualHand
      ensures this.selector == selector && this.depthScale == depthScale
      ensures !isAttached && !isRemotePulling && currentlyGrabbedObject == null
    {
      this.hasVirtualHand := hasVirtualHand;
      this.selector := selector;
      this.depthScale := depthScale;
      enabled := true;
      isAttached := false;
      isRemotePulling := false;
      currentlyGrabbedObject := null;
      controllerStartPos := Zero;
      cubeStartPos := Zero;
      controllerPullStartPos := Zero;
      initialDistanceToController := 0.0;
    }

    /** The accessors: an object is held exactly while one mode is on. */
    function IsAttached(): (b: bool)
      reads this
      requires Valid()
      ensures b ==> GetCurrentObject() != null && !IsRemotePulling()
    {
      isAttached
    }

    function IsRemotePulling(): (b: bool)
      reads this
      requires Valid()
      ensures b ==> GetCurrentObject() != null
    {
      isRemotePulling
    }

    function GetCurrentObject(): (o: Body?)
      reads this
      requires Valid()
      ensures o != null <==> isAttached || isRemotePulling
    {
      currentlyGrabbedObject
    }

    function GetSelector(): Selection.RaycastObjectSelector? {
      selector
    }

    /** Trigger grab: remember where the controller and the object start and
        lock the selection. */
    method AttachHand(objectToGrab: Body, controller: Vec3)
      requires selector != null && selector.Valid()
      modifies this`currentlyGrabbedObject, this`isAttached, this`controllerStartPos, this`cubeStartPos
      modifies selector`isGrabbed, selector`previousTarget, selector`originalMaterial
      modifies Just(selector.previousTarget)`material
      ensures currentlyGrabbedObject == objectToGrab && isAttached
      ensures controllerStartPos == controller && cubeStartPos == objectToGrab.position
      ensures selector.Valid() && selector.isGrabbed && selector.previousTarget == null
    {
      currentlyGrabbedObject := objectToGrab;
      isAttached := true;
      selector.SetGrabbedState(true);
      controllerStartPos := controller;
      cubeStartPos := objectToGrab.position;
    }

    /** Grip grab: remember the controller's start, the object's start and
        their initial distance, and lock the selection. */
    method StartRemotePull(objectToPull: Body, controller: Vec3, dist: Distance)
      requires selector != null && selector.Valid()
      modifies this`currentlyGrabbedObject, this`isRemotePulling, this`controllerPullStartPos
      modifies this`cubeStartPos, this`initialDistanceToController
      modifies selector`isGrabbed, selector`previousTarget, selector`originalMaterial
      modifies Just(selector.previousTarget)`material
      ensures currentlyGrabbedObject == objectToPull && isRemotePulling
      ensures controllerPullStartPos == controller && cubeStartPos == objectToPull.position
      ensures initialDistanceToController == dist(objectToPull.position, controller)
      ensures selector.Valid() && selector.isGrabbed && selector.previousTarget == null
    {
      currentlyGrabbedObject := objectToPull;
      isRemotePulling := true;
      selector.SetGrabbedState(true);
      controllerPullStartPos := controller;
      cubeStartPos := objectToPull.position;
      initialDistanceToController := dist(cubeStartPos, controller);
    }

    /** Ends whichever grab is on: unlocks the selection and stops a dynamic
        body. `ReleaseHand` and `StopRemotePull` differ only in the flag. */
    method ReleaseHeld()
      requires selector != null && selector.Valid()
      modifies this`currentlyGrabbedObject, selector`isGrabbed
      modifies Just(currentlyGrabbedObject)`velocity, Just(currentlyGrabbedObject)`freezeRotation
      ensures currentlyGrabbedObject == null && selector.Valid()
      ensures old(currentlyGrabbedObject) != null ==> !selector.isGrabbed
      ensures old(currentlyGrabbedObject) == null ==> selector.isGrabbed == old(selector.isGrabbed)
      ensures old(currentlyGrabbedObject) != null && old(currentlyGrabbedObject).IsDynamic() ==>
        old(currentlyGrabbedObject).velocity == Zero && !old(currentlyGrabbedObject).freezeRotation
      ensures old(currentlyGrabbedObject) != null && !old(currentlyGrabbedObject).IsDynamic() ==>
        unchanged(old(currentlyGrabbedObject))
    {
      if currentlyGrabbedObject != null {
        selector.isGrabbed := false;
        if currentlyGrabbedObject.IsDynamic() {
          currentlyGrabbedObject.velocity := Zero;
          currentlyGrabbedObject.freezeRotation := false;
        }
        currentlyGrabbedObject := null;
      }
    }

    method ReleaseHand()
      requires selector != null && selector.Valid()
      modifies this`currentlyGrabbedObject, this`isAttached, selector`isGrabbed
      modifies Just(currentlyGrabbedObject)`velocity, Just(currentlyGrabbedObject)`freezeRotation
      ensures !isAttached && currentlyGrabbedObject == null && selector.Valid()
      ensures old(currentlyGrabbedObject) != null ==> !selector.isGrabbed
      ensures old(currentlyGrabbedObject) == null ==> selector.isGrabbed == old(selector.isGrabbed)
      ensures old(currentlyGrabbedObject) != null && old(currentlyGrabbedObject).IsDynamic() ==>
        old(currentlyGrabbedObject).velocity == Zero && !old(currentlyGrabbedObject).freezeRotation
    {
      ReleaseHeld();
      isAttached := false;
    }

    method StopRemotePull()
      requires selector != null && selector.Valid()
      modifies this`currentlyGrabbedObject, this`isRemotePulling, selector`isGrabbed
      modifies Just(currentlyGrabbedObject)`velocity, Just(currentlyGrabbedObject)`freezeRotation
      ensures !isRemotePulling && currentlyGrabbedObject == null && selector.Valid()
      ensures old(currentlyGrabbedObject) != null ==> !selector.isGrabbed
      ensures old(currentlyGrabbedObject) == null ==> selector.isGrabbed == old(selector.isGrabbed)
      ensures old(currentlyGrabbedObject) != null && old(currentlyGrabbedObject).IsDynamic() ==>
        old(currentlyGrabbedObject).velocity == Zero && !old(currentlyGrabbedObject).freezeRotation
    {
      ReleaseHeld();
      isRemotePulling := false;
    }

    /** Attach mode: the object follows the controller's translation since
        the grab started. */
    method ApplyHandAttachmentMovement(controller: Vec3, dt: real)
      requires currentlyGrabbedObject != null && dt > 0.0
      modifies currentlyGrabbedObject`position, currentlyGrabbedObject`velocity
      modifies currentlyGrabbedObject`freezeRotation
      ensures var o := currentlyGrabbedObject;
        var target := Add(cubeStartPos, Sub(controller, controllerStartPos));
        if o.IsDynamic() then
          && o.velocity == Scale(Sub(target, old(o.position)), 1.0 / dt)
          && o.freezeRotation && o.position == old(o.position)
        else
          o.position == target && unchanged(o`velocity, o`freezeRotation)
    {
      var target := Add(cubeStartPos, Sub(controller, controllerStartPos));
      if currentlyGrabbedObject.IsDynamic() {
        var positionDiff := Sub(target, currentlyGrabbedObject.position);
        currentlyGrabbedObject.velocity := Scale(positionDiff, 1.0 / dt);
        currentlyGrabbedObject.freezeRotation := true;
      } else {
        currentlyGrabbedObject.position := target;
      }
    }

    /** Remote-pull mode: move toward `PullTarget` (velocity scaled by the
        speed factor for a dynamic body), then switch to attach mode when
        the object was within `AttachDistance` of the controller, anchoring
        both start positions afresh. Does nothing without a depth scaler.
        `root` is the host's `x -> Pow(x, 1 / exponentialPower)`. */
    method ApplyRemotePullMovement(controller: Vec3, dt: real, dist: Distance, root: real -> real)
      requires Valid() && isRemotePulling && dt > 0.0
      modifies this`isRemotePulling, this`isAttached, this`controllerStartPos, this`cubeStartPos
      modifies currentlyGrabbedObject`position, currentlyGrabbedObject`velocity
      modifies currentlyGrabbedObject`freezeRotation
      ensures Valid() && currentlyGrabbedObject == old(currentlyGrabbedObject)
      ensures depthScale == null ==> unchanged(this) && unchanged(currentlyGrabbedObject)
      ensures depthScale != null ==>
        var o := currentlyGrabbedObject;
        var before := old(o.position);
        var target := PullTarget(old(cubeStartPos), controller, dist(controllerPullStartPos, controller),
                                 depthScale.currentDistanceBeyondThreshold, depthScale.exponentialPower);
        var near := dist(before, controller) < AttachDistance;
        && (if o.IsDynamic() then
              var speed := SpeedFactor(root(ClampedRatio(dist(before, controller), initialDistanceToController)),
                                       depthScale.maxScalingFactor);
              && o.velocity == Scale(Scale(Sub(target, before), 1.0 / dt), speed)
              && o.freezeRotation && o.position == before
            else
              o.position == target && unchanged(o`velocity, o`freezeRotation))
        && (near ==> isAttached && !isRemotePulling && controllerStartPos == controller
                     && cubeStartPos == o.position)
        && (!near ==> isRemotePulling && !isAttached && controllerStartPos == old(controllerStartPos)
                      && cubeStartPos == old(cubeStartPos))
    {
      if depthScale == null {
        return;
      }
      var controllerRetractionDistance := dist(controllerPullStartPos, controller);
      var maxPullDistance := depthScale.currentDistanceBeyondThreshold;
      var retractionProgress := ClampedRatio(controllerRetractionDistance, maxPullDistance);
      var currentDistanceToController := dist(currentlyGrabbedObject.position, controller);
      var normalizedDistance := ClampedRatio(currentDistanceToController, initialDistanceToController);
      var distanceSpeedFactor := SpeedFactor(root(normalizedDistance), depthScale.maxScalingFactor);
      var exponentialProgress := Pow(retractionProgress, depthScale.exponentialPower);
      var targetPos := Lerp(cubeStartPos, controller, exponentialProgress);
      if currentlyGrabbedObject.IsDynamic() {
        var positionDiff := Sub(targetPos, currentlyGrabbedObject.position);
        currentlyGrabbedObject.velocity := Scale(Scale(positionDiff, 1.0 / dt), distanceSpeedFactor);
        currentlyGrabbedObject.freezeRotation := true;
      } else {
        currentlyGrabbedObject.position := targetPos;
      }
      if currentDistanceToController < AttachDistance {
        isRemotePulling := false;
        isAttached := true;
        controllerStartPos := controller;
        cubeStartPos := currentlyGrabbedObject.position;
      }
    }

    /** One frame: trigger press (attach), trigger release, grip press
        (pull), grip release, then the movement of the mode that is on.
        A grab only starts from idle, on a press edge, with a target. */
    method Update(trigger: Edges, grip: Edges, controller: Vec3, dt: real, dist: Distance, root: real -> real)
      requires Valid() && SelectorLocked() && dt > 0.0
      modifies this
      modifies if selector == null then {} else {selector}
      modifies if selector == null then {} else Just(selector.previousTarget)`material
      modifies if selector == null then {} else Just(selector.currentTarget)
      modifies Just(currentlyGrabbedObject)
      ensures Valid() && SelectorLocked()
      ensures !hasVirtualHand || selector == null ==> unchanged(this)
      // a grab starts only from idle, on a press edge, with the selector's target
      ensures !old(isAttached) && !old(isRemotePulling) && currentlyGrabbedObject != null ==>
        && (trigger.pressed || grip.pressed)
        && selector != null && currentlyGrabbedObject == old(selector.currentTarget)
      // attach mode ends only on a trigger release, never by turning into a pull
      ensures old(isAttached) && !trigger.released ==>
        isAttached && !isRemotePulling && currentlyGrabbedObject == old(currentlyGrabbedObject)
      // a trigger release ends attach mode (a grip press may then start a pull)
      ensures old(isAttached) && trigger.released && !grip.pressed && hasVirtualHand && selector != null ==>
        currentlyGrabbedObject == null && !isAttached && !isRemotePulling
      // a pull keeps its object until a grip release (possibly turning into attach mode)
      ensures old(isRemotePulling) && !grip.released ==>
        (isRemotePulling || isAttached) && currentlyGrabbedObject == old(currentlyGrabbedObject)
      // a grip release ends a pull that is on at that point
      ensures old(isRemotePulling) && grip.released && hasVirtualHand && selector != null ==>
        !isRemotePulling && !isAttached && currentlyGrabbedObject == null
      // a trigger press from idle attaches the selector's target, anchored at this frame
      ensures && hasVirtualHand && selector != null && !old(isAttached) && !old(isRemotePulling)
              && trigger.pressed && !trigger.released && old(selector.currentTarget) != null ==>
        && isAttached && !isRemotePulling && currentlyGrabbedObject == old(selector.currentTarget)
        && controllerStartPos == controller && cubeStartPos == old(selector.currentTarget.position)
      // a grip press from idle pulls the selector's target (attached at once if it is already near)
      ensures && hasVirtualHand && selector != null && !old(isAttached) && !old(isRemotePulling)
              && !trigger.pressed && grip.pressed && !grip.released && old(selector.currentTarget) != null ==>
        && (isRemotePulling || isAttached) && currentlyGrabbedObject == old(selector.currentTarget)
        && controllerPullStartPos == controller
        && initialDistanceToController == dist(old(selector.currentTarget.position), controller)
      // attach mode drives the object to the start position translated by the controller's movement
      ensures old(isAttached) && !trigger.released && hasVirtualHand && selector != null ==>
        var o := currentlyGrabbedObject;
        var target := Add(cubeStartPos, Sub(controller, controllerStartPos));
        if o.IsDynamic() then
          && o.velocity == Scale(Sub(target, old(o.position)), 1.0 / dt)
          && o.freezeRotation && o.position == old(o.position)
        else
          o.position == target
      // a pull frame moves the object toward `PullTarget` and attaches it once it was near
      ensures old(isRemotePulling) && !grip.released && hasVirtualHand && selector != null && depthScale != null ==>
        var o := currentlyGrabbedObject;
        var before := old(o.position);
        var target := PullTarget(old(cubeStartPos), controller, dist(controllerPullStartPos, controller),
                                 depthScale.currentDistanceBeyondThreshold, depthScale.exponentialPower);
        var near := dist(before, controller) < AttachDistance;
        && (if o.IsDynamic() then
              var speed := SpeedFactor(root(ClampedRatio(dist(before, controller), initialDistanceToController)),
                                       depthScale.maxScalingFactor);
              && o.velocity == Scale(Scale(Sub(target, before), 1.0 / dt), speed)
              && o.freezeRotation && o.position == before
            else
              o.position == target)
        && (near ==> isAttached && controllerStartPos == controller && cubeStartPos == o.position)
        && (!near ==> isRemotePulling && cubeStartPos == old(cubeStartPos))
    {
      if !hasVirtualHand || selector == null {
        return;
      }
      if trigger.pressed && !isAttached && !isRemotePulling {
        var selected := selector.currentTarget;
        if selected != null {
          AttachHand(selected, controller);
        }
      }
      if isAttached && trigger.released {
        ReleaseHand();
      }
      if grip.pressed && !isRemotePulling && !isAttached {
        var selected := selector.currentTarget;
        if selected != null {
          StartRemotePull(selected, controller, dist);
          if depthScale == null {
            // the start-of-pull log line dereferences the missing depth
            // scaler; the exception ends this frame's Update here
            return;
          }
        }
      }
      if isRemotePulling && grip.released {
        StopRemotePull();
      }
      if isAttached && currentlyGrabbedObject != null {
        ApplyHandAttachmentMovement(controller, dt);
      }
      if isRemotePulling && currentlyGrabbedObject != null {
        ApplyRemotePullMovement(controller, dt, dist, root);
      }
    }
  }
}
