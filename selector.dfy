/** The ray selector (`RaycastObjectSelector`): while the controller is
    beyond the threshold and nothing is grabbed, the object the ray hits
    becomes the target and wears the highlight material; at most one object
    wears it, and the selection freezes while an object is grabbed. */
module Selection {
  import opened Common
  import opened Scene
  import DepthScaling

  class RaycastObjectSelector {
    /** `null` when no depth scaler is assigned: the ray then never shows. */
    const depthScale: DepthScaling.HandCalibrationDepthScale?
    const highlightMaterial: Option<Material>
    var currentTarget: Body?
    /** The object currently wearing the highlight. */
    var previousTarget: Body?
    /** What `previousTarget` wore before the highlight. */
    var originalMaterial: Option<Material>
    var isGrabbed: bool

    /** The saved material is present exactly while an object wears the
        highlight, and that object does wear it. */
    ghost predicate Valid()
      reads this, Just(previousTarget)`material
    {
      && (previousTarget == null ==> originalMaterial.None?)
      && (previousTarget != null ==>
            && previousTarget.hasRenderer && originalMaterial.Some? && highlightMaterial.Some?
            && previousTarget.material == highlightMaterial.value)
    }

    constructor (depthScale: DepthScaling.HandCalibrationDepthScale?, highlightMaterial: Option<Material>)
      ensures Valid()
      ensures this.depthScale == depthScale && this.highlightMaterial == highlightMaterial
      ensures currentTarget == null && previousTarget == null && !isGrabbed
    {
      this.depthScale := depthScale;
      this.highlightMaterial := highlightMaterial;
      currentTarget := null;
      previousTarget := null;
      originalMaterial := None;
      isGrabbed := false;
    }

    function GetCurrentTarget(): (t: Body?)
      reads this
      ensures t == currentTarget
    {
      currentTarget
    }

    /** Gives the highlighted object its saved material back. A second call
        finds nothing highlighted and changes nothing. */
    method ClearHighlight()
      requires Valid()
      modifies this`previousTarget, this`originalMaterial, Just(previousTarget)`material
      ensures Valid() && previousTarget == null && originalMaterial.None?
      ensures old(previousTarget) != null ==>
        old(previousTarget).material == old(originalMaterial).value
      ensures old(previousTarget) == null ==> unchanged(this)
    {
      if previousTarget != null {
        if previousTarget.hasRenderer && originalMaterial.Some? {
          previousTarget.material := originalMaterial.value;
        }
        previousTarget := null;
        originalMaterial := None;
      }
    }

    /** Highlights `target`: nothing happens when it already wears the
        highlight or there is no highlight material; otherwise the old
        highlight is removed first. */
    method ApplyHighlight(target: Body)
      requires Valid()
      modifies this`previousTarget, this`originalMaterial, Just(previousTarget)`material, target`material
      ensures Valid()
      ensures target == old(previousTarget) || highlightMaterial.None? ==>
        unchanged(this) && unchanged(target) && unchanged(Just(old(previousTarget)))
      ensures target != old(previousTarget) && highlightMaterial.Some? ==>
        && (old(previousTarget) != null && old(previousTarget) != target ==>
              old(previousTarget).material == old(originalMaterial).value)
        && (target.hasRenderer ==>
              && previousTarget == target
              && originalMaterial == Some(old(target.material))
              && target.material == highlightMaterial.value)
        && (!target.hasRenderer ==> previousTarget == null && originalMaterial.None?)
    {
      if target == previousTarget || highlightMaterial.None? {
        return;
      }
      ClearHighlight();
      if target.hasRenderer {
        originalMaterial := Some(target.material);
        target.material := highlightMaterial.value;
        previousTarget := target;
      }
    }

    /** Freezes or unfreezes the selection; grabbing also drops the
        highlight. */
    method SetGrabbedState(grabbed: bool)
      requires Valid()
      modifies this`isGrabbed, this`previousTarget, this`originalMaterial, Just(previousTarget)`material
      ensures Valid() && isGrabbed == grabbed
      ensures grabbed ==> previousTarget == null && originalMaterial.None?
      ensures grabbed && old(previousTarget) != null ==>
        old(previousTarget).material == old(originalMaterial).value
      ensures !grabbed ==> previousTarget == old(previousTarget) && originalMaterial == old(originalMaterial)
      ensures !grabbed ==> unchanged(Just(old(previousTarget)))
    {
      isGrabbed := grabbed;
      if grabbed {
        ClearHighlight();
      }
    }

    /** Disabling the component drops the highlight. */
    method OnDisable()
      requires Valid()
      modifies this`previousTarget, this`originalMaterial, Just(previousTarget)`material
      ensures Valid() && previousTarget == null
      ensures old(previousTarget) != null ==> old(previousTarget).material == old(originalMaterial).value
    {
      ClearHighlight();
    }

    /** One frame. `hit` is the first selectable object `Physics.Raycast`
        finds within `rayLength`, `null` on a miss. */
    method Update(hit: Body?)
      requires Valid()
      modifies this`currentTarget, this`previousTarget, this`originalMaterial
      modifies Just(previousTarget)`material, Just(hit)`material
      ensures Valid() && isGrabbed == old(isGrabbed)
      ensures old(isGrabbed) ==> unchanged(this) && unchanged(Just(old(previousTarget))) && unchanged(Just(hit))
      ensures !old(isGrabbed) ==>
        var beyond := depthScale != null && depthScale.isControllerBeyondThreshold;
        && currentTarget == (if beyond then hit else null)
        && (currentTarget == null ==> previousTarget == null)
        && (currentTarget != null && currentTarget.hasRenderer && highlightMaterial.Some? ==>
              previousTarget == currentTarget && currentTarget.material == highlightMaterial.value)
        && (old(previousTarget) != null && old(previousTarget) != currentTarget ==>
              old(previousTarget).material == old(originalMaterial).value)
      ensures !old(isGrabbed) && hit != null && hit == old(previousTarget) && depthScale != null &&
              depthScale.isControllerBeyondThreshold ==>
        previousTarget == old(previousTarget) && originalMaterial == old(originalMaterial) && unchanged(hit)
    {
      var isBeyondThreshold := depthScale != null && depthScale.isControllerBeyondThreshold;
      if isGrabbed || !isBeyondThreshold {
        if !isGrabbed {
          ClearHighlight();
          currentTarget := null;
        }
        return;
      }
      if hit != null {
        currentTarget := hit;
        ApplyHighlight(currentTarget);
      } else {
        ClearHighlight();
        currentTarget := null;
      }
    }
  }
}
