/** The depth scaler (`HandCalibrationDepthScale`): every frame it turns the
    HMD-to-controller distance into a distance beyond the threshold, a
    beyond/not-beyond flag and a multiplier clamped from above. */
module DepthScaling {
  import opened Common

  /** The multiplier `Update` stores for an HMD-to-controller `distance`:
      1 up to the threshold, then `(1 / (n + 0.1))^power` with
      `n = (distance - threshold) / threshold`, clamped from above only. */
  function ScalingFactor(distance: real, threshold: real, power: nat, maxFactor: real): (f: real)
    requires threshold > 0.0
    ensures distance <= threshold ==> f == 1.0
    ensures distance > threshold ==> 0.0 < f || f == maxFactor
    ensures distance > threshold ==> f <= maxFactor
  {
    var beyond := distance - threshold;
    if beyond > 0.0 then
      var n := beyond / threshold;
      PowPositive(1.0 / (n + 0.1), power);
      Min(Pow(1.0 / (n + 0.1), power), maxFactor)
    else
      1.0
  }

  /** The farther the controller is beyond the threshold, the smaller the
      multiplier: the code amplifies most just past the threshold. */
  lemma FactorNonIncreasing(d1: real, d2: real, threshold: real, power: nat, maxFactor: real)
    requires threshold > 0.0 && threshold < d1 <= d2
    ensures ScalingFactor(d2, threshold, power, maxFactor) <= ScalingFactor(d1, threshold, power, maxFactor)
  {
    var n1 := (d1 - threshold) / threshold;
    var n2 := (d2 - threshold) / threshold;
    assert 0.0 < n1 <= n2;
    var b1 := 1.0 / (n1 + 0.1);
    var b2 := 1.0 / (n2 + 0.1);
    assert 0.0 < b2 <= b1;
    PowMonotone(b2, b1, power);
  }

  /** There is no lower clamp: well beyond the threshold the multiplier
      drops below 1 (n = 1, power 2 gives (1/1.1)^2). */
  lemma FactorFallsBelowOne()
    ensures ScalingFactor(0.6, 0.3, 2, 10.0) < 1.0
  {
    assert (0.6 - 0.3) / 0.3 == 1.0;
  }

  /** Threshold 0.3, power 2, maximum 10, distance 0.35: n = 1/6, the
      power gives 14.0625 and the clamp brings it to 10. */
  lemma FactorClampedAtMaximum()
    ensures ScalingFactor(0.35, 0.3, 2, 10.0) == 10.0
  {
    assert (0.35 - 0.3) / 0.3 + 0.1 == 4.0 / 15.0;
    assert Pow(15.0 / 4.0, 2) == 14.0625;
  }

  class HandCalibrationDepthScale {
    const thresholdDistance: real
    const exponentialPower: nat
    const maxScalingFactor: real
    var currentDistanceBeyondThreshold: real
    var depthScalingFactor: real
    var isControllerBeyondThreshold: bool

    /** The three derived fields always agree with one distance. */
    ghost predicate Valid()
      reads this
    {
      && thresholdDistance > 0.0
      && (isControllerBeyondThreshold <==> currentDistanceBeyondThreshold > 0.0)
      && depthScalingFactor == ScalingFactor(currentDistanceBeyondThreshold + thresholdDistance,
                                             thresholdDistance, exponentialPower, maxScalingFactor)
    }

    /** The state before the first `Update`: factor 1, not beyond. */
    constructor (thresholdDistance: real, exponentialPower: nat, maxScalingFactor: real)
      requires thresholdDistance > 0.0
      ensures Valid()
      ensures this.thresholdDistance == thresholdDistance
      ensures this.exponentialPower == exponentialPower
      ensures this.maxScalingFactor == maxScalingFactor
      ensures depthScalingFactor == 1.0 && !isControllerBeyondThreshold
      ensures currentDistanceBeyondThreshold == 0.0
    {
      this.thresholdDistance := thresholdDistance;
      this.exponentialPower := exponentialPower;
      this.maxScalingFactor := maxScalingFactor;
      currentDistanceBeyondThreshold := 0.0;
      depthScalingFactor := 1.0;
      isControllerBeyondThreshold := false;
    }

    /** One frame. `hmd` and `controller` are the two transforms' positions,
        `None` where the reference is missing. */
    method Update(hmd: Option<Vec3>, controller: Option<Vec3>, dist: Distance)
      requires Valid()
      modifies this
      ensures Valid()
      ensures hmd.None? || controller.None? ==> unchanged(this)
      ensures hmd.Some? && controller.Some? ==>
        var d := dist(hmd.value, controller.value);
        && currentDistanceBeyondThreshold == d - thresholdDistance
        && (isControllerBeyondThreshold <==> d > thresholdDistance)
        && depthScalingFactor == ScalingFactor(d, thresholdDistance, exponentialPower, maxScalingFactor)
    {
      if hmd.None? || controller.None? {
        return;
      }
      var distanceFromHmd := dist(hmd.value, controller.value);
      currentDistanceBeyondThreshold := distanceFromHmd - thresholdDistance;
      isControllerBeyondThreshold := currentDistanceBeyondThreshold > 0.0;
      if isControllerBeyondThreshold {
        var normalizedDistance := currentDistanceBeyondThreshold / thresholdDistance;
        depthScalingFactor := Pow(1.0 / (normalizedDistance + 0.1), exponentialPower);
        depthScalingFactor := Min(depthScalingFactor, maxScalingFactor);
      } else {
        depthScalingFactor := 1.0;
      }
    }

    /** Reads the stored multiplier; nothing is recomputed. */
    function GetDepthScalingFactor(): (f: real)
      reads this
      requires Valid()
      ensures !isControllerBeyondThreshold ==> f == 1.0
      ensures isControllerBeyondThreshold ==> f <= maxScalingFactor
    {
      depthScalingFactor
    }

    function IsControllerBeyondThreshold(): (b: bool)
      reads this
      requires Valid()
      ensures b <==> GetDistanceBeyondThreshold() > 0.0
    {
      isControllerBeyondThreshold
    }

    /** Unclamped: negative while the controller is inside the threshold,
        and positive exactly while it is beyond it. */
    function GetDistanceBeyondThreshold(): (d: real)
      reads this
      requires Valid()
      ensures d > 0.0 <==> isControllerBeyondThreshold
      ensures depthScalingFactor == ScalingFactor(d + thresholdDistance, thresholdDistance,
                                                  exponentialPower, maxScalingFactor)
    {
      currentDistanceBeyondThreshold
    }

    /** Scales a movement delta by the stored multiplier: the identity while
        the controller is inside the threshold. */
    function ApplyDepthScaling(inputDelta: Vec3): (r: Vec3)
      reads this
      requires Valid()
      ensures !isControllerBeyondThreshold ==> r == inputDelta
      ensures r == Scale(inputDelta, GetDepthScalingFactor())
    {
      Scale(inputDelta, depthScalingFactor)
    }
  }
}
