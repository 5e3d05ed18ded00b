/** A placement zone (`BubbleTarget`): an entering object counts when its
    name contains "Phantom" or it is tagged "Grabbable"; the placement is
    correct when its lower-cased name contains the lower-cased zone colour.
    A correct entry turns the zone to its success material, and the exit of
    the occupant turns it back. */
module Bubble {
  import opened Common
  import opened Scene
  import opened Text

  /** The event a zone raises for its listeners (`OnObjectPlaced`). */
  datatype Placement = Placement(placed: Body, bubbleColor: string, isCorrect: bool)

  /** Whether an entering object is one the zone reacts to. */
  predicate Eligible(name: string, tag: string) {
    Contains(name, "Phantom") || tag == "Grabbable"
  }

  /** Whether the object's name names the zone's colour, ignoring case. */
  predicate IsCorrectPlacement(name: string, bubbleColor: string) {
    Contains(ToLower(name), ToLower(bubbleColor))
  }

  /** Correctness is decided by an occurrence of the lower-cased colour in
      the lower-cased name. */
  lemma CorrectIffColourOccurs(name: string, bubbleColor: string)
    ensures IsCorrectPlacement(name, bubbleColor) <==>
            exists i: nat :: OccursAt(ToLower(name), ToLower(bubbleColor), i)
  {
    ContainsIffOccurs(ToLower(name), ToLower(bubbleColor));
  }

  /** "PhantomRed" is eligible by name and correct in the "Red" zone. */
  lemma PhantomRedInRedZone()
    ensures Eligible("PhantomRed", "Untagged") && IsCorrectPlacement("PhantomRed", "Red")
  {
    ContainsIffOccurs("PhantomRed", "Phantom");
    assert OccursAt("PhantomRed", "Phantom", 0);
    CorrectIffColourOccurs("PhantomRed", "Red");
    assert ToLower("PhantomRed") == "phantomred" && ToLower("Red") == "red";
    assert OccursAt("phantomred", "red", 7);
  }

  /** "PhantomRed" in the "Blue" zone is an incorrect placement. */
  lemma PhantomRedInBlueZone()
    ensures !IsCorrectPlacement("PhantomRed", "Blue")
  {
    var name := ToLower("PhantomRed");
    assert ToLower("Blue")[0] == 'b';
    forall i | 0 <= i < |name| ensures name[i] != 'b' {
      assert "PhantomRed"[i] != 'b' && "PhantomRed"[i] != 'B';
    }
    MissingFirstChar(name, ToLower("Blue"));
  }

  /** The name test is case-sensitive: "phantomRed" is eligible only
      through its tag. */
  lemma NameTestCaseSensitive()
    ensures !Eligible("phantomRed", "Untagged") && Eligible("phantomRed", "Grabbable")
  {
    forall i | 0 <= i < |"phantomRed"| ensures "phantomRed"[i] != 'P' {}
    MissingFirstChar("phantomRed", "Phantom");
  }

  class BubbleTarget {
    const bubbleColor: string
    const normalMaterial: Option<Material>
    const successMaterial: Option<Material>
    /** Whether the zone has a renderer. */
    const hasRenderer: bool
    /** The renderer's material. */
    var material: Material
    var currentObject: Body?

    constructor (bubbleColor: string, normalMaterial: Option<Material>, successMaterial: Option<Material>,
                 hasRenderer: bool, material: Material)
      ensures this.bubbleColor == bubbleColor && this.normalMaterial == normalMaterial
      ensures this.successMaterial == successMaterial && this.hasRenderer == hasRenderer
      ensures this.material == material && currentObject == null
    {
      this.bubbleColor := bubbleColor;
      this.normalMaterial := normalMaterial;
      this.successMaterial := successMaterial;
      this.hasRenderer := hasRenderer;
      this.material := material;
      currentObject := null;
    }

    /** The material `ResetVisual` leaves: the normal one when it can be set. */
    function NormalLook(before: Material): (m: Material)
      ensures hasRenderer && normalMaterial.Some? ==> m == normalMaterial.value
      ensures !(hasRenderer && normalMaterial.Some?) ==> m == before
    {
      if hasRenderer && normalMaterial.Some? then normalMaterial.value else before
    }

    /** The material `ShowSuccess` leaves: the success one when it can be set. */
    function SuccessLook(before: Material): (m: Material)
      ensures hasRenderer && successMaterial.Some? ==> m == successMaterial.value
      ensures !(hasRenderer && successMaterial.Some?) ==> m == before
    {
      if hasRenderer && successMaterial.Some? then successMaterial.value else before
    }

    method Start()
      modifies this`material
      ensures material == NormalLook(old(material))
    {
      ResetVisual();
    }

    /** An entering object: an ineligible one changes nothing and raises
        nothing; an eligible one becomes the occupant and raises exactly one
        event, and only a correct one changes the zone's look. */
    method OnTriggerEnter(other: Body) returns (placed: Option<Placement>)
      modifies this`currentObject, this`material
      ensures !Eligible(other.name, other.tag) ==> placed.None? && unchanged(this)
      ensures Eligible(other.name, other.tag) ==>
        var correct := IsCorrectPlacement(other.name, bubbleColor);
        && currentObject == other
        && placed == Some(Placement(other, bubbleColor, correct))
        && material == (if correct then SuccessLook(old(material)) else old(material))
    {
      placed := None;
      if Contains(other.name, "Phantom") || other.tag == "Grabbable" {
        currentObject := other;
        var isCorrect := Contains(ToLower(other.name), ToLower(bubbleColor));
        if isCorrect {
          ShowSuccess();
        }
        placed := Some(Placement(other, bubbleColor, isCorrect));
      }
    }

    /** Only the occupant's exit clears it, and then the look is reset. */
    method OnTriggerExit(other: Body)
      modifies this`currentObject, this`material
      ensures other == old(currentObject) ==> currentObject == null && material == NormalLook(old(material))
      ensures other != old(currentObject) ==> unchanged(this)
    {
      if other == currentObject {
        currentObject := null;
        ResetVisual();
      }
    }

    method ShowSuccess()
      modifies this`material
      ensures material == SuccessLook(old(material))
    {
      if hasRenderer && successMaterial.Some? {
        material := successMaterial.value;
      }
    }

    method ResetVisual()
      modifies this`material
      ensures material == NormalLook(old(material))
    {
      if hasRenderer && normalMaterial.Some? {
        material := normalMaterial.value;
      }
    }

    function GetCurrentObject(): Body?
      reads this
    {
      currentObject
    }
  }
}
