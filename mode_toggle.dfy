/** The mode toggle (`GoGoModeToggle`): a button press flips between the
    traditional GoGo component and the reverse GoGo component by enabling
    exactly one of them. Disabling a component only stops its per-frame
    update: a grab in progress is not released. */
module ModeToggle {
  import GoGo
  import ReverseGoGo

  const TraditionalName: string := "Traditional GoGo"
  const ReverseName: string := "ReverseGoGo"

  function TraditionalFrame(t: GoGo.TraditionalGoGoInteraction?): set<GoGo.TraditionalGoGoInteraction> {
    if t == null then {} else {t}
  }

  function ReverseFrame(r: ReverseGoGo.VirtualHandAttach?): set<ReverseGoGo.VirtualHandAttach> {
    if r == null then {} else {r}
  }

  class GoGoModeToggle {
    const traditionalGoGo: GoGo.TraditionalGoGoInteraction?
    const reverseGoGo: ReverseGoGo.VirtualHandAttach?
    /** Whether the toggle input action exists. */
    const hasToggleAction: bool
    var useTraditionalGoGo: bool

    /** The assigned components are enabled exactly as the mode says. */
    ghost predicate InSync()
      reads this, TraditionalFrame(traditionalGoGo)`enabled, ReverseFrame(reverseGoGo)`enabled
    {
      && (traditionalGoGo != null ==> traditionalGoGo.enabled == useTraditionalGoGo)
      && (reverseGoGo != null ==> reverseGoGo.enabled == !useTraditionalGoGo)
    }

    /** Before `Start` the components keep whatever enabled state they have. */
    constructor (traditionalGoGo: GoGo.TraditionalGoGoInteraction?, reverseGoGo: ReverseGoGo.VirtualHandAttach?,
                 hasToggleAction: bool, useTraditionalGoGo: bool)
      ensures this.traditionalGoGo == traditionalGoGo && this.reverseGoGo == reverseGoGo
      ensures this.hasToggleAction == hasToggleAction && this.useTraditionalGoGo == useTraditionalGoGo
    {
      this.traditionalGoGo := traditionalGoGo;
      this.reverseGoGo := reverseGoGo;
      this.hasToggleAction := hasToggleAction;
      this.useTraditionalGoGo := useTraditionalGoGo;
    }

    /** Enables the traditional component iff `traditional`, the reverse
        one iff not; touches nothing else of either. */
    method SetMode(traditional: bool)
      modifies TraditionalFrame(traditionalGoGo)`enabled, ReverseFrame(reverseGoGo)`enabled
      ensures traditionalGoGo != null ==> traditionalGoGo.enabled == traditional
      ensures reverseGoGo != null ==> reverseGoGo.enabled == !traditional
    {
      if traditionalGoGo != null {
        traditionalGoGo.enabled := traditional;
      }
      if reverseGoGo != null {
        reverseGoGo.enabled := !traditional;
      }
    }

    /** Applies the configured starting mode. */
    method Start()
      modifies TraditionalFrame(traditionalGoGo)`enabled, ReverseFrame(reverseGoGo)`enabled
      ensures InSync() && useTraditionalGoGo == old(useTraditionalGoGo)
    {
      SetMode(useTraditionalGoGo);
    }

    /** One frame: a press flips the mode; without one, or without a toggle
        action, nothing changes. Two presses restore the starting mode. */
    method Update(togglePressed: bool)
      requires InSync()
      modifies this`useTraditionalGoGo
      modifies TraditionalFrame(traditionalGoGo)`enabled, ReverseFrame(reverseGoGo)`enabled
      ensures InSync()
      ensures useTraditionalGoGo == (if hasToggleAction && togglePressed then !old(useTraditionalGoGo)
                                     else old(useTraditionalGoGo))
      ensures !(hasToggleAction && togglePressed) ==>
        unchanged(this) && unchanged(TraditionalFrame(traditionalGoGo)) && unchanged(ReverseFrame(reverseGoGo))
    {
      if hasToggleAction && togglePressed {
        useTraditionalGoGo := !useTraditionalGoGo;
        SetMode(useTraditionalGoGo);
      }
    }

    method SwitchToTraditionalGoGo()
      modifies this`useTraditionalGoGo
      modifies TraditionalFrame(traditionalGoGo)`enabled, ReverseFrame(reverseGoGo)`enabled
      ensures useTraditionalGoGo && InSync()
    {
      useTraditionalGoGo := true;
      SetMode(true);
    }

    method SwitchToReverseGoGo()
      modifies this`useTraditionalGoGo
      modifies TraditionalFrame(traditionalGoGo)`enabled, ReverseFrame(reverseGoGo)`enabled
      ensures !useTraditionalGoGo && InSync()
    {
      useTraditionalGoGo := false;
      SetMode(false);
    }

    /** The name identifies the mode: the two names differ. */
    function GetCurrentModeName(): (name: string)
      reads this
      ensures name == TraditionalName <==> useTraditionalGoGo
      ensures name == ReverseName <==> !useTraditionalGoGo
    {
      if useTraditionalGoGo then TraditionalName else ReverseName
    }
  }
}
