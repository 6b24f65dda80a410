/** One toggle of the top menu (src/components/CameraOption.js). The component
    keeps no state: its view is computed from its props, and pressing it hands
    the negated flag back to the setter its parent passed in. */
module CameraOption {

  /** The props the component reads: the icon, the flag it shows and the name
      of the parent's setter for that flag. */
  datatype OptionProps = OptionProps(iconName: string, enabled: bool, setEnabled: string)

  /** One call of a setter the parent handed in, with its argument. */
  datatype SetterCall = SetterCall(setter: string, arg: bool)

  /** What the component renders: the icon, its tint, and the setter calls one
      press makes. */
  datatype OptionView = OptionView(iconName: string, color: string, onPress: seq<SetterCall>)

  /** The tint of the icon: yellow when the flag is on, white when it is off. */
  function Color(enabled: bool): (c: string)
    ensures c == "yellow" <==> enabled
    ensures c == "white" <==> !enabled
  {
    if enabled then "yellow" else "white"
  }

  /** A press calls the parent's setter exactly once, with the negated flag. */
  function OnPress(p: OptionProps): (calls: seq<SetterCall>)
    ensures |calls| == 1
    ensures calls[0].setter == p.setEnabled && calls[0].arg == !p.enabled
  {
    [SetterCall(p.setEnabled, !p.enabled)]
  }

  /** The rendered component. */
  function Render(p: OptionProps): (v: OptionView)
    ensures v.iconName == p.iconName
    ensures v.color == "yellow" <==> p.enabled
    ensures v.color == "white" <==> !p.enabled
    ensures |v.onPress| == 1 && v.onPress[0] == SetterCall(p.setEnabled, !p.enabled)
  {
    OptionView(p.iconName, Color(p.enabled), OnPress(p))
  }

  /** The component holds no state of its own: apart from which setter a press
      calls, its view is fixed by the icon name and the flag. */
  lemma ViewDependsOnlyOnIconAndFlag(p: OptionProps, q: OptionProps)
    requires p.iconName == q.iconName && p.enabled == q.enabled
    ensures Render(p).iconName == Render(q).iconName
    ensures Render(p).color == Render(q).color
    ensures |Render(p).onPress| == |Render(q).onPress|
    ensures Render(p).onPress[0].arg == Render(q).onPress[0].arg
  {
  }

  /** The flag after `n` presses when the parent stores each setter argument and
      renders the component again with it. */
  function AfterPresses(p: OptionProps, n: nat): bool
    decreases n
  {
    if n == 0 then p.enabled
    else AfterPresses(p.(enabled := OnPress(p)[0].arg), n - 1)
  }

  /** `n` fed-back presses leave the flag flipped exactly when `n` is odd. */
  lemma {:induction false} PressesFlipParity(p: OptionProps, n: nat)
    ensures AfterPresses(p, n) == (p.enabled != (n % 2 == 1))
    decreases n
  {
    if n > 0 {
      PressesFlipParity(p.(enabled := !p.enabled), n - 1);
    }
  }

  /** Two fed-back presses restore the original flag. */
  lemma TwoPressesRestore(p: OptionProps)
    ensures AfterPresses(p, 2) == p.enabled
  {
    PressesFlipParity(p, 2);
  }
}
