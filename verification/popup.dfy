/**
 * `Popup`: the open flag (controllable state seeded by `defaultOpen`), the
 * presses that open and close it, the portal's visibility gate and the
 * placement-to-transform-origin table used for entrance animations.
 */
module Popup {
  import opened Wrappers
  import CS = ControllableState
  import P = Positioning

  /** `Popup`'s state: `open` is controllable, seeded by `defaultOpen`. */
  method NewPopup(defaultOpen: bool, openProp: Option<bool>) returns (s: CS.ControllableState<bool>)
    ensures fresh(s)
    ensures s.controlledValue == openProp && s.uncontrolledValue == defaultOpen && s.notified == []
    ensures s.Value() == openProp.GetOr(defaultOpen)
  {
    s := new CS.ControllableState(defaultOpen, openProp);
  }

  /** `onOpen`. */
  method OnOpen(s: CS.ControllableState<bool>)
    modifies s
    ensures s.controlledValue == old(s.controlledValue)
    ensures s.notified == old(s.notified) + [true]
    ensures !s.IsControlled() ==> s.Value()
    ensures s.IsControlled() ==> s.uncontrolledValue == old(s.uncontrolledValue)
  {
    s.SetValue(CS.Plain(true));
  }

  /** `onClose` (moving accessibility focus back to the trigger is not modelled). */
  method OnClose(s: CS.ControllableState<bool>)
    modifies s
    ensures s.controlledValue == old(s.controlledValue)
    ensures s.notified == old(s.notified) + [false]
    ensures !s.IsControlled() ==> !s.Value()
    ensures s.IsControlled() ==> s.uncontrolledValue == old(s.uncontrolledValue)
  {
    s.SetValue(CS.Plain(false));
  }

  /** `PopupTrigger`'s press: close when open, open when closed. */
  method TriggerPress(s: CS.ControllableState<bool>)
    modifies s
    ensures s.controlledValue == old(s.controlledValue)
    ensures s.notified == old(s.notified) + [!old(s.Value())]
    ensures !s.IsControlled() ==> s.Value() == !old(s.Value())
    ensures s.IsControlled() ==> s.Value() == old(s.Value())
    ensures s.IsControlled() ==> s.uncontrolledValue == old(s.uncontrolledValue)
  {
    if s.Value() {
      OnClose(s);
    } else {
      OnOpen(s);
    }
  }

  /** `PopupOverlay`'s press closes only when `closeOnPressOutside`. */
  method OverlayPress(s: CS.ControllableState<bool>, closeOnPressOutside: bool)
    modifies s
    ensures s.controlledValue == old(s.controlledValue)
    ensures s.notified == old(s.notified) + (if closeOnPressOutside then [false] else [])
    ensures closeOnPressOutside && !s.IsControlled() ==> !s.Value()
    ensures !closeOnPressOutside || s.IsControlled() ==> s.uncontrolledValue == old(s.uncontrolledValue)
  {
    if closeOnPressOutside {
      OnClose(s);
    }
  }

  /** The hardware back handler `PopupContent` registers, as written: it
      calls `onClose` whatever `closeOnBackPress` says. */
  method HardwareBackPressAsWritten(s: CS.ControllableState<bool>, closeOnBackPress: bool)
    modifies s
    ensures s.controlledValue == old(s.controlledValue)
    ensures s.notified == old(s.notified) + [false]
    ensures !s.IsControlled() ==> !s.Value()
    ensures s.IsControlled() ==> s.uncontrolledValue == old(s.uncontrolledValue)
  {
    OnClose(s);
  }

  /** A counterexample, not a property: an open uncontrolled popup with
      `closeOnBackPress` off is closed by a back press all the same. */
  method BackPressIgnoresFlag(s: CS.ControllableState<bool>)
    requires !s.IsControlled() && s.Value()
    modifies s
    ensures !s.Value()
    ensures s.notified == old(s.notified) + [false]
  {
    HardwareBackPressAsWritten(s, false);
  }

  /** The evidently intended handler: a back press closes the popup exactly
      when `closeOnBackPress` is set, as the overlay does with
      `closeOnPressOutside`. */
  method HardwareBackPress(s: CS.ControllableState<bool>, closeOnBackPress: bool)
    modifies s
    ensures s.controlledValue == old(s.controlledValue)
    ensures s.notified == old(s.notified) + (if closeOnBackPress then [false] else [])
    ensures closeOnBackPress && !s.IsControlled() ==> !s.Value()
    ensures !closeOnBackPress || s.IsControlled() ==> s.uncontrolledValue == old(s.uncontrolledValue)
  {
    if closeOnBackPress {
      OnClose(s);
    }
  }

  /** `getTransformOrigin`, switching on the placement literal. */
  function GetTransformOrigin(placement: string): string {
    if placement == "top" then "center bottom"
    else if placement == "top-start" then "left bottom"
    else if placement == "top-end" then "right bottom"
    else if placement == "bottom" then "center top"
    else if placement == "bottom-start" then "left top"
    else if placement == "bottom-end" then "right top"
    else if placement == "left" then "right center"
    else if placement == "left-start" then "right top"
    else if placement == "left-end" then "right bottom"
    else if placement == "right" then "left center"
    else if placement == "right-start" then "left top"
    else if placement == "right-end" then "left bottom"
    else "center center"
  }

  /** The horizontal origin: the panel's edge facing a left or right anchor,
      otherwise the edge its alignment pins. */
  function HorizontalOrigin(p: P.Placement): string {
    match p.side
    case Left => "right"
    case Right => "left"
    case _ =>
      match p.alignment
      case Center => "center"
      case Start => "left"
      case End => "right"
  }

  /** The vertical origin: the panel's edge facing a top or bottom anchor,
      otherwise the edge its alignment pins. */
  function VerticalOrigin(p: P.Placement): string {
    match p.side
    case Top => "bottom"
    case Bottom => "top"
    case _ =>
      match p.alignment
      case Center => "center"
      case Start => "top"
      case End => "bottom"
  }

  /** The table agrees, for each of the twelve placements, with the rule
      "horizontal component, then vertical component", and its `default`
      branch is never taken. */
  lemma TransformOriginByComponents(p: P.Placement)
    ensures GetTransformOrigin(P.Name(p)) == HorizontalOrigin(p) + " " + VerticalOrigin(p)
    ensures GetTransformOrigin(P.Name(p)) != "center center"
  {
  }
}
