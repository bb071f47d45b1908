/**
 * Controller identities: the SDL game-controller buttons and axes that reach
 * the event handlers, the internal GBTN_* button identities whose pressed
 * state the program tracks, and the mapping between the two used by
 * handleEventBtnFakeKeyboardMouseDevice (src/keyboard.c).
 */
module Buttons {
  import opened Wrappers

  /** Internal button identities (GBTN_*). */
  datatype Gbtn =
    | DpadUp | DpadDown | DpadLeft | DpadRight
    | A | B | X | Y
    | L1 | R1 | L2 | R2 | L3 | R3
    | Guide | Back | Start
    | LeftAnalogUp | LeftAnalogDown | LeftAnalogLeft | LeftAnalogRight
    | RightAnalogUp | RightAnalogDown | RightAnalogLeft | RightAnalogRight

  /** SDL controller buttons; every id the handler has no case for is Other. */
  datatype ControllerButton =
    | ButtonDpadLeft | ButtonDpadUp | ButtonDpadRight | ButtonDpadDown
    | ButtonA | ButtonB | ButtonX | ButtonY
    | ButtonLeftShoulder | ButtonRightShoulder
    | ButtonLeftStick | ButtonRightStick
    | ButtonGuide | ButtonBack | ButtonStart
    | OtherButton(id: int)

  /** SDL controller axes; every id the handler has no case for is Other. */
  datatype ControllerAxis =
    | LeftX | LeftY | RightX | RightY | TriggerLeft | TriggerRight
    | OtherAxis(id: int)

  /** The fifteen GBTN identities a controller button can be mapped to. */
  const DigitalButtons: set<Gbtn> :=
    {DpadLeft, DpadUp, DpadRight, DpadDown, A, B, X, Y, L1, R1, L3, R3, Guide, Back, Start}

  /** The eight directional pseudo-buttons the two sticks drive. */
  const StickButtons: set<Gbtn> :=
    {LeftAnalogUp, LeftAnalogDown, LeftAnalogLeft, LeftAnalogRight,
     RightAnalogUp, RightAnalogDown, RightAnalogLeft, RightAnalogRight}

  /** The switch of handleEventBtnFakeKeyboardMouseDevice: which GBTN a button updates. */
  function ButtonToGbtn(b: ControllerButton): (g: Option<Gbtn>)
    ensures g.None? <==> b.OtherButton?
    ensures g.Some? ==> g.value in DigitalButtons
  {
    match b
    case ButtonDpadLeft => Some(DpadLeft)
    case ButtonDpadUp => Some(DpadUp)
    case ButtonDpadRight => Some(DpadRight)
    case ButtonDpadDown => Some(DpadDown)
    case ButtonA => Some(A)
    case ButtonB => Some(B)
    case ButtonX => Some(X)
    case ButtonY => Some(Y)
    case ButtonLeftShoulder => Some(L1)
    case ButtonRightShoulder => Some(R1)
    case ButtonLeftStick => Some(L3)
    case ButtonRightStick => Some(R3)
    case ButtonGuide => Some(Guide)
    case ButtonBack => Some(Back)
    case ButtonStart => Some(Start)
    case OtherButton(_) => None
  }

  /** No two handled buttons update the same GBTN. */
  lemma ButtonToGbtnInjective(b1: ControllerButton, b2: ControllerButton)
    requires ButtonToGbtn(b1).Some?
    requires ButtonToGbtn(b1) == ButtonToGbtn(b2)
    ensures b1 == b2
  {
  }

  /** Every one of the fifteen digital GBTNs is reached by some handled button. */
  lemma ButtonToGbtnOnto(g: Gbtn)
    requires g in DigitalButtons
    ensures exists b :: ButtonToGbtn(b) == Some(g)
  {
    var b :=
      match g
      case DpadLeft => ButtonDpadLeft
      case DpadUp => ButtonDpadUp
      case DpadRight => ButtonDpadRight
      case DpadDown => ButtonDpadDown
      case A => ButtonA
      case B => ButtonB
      case X => ButtonX
      case Y => ButtonY
      case L1 => ButtonLeftShoulder
      case R1 => ButtonRightShoulder
      case L3 => ButtonLeftStick
      case R3 => ButtonRightStick
      case Guide => ButtonGuide
      case Back => ButtonBack
      case _ => ButtonStart;
    assert ButtonToGbtn(b) == Some(g);
  }

  /** Button events never touch the stick pseudo-buttons or the trigger buttons. */
  lemma DigitalButtonsDisjoint()
    ensures DigitalButtons !! StickButtons
    ensures L2 !in DigitalButtons && R2 !in DigitalButtons
  {
  }
}
