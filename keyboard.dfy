/**
 * The controller event handlers of src/keyboard.c in keyboard/mouse mode:
 * handleEventBtnFakeKeyboardMouseDevice and handleEventAxisFakeKeyboardMouseDevice.
 *
 * The handlers update the process-wide record current_state. Here that record is
 * the class InputState; Snapshot is its value, and ButtonEvent/AxisEvent state
 * what one event does to it. update_button is abstracted as inserting into or
 * removing from the set of pressed GBTNs; deadzone_mouse_calc, whose body is not
 * part of this model, is a function parameter from the stick's raw (x, y) to the
 * relative mouse delta.
 */
module Keyboard {
  import opened Wrappers
  import opened Buttons
  import opened Deadzone

  /** Which stick drives which mouse emulation (the current_*_as_* globals). */
  datatype StickModes = StickModes(
    leftAsMouse: bool,
    rightAsMouse: bool,
    leftAsAbsoluteMouse: bool,
    rightAsAbsoluteMouse: bool)

  /** The fields of current_state that the event handlers read or write. */
  datatype Snapshot = Snapshot(
    leftX: int, leftY: int, rightX: int, rightY: int, l2: int, r2: int,
    mouseRelativeX: int, mouseRelativeY: int,
    mouseAbsoluteX: int, mouseAbsoluteY: int,
    deadzoneX: int, deadzoneY: int, deadzoneTriggers: int,
    pressed: set<Gbtn>)

  /** The relative mouse delta computed from a stick's raw (x, y). */
  type MouseCalc = (int, int) -> (int, int)

  /** update_button: record g as pressed or released, leaving every other button alone. */
  function WithButton(pressed: set<Gbtn>, g: Gbtn, down: bool): (r: set<Gbtn>)
    ensures g in r <==> down
    ensures forall h :: h != g ==> (h in r <==> h in pressed)
  {
    if down then pressed + {g} else pressed - {g}
  }

  /** One button event. */
  function ButtonEvent(s: Snapshot, b: ControllerButton, down: bool): (r: Snapshot)
  {
    match ButtonToGbtn(b)
    case None => s
    case Some(g) => s.(pressed := WithButton(s.pressed, g, down))
  }

  /** Up/down and left/right of one stick are never both pressed. */
  predicate StickConsistent(pressed: set<Gbtn>, up: Gbtn, down: Gbtn, left: Gbtn, right: Gbtn)
  {
    !(up in pressed && down in pressed) && !(left in pressed && right in pressed)
  }

  /** The invariant the handlers keep on the pseudo-buttons of both sticks. */
  predicate SticksConsistent(pressed: set<Gbtn>)
  {
    && StickConsistent(pressed, LeftAnalogUp, LeftAnalogDown, LeftAnalogLeft, LeftAnalogRight)
    && StickConsistent(pressed, RightAnalogUp, RightAnalogDown, RightAnalogLeft, RightAnalogRight)
  }

  predicate IsLeftStickAxis(axis: ControllerAxis) { axis == LeftX || axis == LeftY }

  predicate IsRightStickAxis(axis: ControllerAxis) { axis == RightX || axis == RightY }

  /** The branch of the handler's if-chain that an axis event takes. */
  datatype Route = LeftRelative | RightRelative | LeftAbsolute | RightAbsolute | PseudoButtons

  /** The priority chain: left relative, right relative, left absolute, right absolute, buttons. */
  function SelectRoute(modes: StickModes, axis: ControllerAxis): (r: Route)
    ensures r == LeftRelative <==> modes.leftAsMouse && IsLeftStickAxis(axis)
    ensures r == RightRelative <==>
      !(modes.leftAsMouse && IsLeftStickAxis(axis)) && modes.rightAsMouse && IsRightStickAxis(axis)
    ensures r == LeftAbsolute <==>
      !modes.leftAsMouse && modes.leftAsAbsoluteMouse && IsLeftStickAxis(axis)
    ensures r == RightAbsolute <==>
      !modes.rightAsMouse && !(modes.leftAsAbsoluteMouse && IsLeftStickAxis(axis))
      && modes.rightAsAbsoluteMouse && IsRightStickAxis(axis)
    ensures r == PseudoButtons ==>
      (IsLeftStickAxis(axis) ==> !modes.leftAsMouse && !modes.leftAsAbsoluteMouse)
      && (IsRightStickAxis(axis) ==> !modes.rightAsMouse && !modes.rightAsAbsoluteMouse)
  {
    var left := IsLeftStickAxis(axis);
    var right := IsRightStickAxis(axis);
    if modes.leftAsMouse && left then LeftRelative
    else if modes.rightAsMouse && right then RightRelative
    else if modes.leftAsAbsoluteMouse && left then LeftAbsolute
    else if modes.rightAsAbsoluteMouse && right then RightAbsolute
    else PseudoButtons
  }

  /** The switch on the axis id: store the raw value into its own field. */
  function StoreRaw(s: Snapshot, axis: ControllerAxis, value: int): Snapshot
  {
    match axis
    case LeftX => s.(leftX := value)
    case LeftY => s.(leftY := value)
    case RightX => s.(rightX := value)
    case RightY => s.(rightY := value)
    case TriggerLeft => s.(l2 := value)
    case TriggerRight => s.(r2 := value)
    case OtherAxis(_) => s
  }

  /** Set the four pseudo-buttons of one stick from its raw (x, y). */
  function ClassifyStick(pressed: set<Gbtn>, x: int, y: int, dx: int, dy: int,
                         up: Gbtn, down: Gbtn, left: Gbtn, right: Gbtn): set<Gbtn>
  {
    var p1 := WithButton(pressed, up, AxisNeg(y, dy));
    var p2 := WithButton(p1, down, AxisPos(y, dy));
    var p3 := WithButton(p2, left, AxisNeg(x, dx));
    WithButton(p3, right, AxisPos(x, dx))
  }

  /** The pseudo-button branch: update the buttons of whichever stick moved. */
  function PseudoButtonUpdate(t: Snapshot, axis: ControllerAxis): set<Gbtn>
  {
    var p := if IsLeftStickAxis(axis) then
      ClassifyStick(t.pressed, t.leftX, t.leftY, t.deadzoneX, t.deadzoneY,
                    LeftAnalogUp, LeftAnalogDown, LeftAnalogLeft, LeftAnalogRight)
    else t.pressed;
    if IsRightStickAxis(axis) then
      ClassifyStick(p, t.rightX, t.rightY, t.deadzoneX, t.deadzoneY,
                    RightAnalogUp, RightAnalogDown, RightAnalogLeft, RightAnalogRight)
    else p
  }

  /** The handler's if-chain over the mouse modes, applied after the raw value is stored. */
  function RouteStage(t: Snapshot, axis: ControllerAxis, modes: StickModes, mouseCalc: MouseCalc): Snapshot
  {
    match SelectRoute(modes, axis)
    case LeftRelative =>
      var d := mouseCalc(t.leftX, t.leftY); t.(mouseRelativeX := d.0, mouseRelativeY := d.1)
    case RightRelative =>
      var d := mouseCalc(t.rightX, t.rightY); t.(mouseRelativeX := d.0, mouseRelativeY := d.1)
    case LeftAbsolute => t.(mouseAbsoluteX := t.leftX, mouseAbsoluteY := t.leftY)
    case RightAbsolute => t.(mouseAbsoluteX := t.rightX, mouseAbsoluteY := t.rightY)
    case PseudoButtons => t.(pressed := PseudoButtonUpdate(t, axis))
  }

  /** The trigger thresholds that close the handler: only the moved trigger is updated. */
  function TriggerStage(u: Snapshot, axis: ControllerAxis): Snapshot
  {
    if axis == TriggerLeft then u.(pressed := WithButton(u.pressed, L2, u.l2 > u.deadzoneTriggers))
    else if axis == TriggerRight then u.(pressed := WithButton(u.pressed, R2, u.r2 > u.deadzoneTriggers))
    else u
  }

  /** One axis event: raw store, the mouse/pseudo-button chain, then the trigger thresholds. */
  function AxisEvent(s: Snapshot, axis: ControllerAxis, value: int, modes: StickModes,
                     mouseCalc: MouseCalc): Snapshot
  {
    TriggerStage(RouteStage(StoreRaw(s, axis, value), axis, modes, mouseCalc), axis)
  }

  /** A button event changes only the pressed state, and only that of its own GBTN. */
  lemma ButtonEventEffect(s: Snapshot, b: ControllerButton, down: bool)
    ensures ButtonEvent(s, b, down).(pressed := s.pressed) == s
    ensures b.OtherButton? ==> ButtonEvent(s, b, down) == s
    ensures !b.OtherButton? ==>
      && (ButtonToGbtn(b).value in ButtonEvent(s, b, down).pressed <==> down)
      && forall g :: g != ButtonToGbtn(b).value ==> (g in ButtonEvent(s, b, down).pressed <==> g in s.pressed)
  {
  }

  /** Button events keep the stick pseudo-buttons consistent (they never touch them). */
  lemma ButtonEventKeepsSticksConsistent(s: Snapshot, b: ControllerButton, down: bool)
    requires SticksConsistent(s.pressed)
    ensures SticksConsistent(ButtonEvent(s, b, down).pressed)
  {
    DigitalButtonsDisjoint();
  }

  /** An axis event writes the raw field of its own axis and no other raw field or deadzone. */
  lemma AxisEventRawFields(s: Snapshot, axis: ControllerAxis, value: int, modes: StickModes, mouseCalc: MouseCalc)
    ensures var r := AxisEvent(s, axis, value, modes, mouseCalc);
      && r.leftX == (if axis == LeftX then value else s.leftX)
      && r.leftY == (if axis == LeftY then value else s.leftY)
      && r.rightX == (if axis == RightX then value else s.rightX)
      && r.rightY == (if axis == RightY then value else s.rightY)
      && r.l2 == (if axis == TriggerLeft then value else s.l2)
      && r.r2 == (if axis == TriggerRight then value else s.r2)
      && r.deadzoneX == s.deadzoneX && r.deadzoneY == s.deadzoneY
      && r.deadzoneTriggers == s.deadzoneTriggers
  {
  }

  /** An axis id the handler has no case for changes nothing. */
  lemma UnknownAxisIgnored(s: Snapshot, id: int, value: int, modes: StickModes, mouseCalc: MouseCalc)
    ensures AxisEvent(s, OtherAxis(id), value, modes, mouseCalc) == s
  {
  }

  /**
   * Relative-mouse branch: the delta is the mouse calculation on the moving
   * stick's current raw (x, y); no absolute field and no button changes.
   */
  lemma RelativeRouteEffect(s: Snapshot, axis: ControllerAxis, value: int, modes: StickModes, mouseCalc: MouseCalc)
    requires SelectRoute(modes, axis) in {LeftRelative, RightRelative}
    ensures var r := AxisEvent(s, axis, value, modes, mouseCalc);
      && (r.mouseRelativeX, r.mouseRelativeY) ==
         (if IsLeftStickAxis(axis) then mouseCalc(r.leftX, r.leftY) else mouseCalc(r.rightX, r.rightY))
      && r.mouseAbsoluteX == s.mouseAbsoluteX && r.mouseAbsoluteY == s.mouseAbsoluteY
      && r.pressed == s.pressed
  {
  }

  /**
   * Absolute-mouse branch: the absolute position becomes exactly the moving
   * stick's current raw (x, y); the relative delta and the buttons are untouched.
   */
  lemma AbsoluteRouteEffect(s: Snapshot, axis: ControllerAxis, value: int, modes: StickModes, mouseCalc: MouseCalc)
    requires SelectRoute(modes, axis) in {LeftAbsolute, RightAbsolute}
    ensures var r := AxisEvent(s, axis, value, modes, mouseCalc);
      && (r.mouseAbsoluteX, r.mouseAbsoluteY) ==
         (if IsLeftStickAxis(axis) then (r.leftX, r.leftY) else (r.rightX, r.rightY))
      && r.mouseRelativeX == s.mouseRelativeX && r.mouseRelativeY == s.mouseRelativeY
      && r.pressed == s.pressed
  {
  }

  /** The four pseudo-buttons after ClassifyStick, and nothing else changed. */
  lemma ClassifyStickEffect(pressed: set<Gbtn>, x: int, y: int, dx: int, dy: int,
                            up: Gbtn, down: Gbtn, left: Gbtn, right: Gbtn)
    requires up != down && up != left && up != right && down != left && down != right && left != right
    ensures var p := ClassifyStick(pressed, x, y, dx, dy, up, down, left, right);
      && (up in p <==> AxisNeg(y, dy)) && (down in p <==> AxisPos(y, dy))
      && (left in p <==> AxisNeg(x, dx)) && (right in p <==> AxisPos(x, dx))
      && StickConsistent(p, up, down, left, right)
      && forall g :: g !in {up, down, left, right} ==> (g in p <==> g in pressed)
  {
  }

  /**
   * Pseudo-button branch of a stick event: the moving stick's four buttons are set by the
   * deadzone classification of its raw values, the other stick's buttons and
   * both mouse positions are untouched.
   */
  lemma PseudoButtonRouteEffect(s: Snapshot, axis: ControllerAxis, value: int, modes: StickModes, mouseCalc: MouseCalc)
    requires IsLeftStickAxis(axis) || IsRightStickAxis(axis)
    requires SelectRoute(modes, axis) == PseudoButtons
    ensures var r := AxisEvent(s, axis, value, modes, mouseCalc);
      && r.mouseRelativeX == s.mouseRelativeX && r.mouseRelativeY == s.mouseRelativeY
      && r.mouseAbsoluteX == s.mouseAbsoluteX && r.mouseAbsoluteY == s.mouseAbsoluteY
      && (IsLeftStickAxis(axis) ==>
            && (LeftAnalogUp in r.pressed <==> AxisNeg(r.leftY, r.deadzoneY))
            && (LeftAnalogDown in r.pressed <==> AxisPos(r.leftY, r.deadzoneY))
            && (LeftAnalogLeft in r.pressed <==> AxisNeg(r.leftX, r.deadzoneX))
            && (LeftAnalogRight in r.pressed <==> AxisPos(r.leftX, r.deadzoneX)))
      && (IsRightStickAxis(axis) ==>
            && (RightAnalogUp in r.pressed <==> AxisNeg(r.rightY, r.deadzoneY))
            && (RightAnalogDown in r.pressed <==> AxisPos(r.rightY, r.deadzoneY))
            && (RightAnalogLeft in r.pressed <==> AxisNeg(r.rightX, r.deadzoneX))
            && (RightAnalogRight in r.pressed <==> AxisPos(r.rightX, r.deadzoneX)))
      && (!IsLeftStickAxis(axis) ==>
            forall g :: g in {LeftAnalogUp, LeftAnalogDown, LeftAnalogLeft, LeftAnalogRight} ==>
              (g in r.pressed <==> g in s.pressed))
      && (!IsRightStickAxis(axis) ==>
            forall g :: g in {RightAnalogUp, RightAnalogDown, RightAnalogLeft, RightAnalogRight} ==>
              (g in r.pressed <==> g in s.pressed))
      && forall g :: g !in StickButtons ==> (g in r.pressed <==> g in s.pressed)
  {
    var t := StoreRaw(s, axis, value);
    if IsLeftStickAxis(axis) {
      ClassifyStickEffect(t.pressed, t.leftX, t.leftY, t.deadzoneX, t.deadzoneY,
                          LeftAnalogUp, LeftAnalogDown, LeftAnalogLeft, LeftAnalogRight);
    }
    if IsRightStickAxis(axis) {
      ClassifyStickEffect(t.pressed, t.rightX, t.rightY, t.deadzoneX, t.deadzoneY,
                          RightAnalogUp, RightAnalogDown, RightAnalogLeft, RightAnalogRight);
    }
  }

  /** L2 (R2) follows its own threshold on its own axis event and is left alone otherwise. */
  predicate TriggersFollow(s: Snapshot, r: Snapshot, axis: ControllerAxis, value: int)
  {
    && (axis == TriggerLeft ==> (L2 in r.pressed <==> value > s.deadzoneTriggers))
    && (axis != TriggerLeft ==> (L2 in r.pressed <==> L2 in s.pressed))
    && (axis == TriggerRight ==> (R2 in r.pressed <==> value > s.deadzoneTriggers))
    && (axis != TriggerRight ==> (R2 in r.pressed <==> R2 in s.pressed))
  }

  /** The pseudo-button update touches only the stick pseudo-buttons. */
  lemma PseudoButtonUpdateKeepsOthers(t: Snapshot, axis: ControllerAxis)
    ensures forall g :: g !in StickButtons ==> (g in PseudoButtonUpdate(t, axis) <==> g in t.pressed)
  {
    var p := if IsLeftStickAxis(axis) then
      ClassifyStick(t.pressed, t.leftX, t.leftY, t.deadzoneX, t.deadzoneY,
                    LeftAnalogUp, LeftAnalogDown, LeftAnalogLeft, LeftAnalogRight)
    else t.pressed;
    ClassifyStickEffect(t.pressed, t.leftX, t.leftY, t.deadzoneX, t.deadzoneY,
                        LeftAnalogUp, LeftAnalogDown, LeftAnalogLeft, LeftAnalogRight);
    ClassifyStickEffect(p, t.rightX, t.rightY, t.deadzoneX, t.deadzoneY,
                        RightAnalogUp, RightAnalogDown, RightAnalogLeft, RightAnalogRight);
  }

  /** The mouse/pseudo-button chain leaves the trigger values and the L2/R2 buttons alone. */
  lemma RouteStageKeepsTriggers(t: Snapshot, axis: ControllerAxis, modes: StickModes, mouseCalc: MouseCalc)
    ensures var u := RouteStage(t, axis, modes, mouseCalc);
      && u.l2 == t.l2 && u.r2 == t.r2 && u.deadzoneTriggers == t.deadzoneTriggers
      && (L2 in u.pressed <==> L2 in t.pressed) && (R2 in u.pressed <==> R2 in t.pressed)
  {
    match SelectRoute(modes, axis)
    case PseudoButtons =>
      PseudoButtonUpdateKeepsOthers(t, axis);
      assert L2 !in StickButtons && R2 !in StickButtons;
    case _ =>
      assert RouteStage(t, axis, modes, mouseCalc).pressed == t.pressed;
  }

  /**
   * L2 (R2) is pressed exactly when its raw value exceeds the trigger deadzone,
   * whatever stick modes are active, and only its own axis event updates it.
   */
  lemma TriggerThreshold(s: Snapshot, axis: ControllerAxis, value: int, modes: StickModes, mouseCalc: MouseCalc)
    ensures TriggersFollow(s, AxisEvent(s, axis, value, modes, mouseCalc), axis, value)
  {
    RouteStageKeepsTriggers(StoreRaw(s, axis, value), axis, modes, mouseCalc);
  }

  /** A trigger axis event reaches the pseudo-button branch, which updates no stick, then thresholds. */
  lemma TriggerAxisEvent(s: Snapshot, axis: ControllerAxis, value: int, modes: StickModes, mouseCalc: MouseCalc)
    requires axis == TriggerLeft || axis == TriggerRight
    ensures var t := StoreRaw(s, axis, value);
      AxisEvent(s, axis, value, modes, mouseCalc) ==
        if axis == TriggerLeft then t.(pressed := WithButton(s.pressed, L2, value > s.deadzoneTriggers))
        else t.(pressed := WithButton(s.pressed, R2, value > s.deadzoneTriggers))
  {
    assert SelectRoute(modes, axis) == PseudoButtons;
    assert PseudoButtonUpdate(StoreRaw(s, axis, value), axis) == s.pressed;
  }

  /** Axis events keep up/down and left/right of each stick from being pressed together. */
  lemma AxisEventKeepsSticksConsistent(s: Snapshot, axis: ControllerAxis, value: int, modes: StickModes, mouseCalc: MouseCalc)
    requires SticksConsistent(s.pressed)
    ensures SticksConsistent(AxisEvent(s, axis, value, modes, mouseCalc).pressed)
  {
    if axis == TriggerLeft || axis == TriggerRight {
      TriggerAxisEvent(s, axis, value, modes, mouseCalc);
    } else if axis.OtherAxis? {
      UnknownAxisIgnored(s, axis.id, value, modes, mouseCalc);
    } else if SelectRoute(modes, axis) == PseudoButtons {
      PseudoButtonRouteEffect(s, axis, value, modes, mouseCalc);
    } else if SelectRoute(modes, axis) in {LeftRelative, RightRelative} {
      RelativeRouteEffect(s, axis, value, modes, mouseCalc);
    } else {
      AbsoluteRouteEffect(s, axis, value, modes, mouseCalc);
    }
  }

  /**
   * current_state as the handlers see it: raw analog values, the derived
   * relative and absolute mouse values, the deadzones, and the pressed GBTNs.
   */
  class InputState {
    var leftX: int
    var leftY: int
    var rightX: int
    var rightY: int
    var l2: int
    var r2: int
    var mouseRelativeX: int
    var mouseRelativeY: int
    var mouseAbsoluteX: int
    var mouseAbsoluteY: int
    var deadzoneX: int
    var deadzoneY: int
    var deadzoneTriggers: int
    var pressed: set<Gbtn>

    /** The value of the record. */
    function Value(): Snapshot
      reads this
    {
      Snapshot(leftX, leftY, rightX, rightY, l2, r2,
               mouseRelativeX, mouseRelativeY, mouseAbsoluteX, mouseAbsoluteY,
               deadzoneX, deadzoneY, deadzoneTriggers, pressed)
    }

    /** No stick reports up and down, or left and right, at once. */
    ghost predicate Valid()
      reads this
    {
      SticksConsistent(pressed)
    }

    /** A neutral state with the given deadzones. */
    constructor (deadzoneX: int, deadzoneY: int, deadzoneTriggers: int)
      ensures Valid()
      ensures Value() == Snapshot(0, 0, 0, 0, 0, 0, 0, 0, 0, 0, deadzoneX, deadzoneY, deadzoneTriggers, {})
    {
      leftX, leftY, rightX, rightY, l2, r2 := 0, 0, 0, 0, 0, 0;
      mouseRelativeX, mouseRelativeY, mouseAbsoluteX, mouseAbsoluteY := 0, 0, 0, 0;
      this.deadzoneX, this.deadzoneY, this.deadzoneTriggers := deadzoneX, deadzoneY, deadzoneTriggers;
      pressed := {};
    }

    /** update_button: record one GBTN as pressed or released. */
    method UpdateButton(g: Gbtn, down: bool)
      modifies this`pressed
      ensures pressed == WithButton(old(pressed), g, down)
    {
      if down {
        pressed := pressed + {g};
      } else {
        pressed := pressed - {g};
      }
    }

    /** handleEventBtnFakeKeyboardMouseDevice. */
    method HandleButton(b: ControllerButton, down: bool)
      requires Valid()
      modifies this
      ensures Valid()
      ensures Value() == ButtonEvent(old(Value()), b, down)
    {
      ButtonEventKeepsSticksConsistent(Value(), b, down);
      match b {
        case ButtonDpadLeft => UpdateButton(DpadLeft, down);
        case ButtonDpadUp => UpdateButton(DpadUp, down);
        case ButtonDpadRight => UpdateButton(DpadRight, down);
        case ButtonDpadDown => UpdateButton(DpadDown, down);
        case ButtonA => UpdateButton(A, down);
        case ButtonB => UpdateButton(B, down);
        case ButtonX => UpdateButton(X, down);
        case ButtonY => UpdateButton(Y, down);
        case ButtonLeftShoulder => UpdateButton(L1, down);
        case ButtonRightShoulder => UpdateButton(R1, down);
        case ButtonLeftStick => UpdateButton(L3, down);
        case ButtonRightStick => UpdateButton(R3, down);
        case ButtonGuide => UpdateButton(Guide, down);
        case ButtonBack => UpdateButton(Back, down);
        case ButtonStart => UpdateButton(Start, down);
        case OtherButton(_) =>
      }
    }

    /** The four update_button calls for one stick's pseudo-buttons. */
    method UpdateStickButtons(x: int, y: int, up: Gbtn, down: Gbtn, left: Gbtn, right: Gbtn)
      modifies this`pressed
      ensures pressed == ClassifyStick(old(pressed), x, y, deadzoneX, deadzoneY, up, down, left, right)
    {
      UpdateButton(up, AxisNeg(y, deadzoneY));
      UpdateButton(down, AxisPos(y, deadzoneY));
      UpdateButton(left, AxisNeg(x, deadzoneX));
      UpdateButton(right, AxisPos(x, deadzoneX));
    }

    /** The if-chain over the mouse modes, with the movement flags the switch set. */
    method ApplyMouseModes(axis: ControllerAxis, leftAxisMovement: bool, rightAxisMovement: bool,
                           modes: StickModes, mouseCalc: MouseCalc)
      requires leftAxisMovement == IsLeftStickAxis(axis)
      requires rightAxisMovement == IsRightStickAxis(axis)
      modifies this
      ensures Value() == RouteStage(old(Value()), axis, modes, mouseCalc)
    {
      ghost var t := Value();
      if modes.leftAsMouse && leftAxisMovement {
        var d := mouseCalc(leftX, leftY);
        mouseRelativeX, mouseRelativeY := d.0, d.1;
        assert SelectRoute(modes, axis) == LeftRelative;
      } else if modes.rightAsMouse && rightAxisMovement {
        var d := mouseCalc(rightX, rightY);
        mouseRelativeX, mouseRelativeY := d.0, d.1;
        assert SelectRoute(modes, axis) == RightRelative;
      } else if modes.leftAsAbsoluteMouse && leftAxisMovement {
        mouseAbsoluteX, mouseAbsoluteY := leftX, leftY;
        assert SelectRoute(modes, axis) == LeftAbsolute;
      } else if modes.rightAsAbsoluteMouse && rightAxisMovement {
        mouseAbsoluteX, mouseAbsoluteY := rightX, rightY;
        assert SelectRoute(modes, axis) == RightAbsolute;
      } else {
        assert SelectRoute(modes, axis) == PseudoButtons;
        if leftAxisMovement {
          UpdateStickButtons(leftX, leftY, LeftAnalogUp, LeftAnalogDown, LeftAnalogLeft, LeftAnalogRight);
        }
        if rightAxisMovement {
          UpdateStickButtons(rightX, rightY, RightAnalogUp, RightAnalogDown, RightAnalogLeft, RightAnalogRight);
        }
        assert pressed == PseudoButtonUpdate(t, axis);
        assert Value() == t.(pressed := pressed);
      }
    }

    /** The switch on the axis id: store the raw value and say which stick or trigger moved. */
    method StoreAxis(axis: ControllerAxis, value: int)
      returns (leftAxisMovement: bool, rightAxisMovement: bool, l2Movement: bool, r2Movement: bool)
      modifies this
      ensures Value() == StoreRaw(old(Value()), axis, value)
      ensures leftAxisMovement == IsLeftStickAxis(axis) && rightAxisMovement == IsRightStickAxis(axis)
      ensures l2Movement == (axis == TriggerLeft) && r2Movement == (axis == TriggerRight)
    {
      leftAxisMovement, rightAxisMovement, l2Movement, r2Movement := false, false, false, false;
      match axis {
        case LeftX => leftX := value; leftAxisMovement := true;
        case LeftY => leftY := value; leftAxisMovement := true;
        case RightX => rightX := value; rightAxisMovement := true;
        case RightY => rightY := value; rightAxisMovement := true;
        case TriggerLeft => l2 := value; l2Movement := true;
        case TriggerRight => r2 := value; r2Movement := true;
        case OtherAxis(_) =>
      }
    }

    /** The trigger thresholds at the end of the handler. */
    method ApplyTriggers(axis: ControllerAxis, l2Movement: bool, r2Movement: bool)
      requires l2Movement == (axis == TriggerLeft) && r2Movement == (axis == TriggerRight)
      modifies this`pressed
      ensures Value() == TriggerStage(old(Value()), axis)
    {
      if l2Movement {
        UpdateButton(L2, l2 > deadzoneTriggers);
      }
      if r2Movement {
        UpdateButton(R2, r2 > deadzoneTriggers);
      }
    }

    /** handleEventAxisFakeKeyboardMouseDevice. */
    method HandleAxis(axis: ControllerAxis, value: int, modes: StickModes, mouseCalc: MouseCalc)
      requires Valid()
      modifies this
      ensures Valid()
      ensures Value() == AxisEvent(old(Value()), axis, value, modes, mouseCalc)
    {
      AxisEventKeepsSticksConsistent(Value(), axis, value, modes, mouseCalc);
      var leftAxisMovement, rightAxisMovement, l2Movement, r2Movement := StoreAxis(axis, value);
      ApplyMouseModes(axis, leftAxisMovement, rightAxisMovement, modes, mouseCalc);
      ApplyTriggers(axis, l2Movement, r2Movement);
    }
  }
}
