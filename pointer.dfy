/**
 * The per-tick mouse derivation of the main loop in src/main.c: the relative
 * delta (stick delta plus the D-pad-as-mouse vector), the rotation-aware
 * absolute position with its deadzone, and the choice between sleeping for the
 * motion cadence and blocking for the next event.
 *
 * The float parts of the loop (vector2d_normalize of a diagonal D-pad vector,
 * and the division by slow_scale) are function parameters here.
 */
module Pointer {
  import opened Wrappers
  import opened Buttons
  import opened Deadzone
  import opened Keyboard

  /** INT16_MAX, the full deflection of a stick. */
  const Int16Max: int := 32767

  /** C integer division, which truncates toward zero (Dafny's / is Euclidean). */
  function TruncDiv(a: int, b: int): (q: int)
    requires b > 0
    ensures (a >= 0 ==> q >= 0) && (a <= 0 ==> q <= 0)
  {
    if a >= 0 then a / b else -((-a) / b)
  }

  /** The quotient's magnitude is the largest q with q * b <= |a|. */
  lemma TruncDivBounds(a: int, b: int)
    requires b > 0
    ensures Abs(TruncDiv(a, b)) * b <= Abs(a) < (Abs(TruncDiv(a, b)) + 1) * b
  {
    var n := Abs(a);
    var q := n / b;
    assert n == q * b + n % b && 0 <= n % b < b;
    assert Abs(TruncDiv(a, b)) == q;
    assert (q + 1) * b == q * b + b;
  }

  /** Truncating division commutes with negation, unlike Euclidean division. */
  lemma TruncDivNegate(a: int, b: int)
    requires b > 0
    ensures TruncDiv(-a, b) == -TruncDiv(a, b)
  {
  }

  /** absolute_center_x/y, absolute_step, absolute_rotate and absolute_deadzone. */
  datatype AbsoluteSettings = AbsoluteSettings(
    centerX: int, centerY: int, step: int, rotate: int, deadzone: int)

  /** The offset from the centre for raw stick (ax, ay) under a rotation of 0, 90, 180 or 270. */
  function AbsoluteOffset(step: int, rotate: int, ax: int, ay: int): (int, int)
  {
    if rotate == 90 then (TruncDiv(step * -ay, Int16Max), TruncDiv(step * ax, Int16Max))
    else if rotate == 180 then (TruncDiv(step * -ax, Int16Max), TruncDiv(step * -ay, Int16Max))
    else if rotate == 270 then (TruncDiv(step * ay, Int16Max), TruncDiv(step * -ax, Int16Max))
    else (TruncDiv(step * ax, Int16Max), TruncDiv(step * ay, Int16Max))
  }

  /** The absolute pointer position: centre plus the rotated, scaled offset. */
  function AbsoluteTarget(a: AbsoluteSettings, ax: int, ay: int): (int, int)
  {
    var o := AbsoluteOffset(a.step, a.rotate, ax, ay);
    (a.centerX + o.0, a.centerY + o.1)
  }

  /** A position is emitted only if it is more than the deadzone from the centre on some axis. */
  predicate PassesAbsoluteDeadzone(a: AbsoluteSettings, pos: (int, int))
  {
    Abs(pos.0 - a.centerX) > a.deadzone || Abs(pos.1 - a.centerY) > a.deadzone
  }

  /** The raw stick vector that the rotation feeds into the unrotated formula. */
  function RotateRaw(rotate: int, ax: int, ay: int): (int, int)
  {
    if rotate == 90 then (-ay, ax)
    else if rotate == 180 then (-ax, -ay)
    else if rotate == 270 then (ay, -ax)
    else (ax, ay)
  }

  function Negate(p: (int, int)): (int, int) { (-p.0, -p.1) }

  /** With a rotation other than 90, 180 or 270, the position is the plain scaled stick. */
  lemma UnrotatedTarget(a: AbsoluteSettings, ax: int, ay: int)
    requires a.rotate != 90 && a.rotate != 180 && a.rotate != 270
    ensures AbsoluteTarget(a, ax, ay) ==
      (a.centerX + TruncDiv(a.step * ax, Int16Max), a.centerY + TruncDiv(a.step * ay, Int16Max))
  {
  }

  /** Every rotation is the unrotated formula applied to the rotated raw vector. */
  lemma {:induction false} RotationIsRawTransform(step: int, rotate: int, ax: int, ay: int)
    ensures var r := RotateRaw(rotate, ax, ay);
      AbsoluteOffset(step, rotate, ax, ay) == AbsoluteOffset(step, 0, r.0, r.1)
  {
    assert step * -ay == -(step * ay) && step * -ax == -(step * ax);
  }

  /** Rotation 180 gives exactly the negated offset of rotation 0. */
  lemma {:induction false} Rotation180Negates(step: int, ax: int, ay: int)
    ensures AbsoluteOffset(step, 180, ax, ay) == Negate(AbsoluteOffset(step, 0, ax, ay))
  {
    assert step * -ax == -(step * ax) && step * -ay == -(step * ay);
    TruncDivNegate(step * ax, Int16Max);
    TruncDivNegate(step * ay, Int16Max);
  }

  /** Rotation 270 gives exactly the negated offset of rotation 90; 90 reads x from -ay and y from ax. */
  lemma {:induction false} Rotation270Negates90(step: int, ax: int, ay: int)
    ensures AbsoluteOffset(step, 270, ax, ay) == Negate(AbsoluteOffset(step, 90, ax, ay))
    ensures AbsoluteOffset(step, 90, ax, ay) ==
      (TruncDiv(step * -ay, Int16Max), TruncDiv(step * ax, Int16Max))
  {
    assert step * -ax == -(step * ax) && step * -ay == -(step * ay);
    TruncDivNegate(step * ax, Int16Max);
    TruncDivNegate(step * -ay, Int16Max);
  }

  /** Rotating the raw vector by 90 then 270 (or 180 twice) gives it back. */
  lemma RotationsCompose(ax: int, ay: int)
    ensures var r := RotateRaw(90, ax, ay); RotateRaw(270, r.0, r.1) == (ax, ay)
    ensures var r := RotateRaw(180, ax, ay); RotateRaw(180, r.0, r.1) == (ax, ay)
    ensures var r := RotateRaw(90, ax, ay); RotateRaw(90, r.0, r.1) == RotateRaw(180, ax, ay)
  {
  }

  /** Multiplying by a positive factor preserves order, both ways. */
  lemma MulMonotone(x: int, y: int, k: int)
    requires k > 0
    ensures x <= y <==> x * k <= y * k
  {
    var d := y - x;
    assert y * k == x * k + d * k;
    if d >= 0 {
      assert d * k >= 0;
    } else {
      assert (-d) * k > 0;
      assert d * k < 0;
    }
  }

  /** |step * v| is step * |v| for a non-negative step. */
  lemma AbsOfScaled(step: int, v: int)
    requires step >= 0
    ensures Abs(step * v) == step * Abs(v)
  {
    if v < 0 { assert step * v == -(step * Abs(v)); }
  }

  /** Within the 16-bit range the offset from the centre is at most the step. */
  lemma {:induction false} OffsetWithinStep(step: int, v: int)
    requires step >= 0 && -Int16Max <= v <= Int16Max
    ensures Abs(TruncDiv(step * v, Int16Max)) <= step
  {
    var q := Abs(TruncDiv(step * v, Int16Max));
    TruncDivBounds(step * v, Int16Max);
    AbsOfScaled(step, v);
    assert step * Abs(v) <= step * Int16Max by {
      if step > 0 { MulMonotone(Abs(v), Int16Max, step); }
    }
    assert q * Int16Max <= step * Int16Max;
    MulMonotone(q, step, Int16Max);
  }

  /** Full deflection in either direction moves the pointer exactly one step from the centre. */
  lemma {:induction false} FullDeflectionReachesStep(step: int)
    requires step >= 0
    ensures TruncDiv(step * Int16Max, Int16Max) == step
    ensures TruncDiv(step * -Int16Max, Int16Max) == -step
  {
    var full := Abs(TruncDiv(step * Int16Max, Int16Max));
    TruncDivBounds(step * Int16Max, Int16Max);
    MulMonotone(full, step, Int16Max);
    MulMonotone(step, full, Int16Max);
    assert (full + 1) * Int16Max == full * Int16Max + Int16Max;
    assert step * -Int16Max == -(step * Int16Max);
    TruncDivNegate(step * Int16Max, Int16Max);
  }

  /**
   * SDL also delivers -32768, one past full deflection: there the offset is
   * step + step / 32767, so it exceeds the step by step / 32767: not at all below
   * 32767, by one from 32767 to 65533, by two from 65534.
   */
  lemma {:induction false} MostNegativeOffset(step: int)
    requires step >= 0
    ensures TruncDiv(step * -(Int16Max + 1), Int16Max) == -(step + step / Int16Max)
    ensures step < Int16Max ==> TruncDiv(step * -(Int16Max + 1), Int16Max) == -step
  {
    var q, r := step / Int16Max, step % Int16Max;
    assert step * (Int16Max + 1) == (step + q) * Int16Max + r;
    assert step * -(Int16Max + 1) == -(step * (Int16Max + 1));
    DivOfMultiplePlus(step + q, r, Int16Max);
  }

  /** Euclidean division of k * b + r, with 0 <= r < b, gives k. */
  lemma DivOfMultiplePlus(k: int, r: int, b: int)
    requires b > 0 && 0 <= r < b
    ensures (k * b + r) / b == k
  {
    var n := k * b + r;
    var q := n / b;
    assert n == q * b + n % b;
    assert (q - k) * b == r - n % b;
    if q > k {
      MulMonotone(1, q - k, b);
    } else if q < k {
      MulMonotone(1, k - q, b);
    }
  }

  /** The D-pad-as-mouse vector: -1, 0 or 1 per axis, opposite directions cancelling. */
  function DpadVector(pressed: set<Gbtn>): (v: (int, int))
    ensures -1 <= v.0 <= 1 && -1 <= v.1 <= 1
    ensures v.0 == 0 <==> (DpadLeft in pressed <==> DpadRight in pressed)
    ensures v.0 == 1 <==> DpadRight in pressed && DpadLeft !in pressed
    ensures v.1 == 0 <==> (DpadUp in pressed <==> DpadDown in pressed)
    ensures v.1 == 1 <==> DpadDown in pressed && DpadUp !in pressed
  {
    ((if DpadRight in pressed then 1 else 0) - (if DpadLeft in pressed then 1 else 0),
     (if DpadDown in pressed then 1 else 0) - (if DpadUp in pressed then 1 else 0))
  }

  /** The tuning the tick reads from current_state. */
  datatype PointerSettings = PointerSettings(
    dpadAsMouse: bool,
    dpadMouseStep: int,
    dpadMouseNormalize: bool,
    mouseSlow: bool,
    absolute: AbsoluteSettings)

  /** vector2d_normalize then the scaling by the step and the cast to int: (vx, vy, step) to an offset. */
  type DpadNormalize = (int, int, int) -> (int, int)

  /** The cast of a delta divided by slow_scale. */
  type SlowScale = int -> int

  /** What the loop does after the tick: sleep for the motion cadence, or block for an event. */
  datatype LoopStep = Delay | WaitForEvent

  /** The outputs of one tick: the emitted relative and absolute motions, mouse_moved, and the next step. */
  datatype TickOutput = TickOutput(
    relative: Option<(int, int)>,
    absolute: Option<(int, int)>,
    mouseMoved: bool,
    next: LoopStep)

  /** The relative motion a tick emits: the stick delta plus the D-pad vector, then slow mode. */
  function RelativeMotion(s: Snapshot, p: PointerSettings, normalize: DpadNormalize, slow: SlowScale): (int, int)
  {
    var v := DpadVector(s.pressed);
    var d :=
      if !p.dpadAsMouse then (0, 0)
      else if p.dpadMouseNormalize then normalize(v.0, v.1, p.dpadMouseStep)
      else (v.0 * p.dpadMouseStep, v.1 * p.dpadMouseStep);
    var m := (s.mouseRelativeX + d.0, s.mouseRelativeY + d.1);
    if p.mouseSlow then (slow(m.0), slow(m.1)) else m
  }

  /**
   * Without normalisation and slow mode, D-pad-as-mouse adds the step per held
   * direction to the stick delta, opposite directions cancel, and with the
   * D-pad disabled the stick delta passes through unchanged.
   */
  lemma DpadMouseAddsToStick(s: Snapshot, p: PointerSettings, normalize: DpadNormalize, slow: SlowScale)
    requires !p.mouseSlow && (!p.dpadAsMouse || !p.dpadMouseNormalize)
    ensures var m := RelativeMotion(s, p, normalize, slow);
      && (!p.dpadAsMouse ==> m == (s.mouseRelativeX, s.mouseRelativeY))
      && (p.dpadAsMouse ==>
            && m.0 - s.mouseRelativeX in {-p.dpadMouseStep, 0, p.dpadMouseStep}
            && m.1 - s.mouseRelativeY in {-p.dpadMouseStep, 0, p.dpadMouseStep}
            && ((DpadLeft in s.pressed <==> DpadRight in s.pressed) ==> m.0 == s.mouseRelativeX)
            && ((DpadUp in s.pressed <==> DpadDown in s.pressed) ==> m.1 == s.mouseRelativeY)
            && (DpadRight in s.pressed && DpadLeft !in s.pressed ==> m.0 == s.mouseRelativeX + p.dpadMouseStep)
            && (DpadLeft in s.pressed && DpadRight !in s.pressed ==> m.0 == s.mouseRelativeX - p.dpadMouseStep)
            && (DpadDown in s.pressed && DpadUp !in s.pressed ==> m.1 == s.mouseRelativeY + p.dpadMouseStep)
            && (DpadUp in s.pressed && DpadDown !in s.pressed ==> m.1 == s.mouseRelativeY - p.dpadMouseStep))
  {
  }

  /** One pass of the main loop after the events are drained and state_update has run. */
  method Tick(s: Snapshot, p: PointerSettings, normalize: DpadNormalize, slow: SlowScale)
    returns (out: TickOutput)
    ensures out.relative.Some? <==> s.mouseRelativeX != 0 || s.mouseRelativeY != 0 || p.dpadAsMouse
    ensures out.relative.Some? ==> out.relative.value == RelativeMotion(s, p, normalize, slow)
    ensures out.absolute.Some? <==>
      && (s.mouseAbsoluteX != 0 || s.mouseAbsoluteY != 0)
      && PassesAbsoluteDeadzone(p.absolute, AbsoluteTarget(p.absolute, s.mouseAbsoluteX, s.mouseAbsoluteY))
    ensures out.absolute.Some? ==>
      out.absolute.value == AbsoluteTarget(p.absolute, s.mouseAbsoluteX, s.mouseAbsoluteY)
    ensures out.mouseMoved <==> (out.relative.Some? && out.relative.value != (0, 0)) || out.absolute.Some?
    ensures out.next == Delay <==> out.mouseMoved
  {
    var mouseX, mouseY, mouseMoved := 0, 0, false;
    var relative: Option<(int, int)> := None;
    var absolute: Option<(int, int)> := None;

    if s.mouseRelativeX != 0 || s.mouseRelativeY != 0 || p.dpadAsMouse {
      mouseX, mouseY := s.mouseRelativeX, s.mouseRelativeY;
      if p.dpadAsMouse {
        var moveX, moveY := 0, 0;
        if DpadLeft in s.pressed { moveX := moveX - 1; }
        if DpadRight in s.pressed { moveX := moveX + 1; }
        if DpadUp in s.pressed { moveY := moveY - 1; }
        if DpadDown in s.pressed { moveY := moveY + 1; }
        assert (moveX, moveY) == DpadVector(s.pressed);
        if p.dpadMouseNormalize {
          var o := normalize(moveX, moveY, p.dpadMouseStep);
          mouseX, mouseY := mouseX + o.0, mouseY + o.1;
        } else {
          mouseX, mouseY := mouseX + moveX * p.dpadMouseStep, mouseY + moveY * p.dpadMouseStep;
        }
      }
      if p.mouseSlow {
        mouseX, mouseY := slow(mouseX), slow(mouseY);
      }
      relative := Some((mouseX, mouseY));
      if mouseX != 0 || mouseY != 0 {
        mouseMoved := true;
      }
    }

    if s.mouseAbsoluteX != 0 || s.mouseAbsoluteY != 0 {
      var a := p.absolute;
      if a.rotate == 90 {
        mouseX := a.centerX + TruncDiv(a.step * -s.mouseAbsoluteY, Int16Max);
        mouseY := a.centerY + TruncDiv(a.step * s.mouseAbsoluteX, Int16Max);
      } else if a.rotate == 180 {
        mouseX := a.centerX + TruncDiv(a.step * -s.mouseAbsoluteX, Int16Max);
        mouseY := a.centerY + TruncDiv(a.step * -s.mouseAbsoluteY, Int16Max);
      } else if a.rotate == 270 {
        mouseX := a.centerX + TruncDiv(a.step * s.mouseAbsoluteY, Int16Max);
        mouseY := a.centerY + TruncDiv(a.step * -s.mouseAbsoluteX, Int16Max);
      } else {
        mouseX := a.centerX + TruncDiv(a.step * s.mouseAbsoluteX, Int16Max);
        mouseY := a.centerY + TruncDiv(a.step * s.mouseAbsoluteY, Int16Max);
      }
      assert (mouseX, mouseY) == AbsoluteTarget(a, s.mouseAbsoluteX, s.mouseAbsoluteY);
      if Abs(mouseX - a.centerX) > a.deadzone || Abs(mouseY - a.centerY) > a.deadzone {
        absolute := Some((mouseX, mouseY));
        mouseMoved := true;
      }
    }

    out := TickOutput(relative, absolute, mouseMoved, if mouseMoved then Delay else WaitForEvent);
  }
}
