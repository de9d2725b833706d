/**
 * Zoom and pan of a `QGraphicsView` driven by wheel events (the three `wheelEvent`
 * handlers). A view is reduced to what the handlers change: the accumulated scale
 * factor passed to `scale` and the accumulated offsets passed to `translate`.
 */
module Viewport {

  /** Keyboard modifiers that `QApplication.keyboardModifiers()` can report. */
  datatype Modifier = Shift | Control | Alt | Meta | Keypad | GroupSwitch

  /** `modifiers == Qt.ControlModifier`: Control and nothing else is held. */
  predicate CtrlOnly(mods: set<Modifier>) {
    mods == {Control}
  }

  /** A wheel event: the modifiers held and `angleDelta()` in eighths of a degree. */
  datatype WheelInput = WheelInput(mods: set<Modifier>, angleX: int, angleY: int)

  /** Scale factor and translation applied to a view so far. */
  datatype Transform = Transform(scale: real, panX: real, panY: real)

  const Identity := Transform(1.0, 0.0, 0.0)

  /** The zoom factor function (`pow(1.1, _)`) yields a positive factor everywhere. */
  ghost predicate PositiveFactor(pow: real -> real) {
    forall d :: pow(d) > 0.0
  }

  /** `scale(f, f)`. */
  function Scaled(t: Transform, f: real): Transform {
    t.(scale := t.scale * f)
  }

  /** `translate(dx, dy)`. */
  function Translated(t: Transform, dx: real, dy: real): Transform {
    t.(panX := t.panX + dx, panY := t.panY + dy)
  }

  /** `angleDelta().y() / 120`: the vertical delta in notches. */
  function Notches(e: WheelInput): (n: real)
    ensures n * 120.0 == e.angleY as real
  {
    e.angleY as real / 120.0
  }

  /** The effect of a single-view wheel handler on the view's transform. */
  function WheelEffect(t: Transform, e: WheelInput, pow: real -> real): Transform {
    if CtrlOnly(e.mods) then Scaled(t, pow(Notches(e)))
    else Translated(t, -e.angleX as real / 5.0, -e.angleY as real / 5.0)
  }

  /** Pan mode moves by exactly (-dx/5, -dy/5) and leaves the scale alone, whatever the scale is. */
  lemma PanIsExact(t: Transform, e: WheelInput, pow: real -> real)
    requires !CtrlOnly(e.mods)
    ensures WheelEffect(t, e, pow).scale == t.scale
    ensures (WheelEffect(t, e, pow).panX - t.panX) * 5.0 == -e.angleX as real
    ensures (WheelEffect(t, e, pow).panY - t.panY) * 5.0 == -e.angleY as real
  {
  }

  /** The pan step does not depend on the transform it is applied to. */
  lemma PanIndependentOfScale(t: Transform, u: Transform, e: WheelInput, pow: real -> real)
    requires !CtrlOnly(e.mods)
    ensures WheelEffect(t, e, pow).panX - t.panX == WheelEffect(u, e, pow).panX - u.panX
    ensures WheelEffect(t, e, pow).panY - t.panY == WheelEffect(u, e, pow).panY - u.panY
  {
  }

  /** Zoom mode multiplies the scale by the factor of the notch count and keeps the translation. */
  lemma ZoomIsExact(t: Transform, e: WheelInput, pow: real -> real)
    requires CtrlOnly(e.mods)
    ensures WheelEffect(t, e, pow).scale == t.scale * pow(e.angleY as real / 120.0)
    ensures WheelEffect(t, e, pow).panX == t.panX && WheelEffect(t, e, pow).panY == t.panY
  {
  }

  /** The scale stays positive under any wheel event when the factor is positive. */
  lemma ScaleStaysPositive(t: Transform, e: WheelInput, pow: real -> real)
    requires t.scale > 0.0 && PositiveFactor(pow)
    ensures WheelEffect(t, e, pow).scale > 0.0
  {
  }

  /** The choice predicate for the scale `fitInView` picks; it gives the choice a trigger. */
  predicate PositiveScale(s: real) {
    s > 0.0
  }

  /** A `QGraphicsView` as the wheel handlers see it. */
  class View {
    var scale: real
    var panX: real
    var panY: real

    ghost predicate Valid()
      reads this
    {
      scale > 0.0
    }

    function Current(): Transform
      reads this
    {
      Transform(scale, panX, panY)
    }

    /** A new view has the identity transform. */
    constructor ()
      ensures Valid() && Current() == Identity
    {
      scale, panX, panY := 1.0, 0.0, 0.0;
    }

    /** `scale(f, f)`. */
    method Scale(f: real)
      requires Valid() && f > 0.0
      modifies this
      ensures Valid()
      ensures Current() == Scaled(old(Current()), f)
    {
      scale := scale * f;
    }

    /** `translate(dx, dy)`. */
    method Translate(dx: real, dy: real)
      requires Valid()
      modifies this
      ensures Valid()
      ensures Current() == Translated(old(Current()), dx, dy)
    {
      panX := panX + dx;
      panY := panY + dy;
    }

    /** `fitInView(rect, KeepAspectRatio)`: some transform with a positive scale that the model does not determine. */
    method FitInView()
      modifies this
      ensures Valid()
    {
      assert PositiveScale(1.0);
      var s: real :| PositiveScale(s);
      assert PositiveScale(s);  // unfolds the choice, for Valid()
      var x: real, y: real :| true;
      scale, panX, panY := s, x, y;
    }

    /** The body shared by the single-view handlers: zoom on Control alone, pan otherwise. */
    method HandleWheel(e: WheelInput, pow: real -> real)
      requires Valid() && PositiveFactor(pow)
      modifies this
      ensures Valid()
      ensures Current() == WheelEffect(old(Current()), e, pow)
    {
      if CtrlOnly(e.mods) {
        var delta := e.angleY as real / 120.0;
        var factor := pow(delta);
        Scale(factor);
      } else {
        var dx := -e.angleX as real / 5.0;
        var dy := -e.angleY as real / 5.0;
        Translate(dx, dy);
      }
    }
  }
}
