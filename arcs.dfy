/**
 * The drawable components the gauge owns. A plain arc and a notch arc are the
 * same record told apart by `isNotchs`; the record carries exactly the fields
 * the gauge reads or writes on them.
 */
module Arcs {

  /** A four-sided inset in pixels, as an Android `Rect` holder. */
  datatype Rect = Rect(left: int, top: int, right: int, bottom: int)

  /** `Rect.offset(dx, dy)`: moves left and right by `dx`, top and bottom by `dy`. */
  function Offset(r: Rect, dx: int, dy: int): Rect {
    Rect(r.left + dx, r.top + dy, r.right + dx, r.bottom + dy)
  }

  /**
   * An arc component. `notchs` and `notchsLength` are meaningful only when
   * `isNotchs`; `visible` is the view visibility (VISIBLE or INVISIBLE).
   */
  datatype Arc = Arc(
    isNotchs: bool,
    angleStart: real,
    angleSweep: real,
    angleDraw: real,
    strokeSize: real,
    strokeColor: int,
    notchs: int,
    notchsLength: real,
    padding: Rect,
    visible: bool)

  /**
   * A newly created component: visible, with zero padding and a zero draw
   * angle. The gauge later gives it its angles and style, and the draw angle
   * only when it is the progress component, so the base and notch-slot
   * components keep the draw angle 0.
   */
  function NewArc(isNotchs: bool): (a: Arc)
    ensures a.isNotchs == isNotchs && a.visible && a.padding == Rect(0, 0, 0, 0)
    ensures a.angleDraw == 0.0
  {
    Arc(isNotchs, 0.0, 0.0, 0.0, 0.0, 0, 0, 0.0, Rect(0, 0, 0, 0), true)
  }
}
