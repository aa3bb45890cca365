/**
 * The expression-only parts of the gauge: snapping an angle to the notches,
 * the stroke-size rule behind the automatic padding, the mapping between
 * angles and values of an external range, and the order in which the three
 * components are drawn.
 */
module GaugeGeometry {
  import opened Widget
  import opened Arcs

  // Slots of the three components, in the order the gauge lists them.
  const BASE: nat := 0
  const NOTCHS: nat := 1
  const PROGRESS: nat := 2

  // ---------------------------------------------------------------------------
  // Notch snapping

  /** The angular distance between two notches. */
  function NotchDelta(sweep: real, count: int): real
    requires count != 0
  {
    sweep / count as real
  }

  /**
   * `snapToNotchs`: rounds `degrees` to the nearest multiple of the notch
   * spacing. With a zero sweep the spacing is zero and the float arithmetic
   * of the source yields 0 whatever the input; a zero count is excluded.
   */
  function SnapToNotchs(degrees: real, sweep: real, count: int): (r: real)
    requires count != 0
    ensures sweep == 0.0 ==> r == 0.0
    ensures sweep != 0.0 ==> IsInteger(r / NotchDelta(sweep, count))
    ensures sweep != 0.0 ==> Abs(r - degrees) <= Abs(NotchDelta(sweep, count)) / 2.0
  {
    var delta := NotchDelta(sweep, count);
    if sweep == 0.0 then
      0.0
    else
      DeltaNonZero(sweep, count);
      var k := Round(degrees / delta);
      var r := k as real * delta;
      WholeIsInteger(k);
      SnapBounds(degrees, delta, k as real, r);
      r
  }

  lemma DeltaNonZero(sweep: real, count: int)
    requires count != 0 && sweep != 0.0
    ensures NotchDelta(sweep, count) != 0.0
  {
    MulDivCancel(sweep, count as real);
  }

  lemma WholeIsInteger(k: int)
    ensures IsInteger(k as real)
  {
  }

  lemma RoundOfWhole(x: real, k: int)
    requires x == k as real
    ensures Round(x) == k
  {
  }

  /** The arithmetic behind `SnapToNotchs`: `k * delta` is a whole number of
      spacings and lies within half a spacing of `degrees`. */
  lemma SnapBounds(degrees: real, delta: real, k: real, r: real)
    requires delta != 0.0 && IsInteger(k) && r == k * delta
    requires degrees / delta - 0.5 < k <= degrees / delta + 0.5
    ensures IsInteger(r / delta)
    ensures Abs(r - degrees) <= Abs(delta) / 2.0
  {
    var q := degrees / delta;
    MulDivCancel(k, delta);
    SameInteger(r / delta, k);
    MulDivCancel(degrees, delta);
    AbsScale(k - q, delta, r - degrees);
    BoundByHalf(Abs(r - degrees), Abs(k - q), Abs(delta));
  }

  lemma SameInteger(x: real, y: real)
    requires x == y && IsInteger(y)
    ensures IsInteger(x)
  {
  }

  lemma MulDivCancel(x: real, d: real)
    requires d != 0.0
    ensures (x * d) / d == x && (x / d) * d == x
  {
  }

  /** `|u * d| == |u| * |d|`, stated for any expression `e` equal to `u * d`. */
  lemma AbsScale(u: real, d: real, e: real)
    requires e == u * d
    ensures Abs(e) == Abs(u) * Abs(d)
  {
    if u < 0.0 && d < 0.0 {
      assert e == (-u) * (-d);
    } else if u < 0.0 {
      assert -e == (-u) * d;
    } else if d < 0.0 {
      assert -e == u * (-d);
    }
  }

  lemma MulMonotone(a: real, b: real, c: real)
    requires a <= b && 0.0 <= c
    ensures a * c <= b * c
  {
  }

  lemma BoundByHalf(x: real, a: real, d: real)
    requires x == a * d && a <= 0.5 && 0.0 <= d
    ensures x <= d / 2.0
  {
    MulMonotone(a, 0.5, d);
  }

  lemma ScaledOrder(x: real, y: real, a: real, b: real, d: real)
    requires x == a * d && y == b * d && a <= b && 0.0 <= d
    ensures x <= y
  {
    MulMonotone(a, b, d);
  }

  /**
   * The snapped angle is a nearest multiple of the spacing: no multiple
   * `j * delta` is closer to `degrees`.
   */
  lemma {:induction false} SnapIsNearest(degrees: real, sweep: real, count: int, j: int)
    requires count != 0 && sweep != 0.0
    ensures Abs(SnapToNotchs(degrees, sweep, count) - degrees)
         <= Abs(j as real * NotchDelta(sweep, count) - degrees)
  {
    var delta := NotchDelta(sweep, count);
    DeltaNonZero(sweep, count);
    var k := Round(degrees / delta);
    NearestMultiple(degrees, delta, k, j, SnapToNotchs(degrees, sweep, count));
  }

  lemma NearestMultiple(degrees: real, delta: real, k: int, j: int, r: real)
    requires delta != 0.0 && k == Round(degrees / delta) && r == k as real * delta
    ensures Abs(r - degrees) <= Abs(j as real * delta - degrees)
  {
    NearestInteger(degrees / delta, k, j);
    NearestScaled(degrees, delta, k as real, j as real, r, j as real * delta);
  }

  /** Scaling by a non-zero `delta` keeps the nearer of two multiples nearer. */
  lemma NearestScaled(degrees: real, delta: real, k: real, j: real, r: real, s: real)
    requires delta != 0.0 && r == k * delta && s == j * delta
    requires Abs(k - degrees / delta) <= Abs(j - degrees / delta)
    ensures Abs(r - degrees) <= Abs(s - degrees)
  {
    var q := degrees / delta;
    MulDivCancel(degrees, delta);
    AbsScale(k - q, delta, r - degrees);
    AbsScale(j - q, delta, s - degrees);
    ScaledOrder(Abs(r - degrees), Abs(s - degrees), Abs(k - q), Abs(j - q), Abs(delta));
  }

  /** An integer within half of `q` is at least as close to `q` as any other. */
  lemma NearestInteger(q: real, k: int, j: int)
    requires q - 0.5 < k as real <= q + 0.5
    ensures Abs(k as real - q) <= Abs(j as real - q)
  {
    if j < k {
      assert j as real <= k as real - 1.0;
    } else if j > k {
      assert j as real >= k as real + 1.0;
    }
  }

  /** Snapping an angle that is already on a notch leaves it there. */
  lemma {:induction false} SnapIdempotent(degrees: real, sweep: real, count: int)
    requires count != 0
    ensures SnapToNotchs(SnapToNotchs(degrees, sweep, count), sweep, count)
         == SnapToNotchs(degrees, sweep, count)
  {
    if sweep != 0.0 {
      var delta := NotchDelta(sweep, count);
      DeltaNonZero(sweep, count);
      MultipleIsFixed(delta, Round(degrees / delta), SnapToNotchs(degrees, sweep, count));
    }
  }

  /** A whole multiple of `delta` rounds back to itself. */
  lemma MultipleIsFixed(delta: real, k: int, r: real)
    requires delta != 0.0 && r == k as real * delta
    ensures Round(r / delta) as real * delta == r
  {
    MulDivCancel(k as real, delta);
    RoundOfWhole(r / delta, k);
  }

  // ---------------------------------------------------------------------------
  // Stroke-size rule and padding

  /** `getStrokeSize`: the thickness a component claims in the padding budget. */
  function StrokeSize(a: Arc): real {
    if a.isNotchs then a.notchsLength else a.strokeSize
  }

  /** A notch component claims its notch length whatever its stroke width, and
      a plain arc its stroke width whatever its notch length. */
  lemma StrokeSizeIgnoresOther(a: Arc, w: real)
    ensures a.isNotchs ==> StrokeSize(a.(strokeSize := w)) == StrokeSize(a) == a.notchsLength
    ensures !a.isNotchs ==> StrokeSize(a.(notchsLength := w)) == StrokeSize(a) == a.strokeSize
  {
  }

  /** `findMaxStrokeSize`: the largest claim among the three components. */
  function MaxStrokeSize(arcs: seq<Arc>): (m: real)
    requires |arcs| == 3
    ensures forall i | 0 <= i < 3 :: StrokeSize(arcs[i]) <= m
    ensures exists i | 0 <= i < 3 :: StrokeSize(arcs[i]) == m
  {
    var m := FindMaxValue(StrokeSize(arcs[BASE]), StrokeSize(arcs[NOTCHS]), StrokeSize(arcs[PROGRESS]));
    assert StrokeSize(arcs[0]) == m || StrokeSize(arcs[1]) == m || StrokeSize(arcs[2]) == m;
    m
  }

  /** The automatic inset of one component: the view padding moved inwards by
      half the difference between the thickest claim and its own. */
  function AutoPadding(view: Rect, maxSize: real, a: Arc): (p: Rect)
    ensures p.top - view.top == p.right - view.right == p.bottom - view.bottom == p.left - view.left
    ensures Abs((p.left - view.left) as real - (maxSize - StrokeSize(a)) / 2.0) <= 0.5
  {
    var d := Round((maxSize - StrokeSize(a)) / 2.0);
    Offset(view, d, d)
  }

  /** The offset added to every side of the view padding. */
  function PaddingShift(view: Rect, p: Rect): int {
    p.left - view.left
  }

  /**
   * Every side of the automatic inset equals the view padding plus the same
   * non-negative shift `round((max - s) / 2)`, so no component ends up
   * closer to the edge than the view padding.
   */
  lemma AutoPaddingAtLeastView(view: Rect, maxSize: real, a: Arc)
    requires StrokeSize(a) <= maxSize
    ensures var p := AutoPadding(view, maxSize, a);
      var d := Round((maxSize - StrokeSize(a)) / 2.0);
      && d >= 0
      && p == Rect(view.left + d, view.top + d, view.right + d, view.bottom + d)
  {
  }

  /** The thickest component gets exactly the view padding. */
  lemma AutoPaddingOfThickest(view: Rect, a: Arc)
    ensures AutoPadding(view, StrokeSize(a), a) == view
  {
  }

  /**
   * The strokes are centred on one line: thickness plus twice the shift is
   * the thickest claim, up to the one pixel lost to rounding.
   */
  lemma AutoPaddingCentres(view: Rect, maxSize: real, a: Arc)
    ensures var d := PaddingShift(view, AutoPadding(view, maxSize, a));
      Abs(StrokeSize(a) + 2.0 * d as real - maxSize) <= 1.0
  {
  }

  // ---------------------------------------------------------------------------
  // Angle <-> value mapping

  /**
   * `translateAngleToValue`: the share of the progress sweep covered by
   * `angle` (limited to the sweep), scaled to the width of the range. The
   * start of the range is not added back.
   */
  function TranslateAngleToValue(angle: real, sweep: real, startRange: real, endRange: real): (r: real)
    ensures sweep == 0.0 ==> r == 0.0
    ensures Between(r, 0.0, endRange - startRange)
  {
    var a := ValueRangeLimit(angle, 0.0, sweep);
    if sweep != 0.0 then
      RatioInUnit(a, sweep);
      ScaleBetween(a / sweep, endRange - startRange);
      (a / sweep) * (endRange - startRange)
    else
      0.0
  }

  lemma RatioInUnit(a: real, sweep: real)
    requires sweep != 0.0 && Between(a, 0.0, sweep)
    ensures 0.0 <= a / sweep <= 1.0
  {
    if sweep > 0.0 {
      PositiveRatioInUnit(a, sweep);
    } else {
      PositiveRatioInUnit(-a, -sweep);
      var t := a / sweep;
      var u := (-a) / (-sweep);
      assert t * sweep == a;
      assert u * sweep == a;
      assert (t - u) * sweep == 0.0;
    }
  }

  lemma PositiveRatioInUnit(a: real, s: real)
    requires 0.0 < s && 0.0 <= a <= s
    ensures 0.0 <= a / s <= 1.0
  {
    MulDivCancel(a, s);
  }

  lemma ScaleBetween(t: real, w: real)
    requires 0.0 <= t <= 1.0
    ensures Between(t * w, 0.0, w)
  {
    if w >= 0.0 {
      MulMonotone(t, 1.0, w);
    } else {
      MulMonotone(t, 1.0, -w);
      assert t * w == -(t * (-w));
    }
  }

  /** The ends of the sweep map to 0 and to `end - start`, not to the range's
      own ends. */
  lemma TranslateAngleToValueEnds(sweep: real, startRange: real, endRange: real)
    requires sweep != 0.0
    ensures TranslateAngleToValue(0.0, sweep, startRange, endRange) == 0.0
    ensures TranslateAngleToValue(sweep, sweep, startRange, endRange) == endRange - startRange
  {
    assert ValueRangeLimit(sweep, 0.0, sweep) == sweep;
    assert sweep / sweep == 1.0;
  }

  /**
   * The angle `setValue(value, startRange, endRange)` passes on: the value
   * limited to the range, as a share of the range, scaled to the sweep; 0
   * when the range is empty. It always lies within the sweep.
   */
  function AngleForValue(value: real, startRange: real, endRange: real, sweep: real): (r: real)
    ensures endRange == startRange ==> r == 0.0
    ensures Between(r, 0.0, sweep)
  {
    var v := ValueRangeLimit(value, startRange, endRange);
    if endRange == startRange then
      0.0
    else
      RatioInUnit(v - startRange, endRange - startRange);
      ScaleBetween((v - startRange) / (endRange - startRange), sweep);
      ((v - startRange) / (endRange - startRange)) * sweep
  }

  /**
   * Round trip through the two mappings: a value inside the range comes back
   * less the start of the range (so exactly when the range starts at 0).
   */
  lemma {:induction false} ValueRoundTrip(value: real, startRange: real, endRange: real, sweep: real)
    requires sweep != 0.0 && startRange != endRange
    requires Between(value, startRange, endRange)
    ensures TranslateAngleToValue(AngleForValue(value, startRange, endRange, sweep), sweep, startRange, endRange)
         == value - startRange
  {
    var w := endRange - startRange;
    var t := (value - startRange) / w;
    var angle := AngleForValue(value, startRange, endRange, sweep);
    assert angle == t * sweep;
    assert ValueRangeLimit(angle, 0.0, sweep) == angle;
    MulDivCancel(t, sweep);
    MulDivCancel(value - startRange, w);
  }

  // ---------------------------------------------------------------------------
  // Draw order

  /** The order of the slots after the optional swap of notches and progress. */
  function DrawOrder(notchsForLast: bool): (o: seq<nat>)
    ensures |o| == 3 && o[0] == BASE
    ensures o[2] == if notchsForLast then NOTCHS else PROGRESS
    ensures forall k: nat :: k in o <==> k < 3
    ensures Distinct(o)
  {
    if notchsForLast then [BASE, PROGRESS, NOTCHS] else [BASE, NOTCHS, PROGRESS]
  }

  /** No slot is listed twice. */
  predicate Distinct(s: seq<nat>) {
    forall i, j | 0 <= i < j < |s| :: s[i] != s[j]
  }

  /** The slots of `order` whose component is visible, in the same order. */
  function VisibleOnly(order: seq<nat>, arcs: seq<Arc>): seq<nat>
    requires forall i | 0 <= i < |order| :: order[i] < |arcs|
  {
    if order == [] then []
    else
      var last := order[|order| - 1];
      VisibleOnly(order[..|order| - 1], arcs) + (if arcs[last].visible then [last] else [])
  }

  /** The slots `onDraw` draws, first to last. */
  function DrawSequence(arcs: seq<Arc>, notchsForLast: bool): (s: seq<nat>)
    requires |arcs| == 3
    ensures Distinct(s) && |s| <= 3
    ensures forall i | 0 <= i < |s| :: s[i] < 3 && arcs[s[i]].visible
  {
    var s := VisibleOnly(DrawOrder(notchsForLast), arcs);
    VisibleOnlyDistinct(DrawOrder(notchsForLast), arcs);
    VisibleOnlyLength(DrawOrder(notchsForLast), arcs);
    VisibleOnlyElements(DrawOrder(notchsForLast), arcs);
    s
  }

  lemma {:induction false} VisibleOnlyElements(order: seq<nat>, arcs: seq<Arc>)
    requires forall i | 0 <= i < |order| :: order[i] < |arcs|
    ensures forall i | 0 <= i < |VisibleOnly(order, arcs)| ::
      VisibleOnly(order, arcs)[i] in order && arcs[VisibleOnly(order, arcs)[i]].visible
  {
    if order != [] {
      var init := order[..|order| - 1];
      var last := order[|order| - 1];
      VisibleOnlyElements(init, arcs);
      var prefix := VisibleOnly(init, arcs);
      var s := VisibleOnly(order, arcs);
      assert s == prefix + (if arcs[last].visible then [last] else []);
      forall i | 0 <= i < |s|
        ensures s[i] in order && arcs[s[i]].visible
      {
        if i < |prefix| {
          assert s[i] == prefix[i] && prefix[i] in init;
          assert order == init + [last];
        }
      }
    }
  }

  /** Filtering a list without repeats gives a list without repeats. */
  lemma {:induction false} VisibleOnlyDistinct(order: seq<nat>, arcs: seq<Arc>)
    requires forall i | 0 <= i < |order| :: order[i] < |arcs|
    requires Distinct(order)
    ensures Distinct(VisibleOnly(order, arcs))
  {
    if order != [] {
      var init := order[..|order| - 1];
      var last := order[|order| - 1];
      VisibleOnlyDistinct(init, arcs);
      VisibleOnlyMembers(init, arcs, last);
      assert last !in init;
    }
  }

  lemma {:induction false} VisibleOnlyMembers(order: seq<nat>, arcs: seq<Arc>, k: nat)
    requires forall i | 0 <= i < |order| :: order[i] < |arcs|
    ensures k in VisibleOnly(order, arcs) <==> k in order && arcs[k].visible
  {
    if order != [] {
      VisibleOnlyMembers(order[..|order| - 1], arcs, k);
      assert order == order[..|order| - 1] + [order[|order| - 1]];
    }
  }

  /** A slot is drawn exactly when its component is visible. */
  lemma DrawSequenceMembers(arcs: seq<Arc>, notchsForLast: bool, k: nat)
    requires |arcs| == 3
    ensures k in DrawSequence(arcs, notchsForLast) <==> k < 3 && arcs[k].visible
    ensures |DrawSequence(arcs, notchsForLast)| <= 3
  {
    VisibleOnlyMembers(DrawOrder(notchsForLast), arcs, k);
    VisibleOnlyLength(DrawOrder(notchsForLast), arcs);
  }

  lemma {:induction false} VisibleOnlyLength(order: seq<nat>, arcs: seq<Arc>)
    requires forall i | 0 <= i < |order| :: order[i] < |arcs|
    ensures |VisibleOnly(order, arcs)| <= |order|
  {
    if order != [] {
      VisibleOnlyLength(order[..|order| - 1], arcs);
    }
  }

  /**
   * The base arc is drawn first whenever visible; with `notchsForLast` a
   * visible notch component is drawn last, otherwise a visible progress arc is.
   */
  lemma DrawSequenceEnds(arcs: seq<Arc>, notchsForLast: bool)
    requires |arcs| == 3
    ensures var s := DrawSequence(arcs, notchsForLast);
      && (arcs[BASE].visible ==> |s| > 0 && s[0] == BASE)
      && (notchsForLast && arcs[NOTCHS].visible ==> |s| > 0 && s[|s| - 1] == NOTCHS)
      && (!notchsForLast && arcs[PROGRESS].visible ==> |s| > 0 && s[|s| - 1] == PROGRESS)
  {
    var o := DrawOrder(notchsForLast);
    var first := if arcs[o[0]].visible then [o[0]] else [];
    var second := if arcs[o[1]].visible then [o[1]] else [];
    var third := if arcs[o[2]].visible then [o[2]] else [];
    assert o[..2][..1] == o[..1] && o[..1][..0] == [] && o[..2] == o[..3][..2];
    assert VisibleOnly(o[..1], arcs) == first;
    assert VisibleOnly(o[..2], arcs) == first + second;
    assert o[..3] == o;
    assert DrawSequence(arcs, notchsForLast) == first + second + third;
  }
}
