/**
 * The gauge: three components (base arc, notches, progress arc) sharing one
 * angular space, the settings they are built from, and the operations that
 * keep them in step.
 */
module Gauge {
  import opened Widget
  import opened Arcs
  import opened GaugeGeometry
  import opened InstanceState

  datatype Option<T> = None | Some(value: T)

  /** One request made to the value animator: animate from `from` to `to`. */
  datatype Animation = Animation(from: real, to: real)

  /**
   * The custom padding listener. It receives the three padding holders, each
   * holding the view padding, and hands back what it filled into them.
   */
  type PaddingListener = (Rect, Rect, Rect) -> (Rect, Rect, Rect)

  /** The attribute values the gauge is initialised with. */
  datatype Attributes = Attributes(
    angleStart: real,
    angleSweep: real,
    strokeSize: real,
    strokeColor: int,
    progressSize: real,
    progressColor: int,
    notchsSize: real,
    notchsColor: int,
    notchsCount: int,
    notchsLength: real,
    snapToNotchs: bool,
    value: real)

  class ScGauge {
    // Settings
    var angleStart: real
    var angleSweep: real
    var angleDraw: real
    var strokeSize: real
    var strokeColor: int
    var progressSize: real
    var progressColor: int
    var notchsSize: real
    var notchsColor: int
    var notchsCount: int
    var notchsLength: real
    var snapToNotchs: bool

    // The components, at slots BASE, NOTCHS and PROGRESS
    var arcs: seq<Arc>

    var drawNotchsForLast: bool
    var customPadding: Option<PaddingListener>
    // The padding of the gauge view itself
    var viewPadding: Rect
    // Every animation started, oldest first
    var animations: seq<Animation>
    // A new layout pass was asked for
    var layoutRequested: bool
    // A redraw was asked for
    var invalidated: bool

    ghost predicate Valid()
      reads this
    {
      |arcs| == 3
    }

    /** Every component spans the gauge's own angles. */
    ghost predicate InSync()
      reads this
      requires Valid()
    {
      forall i | 0 <= i < 3 :: arcs[i].angleStart == angleStart && arcs[i].angleSweep == angleSweep
    }

    /**
     * `arcObjectSetter`: a component configured from the gauge settings. A
     * notch component takes the notch style over the base style unless it is
     * the progress component; padding, visibility and type are kept.
     */
    function ArcObjectSetter(arc: Arc, isProgress: bool): (r: Arc)
      reads this
      ensures r.isNotchs == arc.isNotchs && r.padding == arc.padding && r.visible == arc.visible
      ensures r.angleStart == angleStart && r.angleSweep == angleSweep
      ensures r.angleDraw == if isProgress then angleDraw else arc.angleDraw
      ensures r.strokeSize == if isProgress then progressSize
                              else if arc.isNotchs then notchsSize else strokeSize
      ensures r.strokeColor == if isProgress then progressColor
                               else if arc.isNotchs then notchsColor else strokeColor
      ensures arc.isNotchs ==> r.notchs == notchsCount && r.notchsLength == notchsLength
      ensures !arc.isNotchs ==> r.notchs == arc.notchs && r.notchsLength == arc.notchsLength
    {
      var common := arc.(
        angleStart := angleStart,
        angleSweep := angleSweep,
        strokeSize := if isProgress then progressSize else strokeSize,
        strokeColor := if isProgress then progressColor else strokeColor);
      var drawn := if isProgress then common.(angleDraw := angleDraw) else common;
      if drawn.isNotchs then
        drawn.(
          strokeSize := if isProgress then progressSize else notchsSize,
          strokeColor := if isProgress then progressColor else notchsColor,
          notchs := notchsCount,
          notchsLength := notchsLength)
      else
        drawn
    }

    /**
     * `init` after the attributes are read: the initial value is snapped when
     * snapping is on, and the three components are a plain base arc, a notch
     * component and a plain progress arc, each configured from the settings.
     */
    constructor (attrs: Attributes, padding: Rect)
      requires attrs.snapToNotchs ==> attrs.notchsCount != 0
      ensures Valid() && InSync()
      ensures angleDraw == if attrs.snapToNotchs
                           then SnapToNotchs(attrs.value, attrs.angleSweep, attrs.notchsCount)
                           else attrs.value
      ensures arcs == [ArcObjectSetter(NewArc(false), false),
                       ArcObjectSetter(NewArc(true), false),
                       ArcObjectSetter(NewArc(false), true)]
      ensures angleStart == attrs.angleStart && angleSweep == attrs.angleSweep
      ensures strokeSize == attrs.strokeSize && strokeColor == attrs.strokeColor
      ensures progressSize == attrs.progressSize && progressColor == attrs.progressColor
      ensures notchsSize == attrs.notchsSize && notchsColor == attrs.notchsColor
      ensures notchsCount == attrs.notchsCount && notchsLength == attrs.notchsLength
      ensures snapToNotchs == attrs.snapToNotchs
      ensures StrokeSize(arcs[BASE]) == attrs.strokeSize
      ensures StrokeSize(arcs[NOTCHS]) == attrs.notchsLength
      ensures StrokeSize(arcs[PROGRESS]) == attrs.progressSize
      ensures arcs[PROGRESS].angleDraw == angleDraw
      ensures viewPadding == padding && !layoutRequested && !invalidated
      ensures !drawNotchsForLast && customPadding.None? && animations == []
    {
      angleStart := attrs.angleStart;
      angleSweep := attrs.angleSweep;
      strokeSize := attrs.strokeSize;
      strokeColor := attrs.strokeColor;
      progressSize := attrs.progressSize;
      progressColor := attrs.progressColor;
      notchsSize := attrs.notchsSize;
      notchsColor := attrs.notchsColor;
      notchsCount := attrs.notchsCount;
      notchsLength := attrs.notchsLength;
      snapToNotchs := attrs.snapToNotchs;
      angleDraw := if attrs.snapToNotchs
                   then SnapToNotchs(attrs.value, attrs.angleSweep, attrs.notchsCount)
                   else attrs.value;
      drawNotchsForLast := false;
      customPadding := None;
      viewPadding := padding;
      animations := [];
      layoutRequested := false;
      invalidated := false;
      new;
      arcs := [ArcObjectSetter(NewArc(false), false),
               ArcObjectSetter(NewArc(true), false),
               ArcObjectSetter(NewArc(false), true)];
    }

    // -------------------------------------------------------------------------
    // Padding

    /**
     * `fixArcsPadding`: with a custom listener, each component takes exactly
     * the rectangle the listener produced; otherwise each takes the view
     * padding shifted by half its shortfall against the thickest component.
     * Nothing but the paddings changes.
     */
    method FixArcsPadding()
      requires Valid()
      modifies this`arcs
      ensures Valid()
      ensures forall i | 0 <= i < 3 :: arcs[i] == old(arcs[i]).(padding := arcs[i].padding)
      ensures customPadding.Some? ==>
        customPadding.value(viewPadding, viewPadding, viewPadding)
          == (arcs[BASE].padding, arcs[NOTCHS].padding, arcs[PROGRESS].padding)
      ensures customPadding.None? ==>
        forall i | 0 <= i < 3 ::
          arcs[i].padding == AutoPadding(viewPadding, MaxStrokeSize(old(arcs)), old(arcs[i]))
    {
      var baseRect := viewPadding;
      var notchsRect := baseRect;
      var progressRect := baseRect;
      match customPadding {
        case Some(listener) =>
          var (b, n, p) := listener(baseRect, notchsRect, progressRect);
          baseRect, notchsRect, progressRect := b, n, p;
        case None =>
          var maxSize := MaxStrokeSize(arcs);
          var basePadding := Round((maxSize - StrokeSize(arcs[BASE])) / 2.0);
          var notchsPadding := Round((maxSize - StrokeSize(arcs[NOTCHS])) / 2.0);
          var progressPadding := Round((maxSize - StrokeSize(arcs[PROGRESS])) / 2.0);
          baseRect := Offset(baseRect, basePadding, basePadding);
          notchsRect := Offset(notchsRect, notchsPadding, notchsPadding);
          progressRect := Offset(progressRect, progressPadding, progressPadding);
      }
      arcs := [arcs[BASE].(padding := baseRect),
               arcs[NOTCHS].(padding := notchsRect),
               arcs[PROGRESS].(padding := progressRect)];
    }

    // -------------------------------------------------------------------------
    // Drawing and animation

    /**
     * `onDraw`: the slots drawn, in drawing order. The slot list is copied,
     * the notches and progress entries are swapped when the notches go last,
     * and invisible components are skipped.
     */
    method Draw() returns (drawn: seq<nat>)
      requires Valid()
      ensures drawn == DrawSequence(arcs, drawNotchsForLast)
    {
      var copy := new nat[3];
      copy[0], copy[1], copy[2] := BASE, NOTCHS, PROGRESS;
      if drawNotchsForLast {
        SwapArrayPosition(copy, NOTCHS, PROGRESS);
      }
      assert copy[..] == DrawOrder(drawNotchsForLast);
      drawn := [];
      for i := 0 to 3
        invariant drawn == VisibleOnly(copy[..i], arcs)
      {
        if arcs[copy[i]].visible {
          drawn := drawn + [copy[i]];
        }
        assert copy[..i + 1][..i] == copy[..i];
      }
      assert copy[..3] == copy[..];
    }

    /** `onAnimationUpdate`: one animation tick sets the progress component's
        draw angle and asks for a redraw; nothing else changes. */
    method OnAnimationUpdate(degrees: real)
      requires Valid()
      modifies this`arcs, this`invalidated
      ensures Valid() && invalidated
      ensures arcs == old(arcs)[PROGRESS := old(arcs[PROGRESS]).(angleDraw := degrees)]
    {
      arcs := arcs[PROGRESS := arcs[PROGRESS].(angleDraw := degrees)];
      invalidated := true;
    }

    // -------------------------------------------------------------------------
    // Value

    /** The angle `setValue` works with: snapped to the notches when snapping is on. */
    function SnapTarget(degrees: real): (r: real)
      reads this
      requires snapToNotchs ==> notchsCount != 0
      ensures !snapToNotchs ==> r == degrees
      ensures snapToNotchs && angleSweep != 0.0 ==>
        && IsInteger(r / NotchDelta(angleSweep, notchsCount))
        && Abs(r - degrees) <= Abs(NotchDelta(angleSweep, notchsCount)) / 2.0
      ensures snapToNotchs && angleSweep == 0.0 ==> r == 0.0
    {
      if snapToNotchs then SnapToNotchs(degrees, angleSweep, notchsCount) else degrees
    }

    /** `getValue()`: the progress value in degrees. */
    function GetValue(): real
      reads this
    {
      angleDraw
    }

    /**
     * `setValue(degrees)`: when the (snapped) angle differs from the stored
     * one, the stored value becomes that angle, unlimited, and one animation is
     * started from it towards the same angle limited to the sweep. An
     * unchanged angle starts no animation.
     */
    method SetValue(degrees: real)
      requires snapToNotchs ==> notchsCount != 0
      modifies this`angleDraw, this`animations
      ensures angleDraw == SnapTarget(degrees)
      ensures old(angleDraw) == SnapTarget(degrees) ==> animations == old(animations)
      ensures old(angleDraw) != SnapTarget(degrees) ==>
        animations == old(animations)
          + [Animation(SnapTarget(degrees), ValueRangeLimit(SnapTarget(degrees), 0.0, angleSweep))]
    {
      var target := degrees;
      if snapToNotchs {
        target := SnapToNotchs(target, angleSweep, notchsCount);
      }
      if angleDraw != target {
        angleDraw := target;
        animations := animations + [Animation(angleDraw, ValueRangeLimit(target, 0.0, angleSweep))];
      }
    }

    /**
     * `getValue(startRange, endRange)`: the progress value translated to the
     * range, through the progress component's own sweep.
     */
    function GetValueInRange(startRange: real, endRange: real): (r: real)
      reads this
      requires Valid()
      ensures arcs[PROGRESS].angleSweep == 0.0 ==> r == 0.0
      ensures Between(r, 0.0, endRange - startRange)
    {
      TranslateAngleToValue(angleDraw, arcs[PROGRESS].angleSweep, startRange, endRange)
    }

    /**
     * `setValue(value, startRange, endRange)`: maps the value onto the sweep
     * and sets that angle. Without snapping, reading the value back in the same
     * range gives the value less the start of the range.
     */
    method SetValueInRange(value: real, startRange: real, endRange: real)
      requires Valid()
      requires snapToNotchs ==> notchsCount != 0
      modifies this`angleDraw, this`animations
      ensures Valid()
      ensures angleDraw == SnapTarget(AngleForValue(value, startRange, endRange, angleSweep))
      ensures old(angleDraw) == angleDraw ==> animations == old(animations)
      ensures old(angleDraw) != angleDraw ==>
        animations == old(animations) + [Animation(angleDraw, ValueRangeLimit(angleDraw, 0.0, angleSweep))]
      ensures !snapToNotchs && InSync() && angleSweep != 0.0 && startRange != endRange
              && Between(value, startRange, endRange)
              ==> GetValueInRange(startRange, endRange) == value - startRange
    {
      SetValue(AngleForValue(value, startRange, endRange, angleSweep));
      if !snapToNotchs && InSync() && angleSweep != 0.0 && startRange != endRange
         && Between(value, startRange, endRange) {
        ValueRoundTrip(value, startRange, endRange, angleSweep);
      }
    }

    /** `setSnapToNotchs`: stores the flag and sets the current value again. */
    method SetSnapToNotchs(value: bool)
      requires value ==> notchsCount != 0
      modifies this`snapToNotchs, this`angleDraw, this`animations
      ensures snapToNotchs == value
      ensures angleDraw == SnapTarget(old(angleDraw))
      ensures old(angleDraw) == angleDraw ==> animations == old(animations)
      ensures old(angleDraw) != angleDraw ==>
        animations == old(animations) + [Animation(angleDraw, ValueRangeLimit(angleDraw, 0.0, angleSweep))]
    {
      snapToNotchs := value;
      SetValue(GetValue());
    }

    // -------------------------------------------------------------------------
    // Setters of the shared angles

    /** `setAngleStart`: a new start angle goes to the gauge and every component. */
    method SetAngleStart(value: int)
      requires Valid()
      modifies this`angleStart, this`arcs, this`layoutRequested
      ensures Valid() && (old(InSync()) ==> InSync())
      ensures old(angleStart) == value as real ==>
        angleStart == old(angleStart) && arcs == old(arcs) && layoutRequested == old(layoutRequested)
      ensures old(angleStart) != value as real ==>
        && angleStart == value as real && layoutRequested
        && forall i | 0 <= i < 3 :: arcs[i] == old(arcs[i]).(angleStart := value as real)
    {
      if angleStart != value as real {
        angleStart := value as real;
        for i := 0 to 3
          invariant angleStart == value as real
          invariant |arcs| == 3
          invariant forall k | 0 <= k < i :: arcs[k] == old(arcs[k]).(angleStart := value as real)
          invariant forall k | i <= k < 3 :: arcs[k] == old(arcs[k])
        {
          arcs := arcs[i := arcs[i].(angleStart := value as real)];
        }
        layoutRequested := true;
      }
    }

    /** `setAngleSweep`: a new sweep goes to the gauge and every component. */
    method SetAngleSweep(value: int)
      requires Valid()
      modifies this`angleSweep, this`arcs, this`layoutRequested
      ensures Valid() && (old(InSync()) ==> InSync())
      ensures old(angleSweep) == value as real ==>
        angleSweep == old(angleSweep) && arcs == old(arcs) && layoutRequested == old(layoutRequested)
      ensures old(angleSweep) != value as real ==>
        && angleSweep == value as real && layoutRequested
        && forall i | 0 <= i < 3 :: arcs[i] == old(arcs[i]).(angleSweep := value as real)
    {
      if angleSweep != value as real {
        angleSweep := value as real;
        for i := 0 to 3
          invariant angleSweep == value as real
          invariant |arcs| == 3
          invariant forall k | 0 <= k < i :: arcs[k] == old(arcs[k]).(angleSweep := value as real)
          invariant forall k | i <= k < 3 :: arcs[k] == old(arcs[k])
        {
          arcs := arcs[i := arcs[i].(angleSweep := value as real)];
        }
        layoutRequested := true;
      }
    }

    // -------------------------------------------------------------------------
    // Setters of the notch settings

    /** `setNotchs`: a new count goes to the gauge and to the notch components only. */
    method SetNotchs(value: int)
      requires Valid()
      modifies this`notchsCount, this`arcs, this`layoutRequested
      ensures Valid() && (old(InSync()) ==> InSync())
      ensures old(notchsCount) == value ==>
        notchsCount == old(notchsCount) && arcs == old(arcs) && layoutRequested == old(layoutRequested)
      ensures old(notchsCount) != value ==>
        && notchsCount == value && layoutRequested
        && forall i | 0 <= i < 3 ::
             arcs[i] == if old(arcs[i]).isNotchs then old(arcs[i]).(notchs := value) else old(arcs[i])
    {
      if notchsCount != value {
        notchsCount := value;
        for i := 0 to 3
          invariant notchsCount == value
          invariant |arcs| == 3
          invariant forall k | 0 <= k < i ::
            arcs[k] == if old(arcs[k]).isNotchs then old(arcs[k]).(notchs := value) else old(arcs[k])
          invariant forall k | i <= k < 3 :: arcs[k] == old(arcs[k])
        {
          if arcs[i].isNotchs {
            arcs := arcs[i := arcs[i].(notchs := value)];
          }
        }
        layoutRequested := true;
      }
    }

    /** `setNotchsLength`: a new length goes to the gauge and to the notch components only. */
    method SetNotchsLength(value: real)
      requires Valid()
      modifies this`notchsLength, this`arcs, this`layoutRequested
      ensures Valid() && (old(InSync()) ==> InSync())
      ensures old(notchsLength) == value ==>
        notchsLength == old(notchsLength) && arcs == old(arcs) && layoutRequested == old(layoutRequested)
      ensures old(notchsLength) != value ==>
        && notchsLength == value && layoutRequested
        && forall i | 0 <= i < 3 ::
             arcs[i] == if old(arcs[i]).isNotchs then old(arcs[i]).(notchsLength := value) else old(arcs[i])
    {
      if notchsLength != value {
        notchsLength := value;
        for i := 0 to 3
          invariant notchsLength == value
          invariant |arcs| == 3
          invariant forall k | 0 <= k < i ::
            arcs[k] == if old(arcs[k]).isNotchs then old(arcs[k]).(notchsLength := value) else old(arcs[k])
          invariant forall k | i <= k < 3 :: arcs[k] == old(arcs[k])
        {
          if arcs[i].isNotchs {
            arcs := arcs[i := arcs[i].(notchsLength := value)];
          }
        }
        layoutRequested := true;
      }
    }

    // -------------------------------------------------------------------------
    // Setters of one component's style

    /** `setStrokeSize`: the base component only. */
    method SetStrokeSize(value: real)
      requires Valid()
      modifies this`strokeSize, this`arcs, this`layoutRequested
      ensures Valid() && (old(InSync()) ==> InSync())
      ensures old(strokeSize) == value ==>
        strokeSize == old(strokeSize) && arcs == old(arcs) && layoutRequested == old(layoutRequested)
      ensures old(strokeSize) != value ==>
        && strokeSize == value && layoutRequested
        && arcs == old(arcs)[BASE := old(arcs[BASE]).(strokeSize := value)]
    {
      if strokeSize != value {
        strokeSize := value;
        arcs := arcs[BASE := arcs[BASE].(strokeSize := value)];
        layoutRequested := true;
      }
    }

    /** `setStrokeColor`: the base component only. */
    method SetStrokeColor(value: int)
      requires Valid()
      modifies this`strokeColor, this`arcs, this`invalidated
      ensures Valid() && (old(InSync()) ==> InSync())
      ensures old(strokeColor) == value ==>
        strokeColor == old(strokeColor) && arcs == old(arcs) && invalidated == old(invalidated)
      ensures old(strokeColor) != value ==>
        && strokeColor == value && invalidated
        && arcs == old(arcs)[BASE := old(arcs[BASE]).(strokeColor := value)]
    {
      if strokeColor != value {
        strokeColor := value;
        arcs := arcs[BASE := arcs[BASE].(strokeColor := value)];
        invalidated := true;
      }
    }

    /** `setProgressSize`: the progress component only. */
    method SetProgressSize(value: real)
      requires Valid()
      modifies this`progressSize, this`arcs, this`layoutRequested
      ensures Valid() && (old(InSync()) ==> InSync())
      ensures old(progressSize) == value ==>
        progressSize == old(progressSize) && arcs == old(arcs) && layoutRequested == old(layoutRequested)
      ensures old(progressSize) != value ==>
        && progressSize == value && layoutRequested
        && arcs == old(arcs)[PROGRESS := old(arcs[PROGRESS]).(strokeSize := value)]
    {
      if progressSize != value {
        progressSize := value;
        arcs := arcs[PROGRESS := arcs[PROGRESS].(strokeSize := value)];
        layoutRequested := true;
      }
    }

    /** `setProgressColor`: the progress component only. */
    method SetProgressColor(value: int)
      requires Valid()
      modifies this`progressColor, this`arcs, this`invalidated
      ensures Valid() && (old(InSync()) ==> InSync())
      ensures old(progressColor) == value ==>
        progressColor == old(progressColor) && arcs == old(arcs) && invalidated == old(invalidated)
      ensures old(progressColor) != value ==>
        && progressColor == value && invalidated
        && arcs == old(arcs)[PROGRESS := old(arcs[PROGRESS]).(strokeColor := value)]
    {
      if progressColor != value {
        progressColor := value;
        arcs := arcs[PROGRESS := arcs[PROGRESS].(strokeColor := value)];
        invalidated := true;
      }
    }

    /** `setNotchsSize`: the component in the notch slot only, whatever its type. */
    method SetNotchsSize(value: real)
      requires Valid()
      modifies this`notchsSize, this`arcs, this`layoutRequested
      ensures Valid() && (old(InSync()) ==> InSync())
      ensures old(notchsSize) == value ==>
        notchsSize == old(notchsSize) && arcs == old(arcs) && layoutRequested == old(layoutRequested)
      ensures old(notchsSize) != value ==>
        && notchsSize == value && layoutRequested
        && arcs == old(arcs)[NOTCHS := old(arcs[NOTCHS]).(strokeSize := value)]
    {
      if notchsSize != value {
        notchsSize := value;
        arcs := arcs[NOTCHS := arcs[NOTCHS].(strokeSize := value)];
        layoutRequested := true;
      }
    }

    /** `setNotchsColor`: the component in the notch slot only, whatever its type. */
    method SetNotchsColor(value: int)
      requires Valid()
      modifies this`notchsColor, this`arcs, this`invalidated
      ensures Valid() && (old(InSync()) ==> InSync())
      ensures old(notchsColor) == value ==>
        notchsColor == old(notchsColor) && arcs == old(arcs) && invalidated == old(invalidated)
      ensures old(notchsColor) != value ==>
        && notchsColor == value && invalidated
        && arcs == old(arcs)[NOTCHS := old(arcs[NOTCHS]).(strokeColor := value)]
    {
      if notchsColor != value {
        notchsColor := value;
        arcs := arcs[NOTCHS := arcs[NOTCHS].(strokeColor := value)];
        invalidated := true;
      }
    }

    // -------------------------------------------------------------------------
    // Configuration

    /** `setDrawNotchsForLast`: stores the flag, asking for a redraw on a change. */
    method SetDrawNotchsForLast(value: bool)
      modifies this`drawNotchsForLast, this`invalidated
      ensures drawNotchsForLast == value
      ensures invalidated == (old(invalidated) || old(drawNotchsForLast) != value)
    {
      if drawNotchsForLast != value {
        drawNotchsForLast := value;
        invalidated := true;
      }
    }

    /** `setOnCustomPaddingListener`: installs or removes the padding listener. */
    method SetOnCustomPaddingListener(listener: Option<PaddingListener>)
      modifies this`customPadding
      ensures customPadding == listener
    {
      customPadding := listener;
    }

    /** `show`: sets the visibility of each component; nothing else of them changes. */
    method Show(baseArc: bool, notchsArc: bool, progressArc: bool)
      requires Valid()
      modifies this`arcs, this`layoutRequested
      ensures Valid() && (old(InSync()) ==> InSync()) && layoutRequested
      ensures arcs == [old(arcs[BASE]).(visible := baseArc),
                       old(arcs[NOTCHS]).(visible := notchsArc),
                       old(arcs[PROGRESS]).(visible := progressArc)]
    {
      arcs := [arcs[BASE].(visible := baseArc),
               arcs[NOTCHS].(visible := notchsArc),
               arcs[PROGRESS].(visible := progressArc)];
      layoutRequested := true;
    }

    /**
     * `changeComponentsConfiguration`: each flag replaces one component with a
     * new one configured from the settings: a new notch component in the base
     * or progress slot, a new plain arc in the notch slot, whatever type the
     * old one had. The new one is visible and has no padding. Components not
     * named keep everything.
     */
    method ChangeComponentsConfiguration(baseArcToNotchs: bool, notchsArcToArc: bool, progressArcToNotchs: bool)
      requires Valid()
      modifies this`arcs
      ensures Valid() && (old(InSync()) ==> InSync())
      ensures arcs[BASE] == if baseArcToNotchs then ArcObjectSetter(NewArc(true), false) else old(arcs[BASE])
      ensures arcs[NOTCHS] == if notchsArcToArc then ArcObjectSetter(NewArc(false), false) else old(arcs[NOTCHS])
      ensures arcs[PROGRESS] == if progressArcToNotchs then ArcObjectSetter(NewArc(true), true) else old(arcs[PROGRESS])
      ensures baseArcToNotchs ==> arcs[BASE].isNotchs && arcs[BASE].visible
      ensures notchsArcToArc ==> !arcs[NOTCHS].isNotchs && arcs[NOTCHS].visible
      ensures progressArcToNotchs ==> arcs[PROGRESS].isNotchs && arcs[PROGRESS].visible
    {
      if baseArcToNotchs {
        arcs := arcs[BASE := ArcObjectSetter(NewArc(true), false)];
      }
      if notchsArcToArc {
        arcs := arcs[NOTCHS := ArcObjectSetter(NewArc(false), false)];
      }
      if progressArcToNotchs {
        arcs := arcs[PROGRESS := ArcObjectSetter(NewArc(true), true)];
      }
    }

    // -------------------------------------------------------------------------
    // Saved state

    /** The ten fields the instance state keeps. */
    function Saved(): SavedFields
      reads this
    {
      SavedFields(angleStart, angleSweep, angleDraw, strokeSize, strokeColor,
                  progressSize, progressColor, notchsCount, notchsLength, snapToNotchs)
    }

    /** `onSaveInstanceState`: a bundle from which the saved fields come back. */
    function SaveInstanceState(): (b: Bundle)
      reads this
      ensures b.Keys == SavedKeys
      ensures Restore(b) == Saved()
    {
      RestoreSave(Saved());
      Save(Saved())
    }

    /**
     * `onRestoreInstanceState`: the ten fields are read back from the bundle;
     * the notch size and colour and the components are left as they were.
     */
    method RestoreInstanceState(b: Bundle)
      modifies this`angleStart, this`angleSweep, this`angleDraw, this`strokeSize, this`strokeColor,
               this`progressSize, this`progressColor, this`notchsCount, this`notchsLength,
               this`snapToNotchs
      ensures Saved() == Restore(b)
    {
      var s := Restore(b);
      angleStart := s.angleStart;
      angleSweep := s.angleSweep;
      angleDraw := s.angleDraw;
      strokeSize := s.strokeSize;
      strokeColor := s.strokeColor;
      progressSize := s.progressSize;
      progressColor := s.progressColor;
      notchsCount := s.notchsCount;
      notchsLength := s.notchsLength;
      snapToNotchs := s.snapToNotchs;
    }
  }
}
