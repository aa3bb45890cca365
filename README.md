# ScGauge in Dafny

A model of `ScGauge`, an Android view that draws a gauge from three
components laid over one angular space: a base arc, a ring of notches and a
progress arc. The gauge keeps its own settings: start and sweep angle, the
current value as a draw angle, and sizes and colours per component. The
notch count and length, snapping to notches and the drawing order are
settings too. The setters of sizes, colours, angles and notch settings store
a changed setting, push it to the components it concerns and ask for a new
layout or a redraw. Setting the snapping flag sets the value again instead,
and installing a padding listener only stores it. The model proves what these
operations keep and compute:

- the snap to the nearest notch;
- the translation between a value range and the sweep;
- the padding that centres the strokes;
- the drawing order;
- the saved instance state.

Modules, one per concern of the source:

- `Widget` (`widget.dfy`): the helpers the gauge takes from its widget base
  class and from the platform. These are the range limiter, the maximum of
  three, the in-place swap of two array entries and `Math.round`. The base
  class is not part of this model; these are the behaviours the gauge relies on.
- `Arcs` (`arcs.dfy`): the padding rectangle and the component record. A
  plain arc and a notch component are one record told apart by `isNotchs`.
- `GaugeGeometry` (`gauge_geometry.dfy`): the pure computations of the gauge
  and their lemmas. These are snapping, stroke sizes and padding, the
  angle/value translation and the drawing order.
- `InstanceState` (`instance_state.dfy`): the key/value bundle written and
  read back by the save and restore of instance state.
- `Gauge` (`gauge.dfy`): class `ScGauge`, its fields and the operations that
  change them. The three components are held in `arcs`, at slots `BASE`,
  `NOTCHS` and `PROGRESS`. `InSync()` states that every component spans the
  gauge's start and sweep angles; every setter keeps it.

Where the code and its documentation differ, the model follows the code:

- `setValue(value, start, end)` followed by `getValue(start, end)` gives
  back `value - start`, not `value`. The translation from angle to value
  never adds the start of the range back. `SetValueInRange` proves that
  round trip exactly as written.
- `setValue(degrees)` stores the new angle before starting the animator. The
  animation therefore runs from the new, unlimited angle to the same angle
  limited to the sweep, not from the old value.
- The value is snapped to the notches before it is limited to the sweep.
- Restoring instance state sets the gauge's fields but does not push them to
  the components, so `InSync()` need not hold after a restore.

## Model

| member | source | states |
|---|---|---|
| Widget.Round | library/src/main/java/com/sccomponents/widgets/ScGauge.java:133 | `Math.round` returns an integer within one half of its argument (halves round up) |
| Widget.ValueRangeLimit | library/src/main/java/com/sccomponents/widgets/ScGauge.java:508 | the limited value lies between the bounds, in either order; a value already between them is unchanged; values below or above become the nearer bound |
| Widget.FindMaxValue | library/src/main/java/com/sccomponents/widgets/ScGauge.java:226-230 | the result is an upper bound of the three values and equal to one of them |
| Widget.SwapArrayPosition | library/src/main/java/com/sccomponents/widgets/ScGauge.java:352 | the array afterwards holds the two entries exchanged and every other entry unchanged |
| Arcs.NewArc | library/src/main/java/com/sccomponents/widgets/ScGauge.java:193-203 | a newly created component has the requested type, is visible, has zero padding and draw angle 0 |
| GaugeGeometry.SnapToNotchs | library/src/main/java/com/sccomponents/widgets/ScGauge.java:129-134 | with a non-zero sweep the snapped angle is a whole multiple of the notch step and within half a step of the input; with a zero sweep it is 0 |
| GaugeGeometry.SnapIsNearest | library/src/main/java/com/sccomponents/widgets/ScGauge.java:129-134 | the snapped angle is at least as close to the input as any other whole multiple of the notch step |
| GaugeGeometry.SnapIdempotent | library/src/main/java/com/sccomponents/widgets/ScGauge.java:129-134 | snapping an already snapped angle leaves it unchanged, so re-applying the setting does not move the value |
| GaugeGeometry.MaxStrokeSize | library/src/main/java/com/sccomponents/widgets/ScGauge.java:215-231 | the maximum stroke size bounds each component's size (its notch length for notch components) and is one of them |
| GaugeGeometry.AutoPaddingAtLeastView | library/src/main/java/com/sccomponents/widgets/ScGauge.java:253-266 | a component no thicker than the maximum gets a non-negative shift, applied to all four sides of the view padding |
| GaugeGeometry.AutoPaddingOfThickest | library/src/main/java/com/sccomponents/widgets/ScGauge.java:253-266 | the thickest component gets exactly the view padding |
| GaugeGeometry.AutoPaddingCentres | library/src/main/java/com/sccomponents/widgets/ScGauge.java:253-266 | a component's size plus twice its shift differs from the maximum size by at most one pixel, so strokes share one centre line |
| GaugeGeometry.TranslateAngleToValue | library/src/main/java/com/sccomponents/widgets/ScGauge.java:506-515 | a zero sweep gives 0; otherwise the value lies between 0 and the width of the range |
| GaugeGeometry.TranslateAngleToValueEnds | library/src/main/java/com/sccomponents/widgets/ScGauge.java:506-515 | with a non-zero sweep, the angle 0 gives 0 and the full sweep gives the width of the range, not the range's own ends |
| GaugeGeometry.AngleForValue | library/src/main/java/com/sccomponents/widgets/ScGauge.java:825-838 | an empty range gives 0; otherwise the angle lies between 0 and the sweep |
| GaugeGeometry.ValueRoundTrip | library/src/main/java/com/sccomponents/widgets/ScGauge.java:506-515 | translating a value of the range to an angle and back gives the value less the start of the range |
| GaugeGeometry.VisibleOnlyMembers | library/src/main/java/com/sccomponents/widgets/ScGauge.java:355-361 | a slot is kept exactly when it is in the order and its component is visible |
| GaugeGeometry.VisibleOnlyLength | library/src/main/java/com/sccomponents/widgets/ScGauge.java:355-361 | filtering never lengthens the order |
| GaugeGeometry.DrawSequenceMembers | library/src/main/java/com/sccomponents/widgets/ScGauge.java:349-361 | a slot is drawn exactly when it is one of the three and its component is visible; at most three slots are drawn |
| GaugeGeometry.DrawSequenceEnds | library/src/main/java/com/sccomponents/widgets/ScGauge.java:349-361 | a visible base is drawn first; a visible notch component is drawn last when the notches go last, the visible progress arc otherwise |
| GaugeGeometry.StrokeSizeIgnoresOther | library/src/main/java/com/sccomponents/widgets/ScGauge.java:215-218 | a notch component claims its notch length whatever its stroke width; a plain arc claims its stroke width whatever its notch length |
| GaugeGeometry.AutoPadding | library/src/main/java/com/sccomponents/widgets/ScGauge.java:258-265 | all four sides of the view padding move by the same amount, within half a pixel of half the component's shortfall against the maximum |
| GaugeGeometry.DrawOrder | library/src/main/java/com/sccomponents/widgets/ScGauge.java:349-352 | the order lists the three slots once each, base first, and the notches last exactly when they go last, the progress arc otherwise |
| GaugeGeometry.DrawSequence | library/src/main/java/com/sccomponents/widgets/ScGauge.java:349-361 | the slots drawn are visible components, none twice, at most three |
| GaugeGeometry.VisibleOnlyDistinct | library/src/main/java/com/sccomponents/widgets/ScGauge.java:355-361 | skipping invisible components from a list without repeats leaves a list without repeats |
| InstanceState.Restore | library/src/main/java/com/sccomponents/widgets/ScGauge.java:430-439 | a bundle holding none of the ten keys restores every field to 0 or false |
| Gauge.ScGauge.SnapTarget | library/src/main/java/com/sccomponents/widgets/ScGauge.java:794-797 | without snapping the angle is kept; with snapping it is a whole multiple of the notch step within half a step of the input, or 0 for a zero sweep |
| InstanceState.Save | library/src/main/java/com/sccomponents/widgets/ScGauge.java:396-417 | the bundle holds exactly the ten saved keys; the notch size and colour are not saved |
| InstanceState.RestoreSave | library/src/main/java/com/sccomponents/widgets/ScGauge.java:396-440 | restoring a saved bundle gives back all ten saved fields |
| InstanceState.RestoreReadsSavedKeysOnly | library/src/main/java/com/sccomponents/widgets/ScGauge.java:421-440 | a restore depends on the ten saved keys only |
| Gauge.ScGauge.ArcObjectSetter | library/src/main/java/com/sccomponents/widgets/ScGauge.java:102-126 | a configured component takes the gauge angles, the progress style if progress, else the notch style if a notch component, else the base style; only notch components take count and length; padding, visibility and type are kept |
| Gauge.ScGauge.constructor | library/src/main/java/com/sccomponents/widgets/ScGauge.java:184-203 | the settings and the view padding are the given ones; the initial value is snapped when snapping is on; the components are base arc, notches and progress arc, each configured, in sync, claiming stroke width, notch length and progress width; nothing is animated, laid out or redrawn yet |
| Gauge.ScGauge.FixArcsPadding | library/src/main/java/com/sccomponents/widgets/ScGauge.java:238-278 | with a listener each component takes the listener's rectangle; otherwise each takes the view padding shifted by its centring amount; nothing else of the components changes |
| Gauge.ScGauge.Draw | library/src/main/java/com/sccomponents/widgets/ScGauge.java:338-362 | the slots drawn are the drawing order (notches and progress swapped when notches go last) less the invisible components |
| Gauge.ScGauge.OnAnimationUpdate | library/src/main/java/com/sccomponents/widgets/ScGauge.java:366-377 | a tick sets only the progress component's draw angle and asks for a redraw |
| Gauge.ScGauge.SetValue | library/src/main/java/com/sccomponents/widgets/ScGauge.java:792-810 | the value becomes the (snapped) angle; exactly one animation is started, from that angle to it limited to the sweep, when it changed, none otherwise |
| Gauge.ScGauge.GetValueInRange | library/src/main/java/com/sccomponents/widgets/ScGauge.java:815-822 | the value read in a range lies between 0 and the range's width, and is 0 when the progress sweep is 0 |
| Gauge.ScGauge.SetValueInRange | library/src/main/java/com/sccomponents/widgets/ScGauge.java:825-838 | the value becomes the angle the range value maps to, with one animation started exactly when it changed; without snapping, reading back in the same range gives the value less the range start |
| Gauge.ScGauge.SetSnapToNotchs | library/src/main/java/com/sccomponents/widgets/ScGauge.java:778-783 | the flag is stored and the current value is set again under it, with one animation started exactly when that moves it |
| Gauge.ScGauge.SetAngleStart | library/src/main/java/com/sccomponents/widgets/ScGauge.java:581-593 | a changed start angle goes to the gauge and every component and asks for a layout; an unchanged one changes nothing |
| Gauge.ScGauge.SetAngleSweep | library/src/main/java/com/sccomponents/widgets/ScGauge.java:603-615 | a changed sweep goes to the gauge and every component and asks for a layout; an unchanged one changes nothing |
| Gauge.ScGauge.SetNotchs | library/src/main/java/com/sccomponents/widgets/ScGauge.java:728-744 | a changed count goes to the gauge and to the notch components only and asks for a layout |
| Gauge.ScGauge.SetNotchsLength | library/src/main/java/com/sccomponents/widgets/ScGauge.java:753-769 | a changed length goes to the gauge and to the notch components only and asks for a layout |
| Gauge.ScGauge.SetStrokeSize | library/src/main/java/com/sccomponents/widgets/ScGauge.java:624-633 | a changed size goes to the base component only and asks for a layout |
| Gauge.ScGauge.SetStrokeColor | library/src/main/java/com/sccomponents/widgets/ScGauge.java:642-651 | a changed colour goes to the base component only and asks for a redraw |
| Gauge.ScGauge.SetProgressSize | library/src/main/java/com/sccomponents/widgets/ScGauge.java:660-668 | a changed size goes to the progress component only and asks for a layout |
| Gauge.ScGauge.SetProgressColor | library/src/main/java/com/sccomponents/widgets/ScGauge.java:677-685 | a changed colour goes to the progress component only and asks for a redraw |
| Gauge.ScGauge.SetNotchsSize | library/src/main/java/com/sccomponents/widgets/ScGauge.java:694-702 | a changed size goes to the component in the notch slot only and asks for a layout |
| Gauge.ScGauge.SetNotchsColor | library/src/main/java/com/sccomponents/widgets/ScGauge.java:711-719 | a changed colour goes to the component in the notch slot only and asks for a redraw |
| Gauge.ScGauge.SetDrawNotchsForLast | library/src/main/java/com/sccomponents/widgets/ScGauge.java:559-566 | the flag is stored; a redraw is asked for exactly when it changed |
| Gauge.ScGauge.SetOnCustomPaddingListener | library/src/main/java/com/sccomponents/widgets/ScGauge.java:882-884 | the listener is installed or removed |
| Gauge.ScGauge.Show | library/src/main/java/com/sccomponents/widgets/ScGauge.java:494-502 | each component's visibility is set from its flag, nothing else of them changes, and a layout is asked for |
| Gauge.ScGauge.ChangeComponentsConfiguration | library/src/main/java/com/sccomponents/widgets/ScGauge.java:532-554 | each flagged component is replaced by a new, visible, configured component: a notch component in the base or progress slot, a plain arc in the notch slot, whatever the old one was; the others are kept whole |
| Gauge.ScGauge.SaveInstanceState | library/src/main/java/com/sccomponents/widgets/ScGauge.java:396-417 | the bundle holds the ten saved keys, and restoring it gives back the gauge's saved fields |
| Gauge.ScGauge.RestoreInstanceState | library/src/main/java/com/sccomponents/widgets/ScGauge.java:421-440 | the ten fields take the bundle's values (0 or false where missing); notch size and colour and the components are left alone |

## Left out

- Measuring and layout (`onMeasure`): view sizes, measure specs and the platform layout pass are not modelled. Asking for a layout is the flag `layoutRequested`, asking for a redraw the flag `invalidated`.
- Reading the XML attributes in `init`: the constructor takes the already-read values as an `Attributes` record. The three Java constructors differ only in how they reach `init`.
- The value animator's timing, easing and listener registration: an animation is the pair of end points recorded in `animations`, and each tick is a call of `OnAnimationUpdate`.
- Painting: canvases, paints, `setStrokesCap` and `setCanvasFilling` only forward platform paint and fill settings to the components, which are not part of this model.
- The event, draw and notch listeners (`onValueChange`, `onBeforeDraw`, `onDrawNotch`): user callbacks with no effect on the gauge's own state.
- The parent view's state stored under its own key in the instance-state bundle belongs to the platform.
- Floating point: values are reals. Float rounding, infinities and NaN are not modelled, and neither is the saturation of `Math.round` at the 32-bit range.
- GaugeGeometry.SnapToNotchs: requires a non-zero notch count. In the code, a zero count gives a NaN angle, which a real-valued model cannot express.
- Gauge.ScGauge.SetValue: requires a non-zero notch count when snapping is on, for the same reason.
- Gauge.ScGauge.SetValueInRange: requires a non-zero notch count when snapping is on, for the same reason.
- Gauge.ScGauge.SetSnapToNotchs: requires a non-zero notch count when the flag is turned on, for the same reason.
- Gauge.ScGauge.constructor: requires a non-zero notch count when snapping is on, for the same reason. With snapping and the default count 0, the code starts from a NaN value.
- The component classes (`ScArc`, `ScNotchs`) and the widget base class are not part of this model. A component is the record of the fields the gauge sets on it, and a new one is visible with zero padding.
- Plain getters (`getAngleStart`, `getBaseArc` and the like) return a field or a component and state nothing further. `getValue()` is `GetValue`, and the value range is read through `GetValueInRange`.
- The listener object behind `setOnCustomPaddingListener` is a pure function from the three padding holders to the three filled rectangles. Listeners with side effects are not modelled.
