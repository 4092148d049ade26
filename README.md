# DemoButton / DemoRoundButton press animation, in Dafny

Two Android widgets, `DemoButton` (a `Button`) and `DemoRoundButton` (an
`ImageButton`), draw an outline stroke that grows when the user presses them
and shrinks back when they are released. Both share one state machine with
four states, stored in `mState`:
`STATE_START_BEGIN`=1, `STATE_START_END`=2, `STATE_STOP_BEGIN`=3 and
`STATE_STOP_END`=4. A touch-down at rest starts the *start* animation, which
moves `scale` from 0 to `padding - strokeWidth / 2`. A touch-up once that
animation has finished starts the *stop* animation, which moves `scale` back
to 0. The animator's start and end callbacks move the state along the cycle
STOP_END → START_BEGIN → START_END → STOP_BEGIN → STOP_END.
They also swap the widget between its normal and pressed background, and for
`DemoButton` its text colour too. Each swap happens only when both variants
of that pair are configured. When the start animation ends and the widget is
no longer pressed, the stop animation begins at once, without waiting for a
touch-up.

The project is organised as follows:

- `java_int.dfy` (`JavaInt`): Java's 32-bit `int`. `Wrap32` gives
  two's-complement wrap-around and `JavaDiv` gives division rounded toward
  zero.
- `click_machine.dfy` (`ClickMachine`): the shared machine.
  - `Machine` is a value snapshot of one widget.
  - There is one step function per event: touch, press change, animation
    frame, and the four animator callbacks.
  - `Deliverable` is the assumption the model makes about when Android's
    animator delivers callbacks and frames.
  - `Coherent` is the invariant that every deliverable event preserves.
  - The lemmas cover the click cycle and two complete clicks.
- `demo_button.dfy` (`RectButton`): class `DemoButton`, its attribute
  loading and its rounded-rectangle outline.
- `demo_round_button.dfy` (`RoundButton`): class `DemoRoundButton`, its
  attribute loading and its circular outline.

Each class has one field per piece of state the Java class changes: state,
`isAnimating`, the pressed flag, `scale`, the applied background (and text
colour), the two animators, and the pending and the running animation (the
last two are what the animators themselves keep track of). The configuration
is held in `const` fields. Every event handler is proved to perform exactly
its step function (`Touched`, `StartBegun`, …), and `Dispatch` ties them to
`Step`: `Snapshot() == Step(old(Snapshot()), e)`. The machine's lemmas then
carry over to the classes, and `Dispatch` shows that a deliverable event
keeps a coherent widget coherent.

`startClickAnimation` and `stopClickAnimation` only create the animator and
record it as pending. The callbacks are separate methods. Delivering an
animation's start callback turns the pending record into the running one,
and its end callback clears the running record. The animator is assumed to
behave as `Deliverable` states, which speaks only of these two records and of
the scale the animator sets, never of `mState` or `isAnimating`:

- a start callback comes only for an animation that was started;
- frames come only while an animation runs, with values between 0 and the
  end point;
- an end callback comes only for the running animation, after the last frame
  has set `scale` to that animation's final value.

That the running animation is always the one `mState` names (START_BEGIN for
the start animation, STOP_BEGIN for the stop animation) is part of the
invariant and proved, so both end edges of the cycle follow from the code.

Two facts of the code shape the model:

- The configuration defaults apply only when attributes are supplied
  (DemoButton.java:69-80). A widget built without attributes keeps every
  configuration field at 0. Its end point and its animation duration are
  then both 0, and it never swaps its appearance.
- `scale` starts at 1, not 0 (DemoButton.java:36). The invariant therefore
  allows the initial 1 at rest before the first click, and in START_BEGIN
  before the first frame of the first start animation. After any complete
  click the scale at rest is 0.

## Model

| member | source | states |
|---|---|---|
| `JavaInt.JavaDiv` | MyApplication/app/src/main/java/com/example/demo/test/view/DemoButton.java:146 | Java's `/` on `int`: the quotient's magnitude brackets the dividend between two multiples of the divisor, and its sign is that of the exact quotient (rounded toward zero) |
| `JavaInt.Wrap32` | MyApplication/app/src/main/java/com/example/demo/test/view/DemoButton.java:132 | the `int` result of an `int` subtraction: congruent to the exact value modulo 2^32, and equal to it when it fits |
| `ClickMachine.ActionMasked` | MyApplication/app/src/main/java/com/example/demo/test/view/DemoButton.java:104 | `getAction() & ACTION_MASK` is the action code's low byte: in 0..255, congruent to the code modulo 256, the code itself when it is already a byte |
| `ClickMachine.StateCode` | MyApplication/app/src/main/java/com/example/demo/test/view/DemoButton.java:21-25 | the four phases have the distinct codes 1..4: each phase has exactly its own `STATE_*` constant, so comparing phases is comparing `mState` codes |
| `ClickMachine.ValueOr` | MyApplication/app/src/main/java/com/example/demo/test/view/DemoButton.java:71-78 | an attribute read yields the supplied value, or the default when the attribute is absent |
| `ClickMachine.ScaleEnd` | MyApplication/app/src/main/java/com/example/demo/test/view/DemoButton.java:145 | the start animation's end point is `padding - strokeWidth / 2`. Without overflow it plus half the stroke (rounded toward zero) is the padding, so for a non-negative stroke it lies within half a stroke of the padding |
| `ClickMachine.ClickAnimation` | MyApplication/app/src/main/java/com/example/demo/test/view/DemoButton.java:145-146 | the start animation runs from 0 to the end point and the stop animation from the end point to 0. Each lasts `animationDuration / 2` (Java division), which lies within half a unit below half the duration when that is non-negative and is negative exactly when `animationDuration <= -2` |
| `ClickMachine.StopRetracesStart` | MyApplication/app/src/main/java/com/example/demo/test/view/DemoButton.java:187-188 | the stop animation is the start animation reversed, with the same duration |
| `ClickMachine.Fresh` | MyApplication/app/src/main/java/com/example/demo/test/view/DemoButton.java:81-94 | after `init`: STOP_END, not animating, scale 1, no animator created, nothing pending or running. `hasPressedBackground` holds iff both drawables are non-null and `hasPressedColor` iff both colours are non-zero. The normal variant of each enabled pair is applied and nothing else is |
| `ClickMachine.StartRequested` | MyApplication/app/src/main/java/com/example/demo/test/view/DemoButton.java:144-183 | `startClickAnimation` creates the start animator and leaves it pending. It changes nothing else: no state, no flag, no appearance |
| `ClickMachine.StopRequested` | MyApplication/app/src/main/java/com/example/demo/test/view/DemoButton.java:185-222 | `stopClickAnimation` creates the stop animator and leaves it pending, and changes nothing else |
| `ClickMachine.Touched` | MyApplication/app/src/main/java/com/example/demo/test/view/DemoButton.java:101-123 | a DOWN starts the start animation only when `!isAnimating && state == STOP_END`. An UP starts the stop animation only when `!isAnimating && state == START_END`. Every other touch (MOVE, CANCEL, other actions, and DOWN/UP outside their guards) leaves the widget unchanged. No touch changes the state, flags, scale or appearance |
| `ClickMachine.PressChanged` | MyApplication/app/src/main/java/com/example/demo/test/view/DemoButton.java:102 | the base widget's touch handling changes `isPressed()` and nothing else |
| `ClickMachine.ScaleSet` | MyApplication/app/src/main/java/com/example/demo/test/view/DemoButton.java:139-142 | `setScale` changes only `scale` |
| `ClickMachine.StartBegun` | MyApplication/app/src/main/java/com/example/demo/test/view/DemoButton.java:150-161 | start callback: `isAnimating` and START_BEGIN. The pressed text colour is applied only if `hasPressedColor`, the pressed background only if `hasPressedBackground`. Nothing else changes |
| `ClickMachine.StartEnded` | MyApplication/app/src/main/java/com/example/demo/test/view/DemoButton.java:164-170 | end of the start animation: not animating, START_END. If not pressed, the stop animation is started at once; if pressed, no animation is started |
| `ClickMachine.StopBegun` | MyApplication/app/src/main/java/com/example/demo/test/view/DemoButton.java:192-195 | stop callback: `isAnimating` and STOP_BEGIN, appearance untouched |
| `ClickMachine.StopEnded` | MyApplication/app/src/main/java/com/example/demo/test/view/DemoButton.java:198-209 | end of the stop animation: not animating, STOP_END. Each enabled pair is set to its pressed variant if still pressed, otherwise to its normal one. A pair that is not enabled is left alone |
| `ClickMachine.FreshCoherent` | MyApplication/app/src/main/java/com/example/demo/test/view/DemoButton.java:68-94 | a freshly initialised widget satisfies the invariant |
| `ClickMachine.StepPreservesCoherent` | MyApplication/app/src/main/java/com/example/demo/test/view/DemoButton.java:144-222 | every deliverable event preserves the invariant. The invariant says: `isAnimating` holds exactly in the two BEGIN states, and the running animation is the one that state names; a pending animation waits in the state its guard required; the scale is 0 (or the initial 1) at rest, the end point in START_END, and between the end points while animating, except that START_BEGIN may still hold the initial 1 before the first frame; the applied appearance is always a configured variant, and it is the pressed variant whenever the state is not STOP_END |
| `ClickMachine.StepFollowsCycle` | MyApplication/app/src/main/java/com/example/demo/test/view/DemoButton.java:150-200 | a deliverable event keeps the state or moves it one step along STOP_END → START_BEGIN → START_END → STOP_BEGIN → STOP_END |
| `ClickMachine.OutlineVisibleIffNotStopped` | MyApplication/app/src/main/java/com/example/demo/test/view/DemoButton.java:129 | under the invariant, the outline condition `isAnimating \|\| state != STOP_END` holds exactly when the state is not STOP_END |
| `ClickMachine.EarlyReleaseStopsAutomatically` | MyApplication/app/src/main/java/com/example/demo/test/view/DemoButton.java:164-170 | while the start animation runs, a touch-up changes nothing. If the widget is unpressed when that animation ends, the stop animation is started and its start callback becomes deliverable |
| `ClickMachine.HeldPressWaitsForRelease` | MyApplication/app/src/main/java/com/example/demo/test/view/DemoButton.java:112-116 | if the start animation ends while pressed, the widget waits in START_END with the outline showing, and the next touch-up starts the stop animation |
| `ClickMachine.Trace` | MyApplication/app/src/main/java/com/example/demo/test/view/DemoButton.java:100-222 | the states of a run: it starts at the given state, ends at the run's result, and each state is the previous one's step |
| `ClickMachine.AdmissibleAlongTrace` | MyApplication/app/src/main/java/com/example/demo/test/view/DemoButton.java:144-222 | a run is admissible exactly when every event is deliverable in the state the trace shows just before it |
| `ClickMachine.RunFollowsCycle` | MyApplication/app/src/main/java/com/example/demo/test/view/DemoButton.java:150-200 | along any run of deliverable events, every state is coherent and the state only ever advances along the cycle |
| `ClickMachine.RunPreservesCoherent` | MyApplication/app/src/main/java/com/example/demo/test/view/DemoButton.java:144-222 | any run of deliverable events from a coherent state ends coherent |
| `ClickMachine.PressDownStarts` | MyApplication/app/src/main/java/com/example/demo/test/view/DemoButton.java:105-108 | a press on a widget at rest leads to START_BEGIN, pressed, with nothing pending |
| `ClickMachine.LiftEarlyIgnored` | MyApplication/app/src/main/java/com/example/demo/test/view/DemoButton.java:112-116 | a release during the start animation leaves it in START_BEGIN with nothing pending |
| `ClickMachine.FinishStartDecides` | MyApplication/app/src/main/java/com/example/demo/test/view/DemoButton.java:164-170 | when the start animation finishes, the widget is in START_END with the outline at the end point and the pressed look. The stop animation is pending exactly when the widget is unpressed |
| `ClickMachine.LateReleaseStops` | MyApplication/app/src/main/java/com/example/demo/test/view/DemoButton.java:112-116 | a release in START_END starts the stop animation |
| `ClickMachine.StopRunRests` | MyApplication/app/src/main/java/com/example/demo/test/view/DemoButton.java:198-208 | a stop animation run while unpressed ends at rest: STOP_END, scale 0, no outline, normal background and text colour where paired |
| `ClickMachine.QuickTapReturnsToRest` | MyApplication/app/src/main/java/com/example/demo/test/view/DemoButton.java:164-170 | a tap released before the start animation ends is admissible and returns the widget to rest with its normal look, through the automatic stop |
| `ClickMachine.HeldPressReturnsToRest` | MyApplication/app/src/main/java/com/example/demo/test/view/DemoButton.java:198-208 | a press held past the start animation and then released is admissible and returns the widget to rest with its normal look |
| `RectButton.LoadStyle` | MyApplication/app/src/main/java/com/example/demo/test/view/DemoButton.java:69-80 | with attributes, each field is the supplied value or its default: duration 500, padding 20, tint 0xFF63B8FF, stroke 8, text colours 0, and null drawables. Without attributes every field is 0 or null |
| `RectButton.NoAttributesNoPairs` | MyApplication/app/src/main/java/com/example/demo/test/view/DemoButton.java:69-94 | without attributes neither pair is enabled, nothing is applied, and the end point and the animation duration are 0 |
| `RectButton.PairsNeedBothAttributes` | MyApplication/app/src/main/java/com/example/demo/test/view/DemoButton.java:81-91 | the background pair is enabled iff both drawables are supplied. The colour pair is enabled iff both colours are supplied and non-zero |
| `RectButton.OutlineRect` | MyApplication/app/src/main/java/com/example/demo/test/view/DemoButton.java:132-134 | the rounded rectangle is inset by `padding - scale` on every edge (right and bottom when `size - padding` does not overflow), with corner radius `padding` |
| `RectButton.FullExtentInsetIsHalfStroke` | MyApplication/app/src/main/java/com/example/demo/test/view/DemoButton.java:132 | at the end point of the start animation the rectangle is inset by half the stroke width on every edge |
| `RectButton.DefaultsEndAtSixteen` | MyApplication/app/src/main/java/com/example/demo/test/view/DemoButton.java:30-40 | with default attributes the start animation ends at 16 after 250 ms, and the rectangle is then inset by 4 |
| `RectButton.DemoButton.constructor` | MyApplication/app/src/main/java/com/example/demo/test/view/DemoButton.java:68-94 | `init`: the configuration is the loaded style, and the widget is in the fresh, coherent state |
| `RectButton.DemoButton.OnTouchEvent` | MyApplication/app/src/main/java/com/example/demo/test/view/DemoButton.java:101-123 | performs exactly the touch step and always returns true |
| `RectButton.DemoButton.SetPressed` | MyApplication/app/src/main/java/com/example/demo/test/view/DemoButton.java:102 | the base widget's press tracking changes only the pressed flag |
| `RectButton.DemoButton.SetScale` | MyApplication/app/src/main/java/com/example/demo/test/view/DemoButton.java:139-142 | performs exactly the scale step |
| `RectButton.DemoButton.StartClickAnimation` | MyApplication/app/src/main/java/com/example/demo/test/view/DemoButton.java:144-183 | records the start animator as pending, as the machine's request step does |
| `RectButton.DemoButton.StopClickAnimation` | MyApplication/app/src/main/java/com/example/demo/test/view/DemoButton.java:185-222 | records the stop animator as pending, as the machine's request step does |
| `RectButton.DemoButton.OnStartAnimationStart` | MyApplication/app/src/main/java/com/example/demo/test/view/DemoButton.java:150-161 | performs exactly the start-begin step |
| `RectButton.DemoButton.OnStartAnimationEnd` | MyApplication/app/src/main/java/com/example/demo/test/view/DemoButton.java:164-170 | performs exactly the start-end step, including the automatic stop |
| `RectButton.DemoButton.OnStopAnimationStart` | MyApplication/app/src/main/java/com/example/demo/test/view/DemoButton.java:192-195 | performs exactly the stop-begin step |
| `RectButton.DemoButton.OnStopAnimationEnd` | MyApplication/app/src/main/java/com/example/demo/test/view/DemoButton.java:198-209 | performs exactly the stop-end step, restoring pressed-or-normal appearance |
| `RectButton.DemoButton.OnDraw` | MyApplication/app/src/main/java/com/example/demo/test/view/DemoButton.java:126-137 | an outline is drawn iff `OutlineVisible` holds (`isAnimating \|\| state != STOP_END`), which under the invariant is `state != STOP_END`. It is the inset rounded rectangle, stroked with `strokeWidth` in the tint colour |
| `RectButton.DemoButton.Dispatch` | MyApplication/app/src/main/java/com/example/demo/test/view/DemoButton.java:100-222 | whichever handler an event reaches, the widget takes the machine's step, and a deliverable event keeps the widget coherent |
| `RoundButton.LoadStyle` | MyApplication/app/src/main/java/com/example/demo/test/view/DemoRoundButton.java:64-73 | as DemoButton's loader, except that the text colours are not read and stay 0, so the colour pair is never enabled |
| `RoundButton.BackgroundPairNeedsBoth` | MyApplication/app/src/main/java/com/example/demo/test/view/DemoRoundButton.java:74-80 | `hasPressedBackground` holds iff both drawables are supplied. In that case the normal one is applied at init, and otherwise no background is applied. There is never a text colour |
| `RoundButton.OutlineCircle` | MyApplication/app/src/main/java/com/example/demo/test/view/DemoRoundButton.java:120 | the circle is centred at `(w/2, h/2)` (Java division), so for non-negative sizes within half a unit of the view's centre. Without overflow its radius is `w/2 - padding + scale`, so its leftmost point lies `padding - scale` from the left edge |
| `RoundButton.FullExtentRadius` | MyApplication/app/src/main/java/com/example/demo/test/view/DemoRoundButton.java:130 | at the end point of the start animation the radius is `w/2 - strokeWidth/2` |
| `RoundButton.DemoRoundButton.constructor` | MyApplication/app/src/main/java/com/example/demo/test/view/DemoRoundButton.java:63-84 | `init`: the configuration is the loaded style, and the widget is in the fresh, coherent state |
| `RoundButton.DemoRoundButton.OnTouchEvent` | MyApplication/app/src/main/java/com/example/demo/test/view/DemoRoundButton.java:87-109 | performs exactly the touch step (guards on DOWN and UP, nothing otherwise) and always returns true |
| `RoundButton.DemoRoundButton.SetPressed` | MyApplication/app/src/main/java/com/example/demo/test/view/DemoRoundButton.java:88 | the base widget's press tracking changes only the pressed flag |
| `RoundButton.DemoRoundButton.SetScale` | MyApplication/app/src/main/java/com/example/demo/test/view/DemoRoundButton.java:124-127 | performs exactly the scale step |
| `RoundButton.DemoRoundButton.StartClickAnimation` | MyApplication/app/src/main/java/com/example/demo/test/view/DemoRoundButton.java:129-164 | records the start animator (0 to the end point, half the duration) as pending |
| `RoundButton.DemoRoundButton.StopClickAnimation` | MyApplication/app/src/main/java/com/example/demo/test/view/DemoRoundButton.java:166-199 | records the stop animator (the end point to 0, half the duration) as pending |
| `RoundButton.DemoRoundButton.OnStartAnimationStart` | MyApplication/app/src/main/java/com/example/demo/test/view/DemoRoundButton.java:135-141 | performs exactly the start-begin step: animating, START_BEGIN, pressed background if paired |
| `RoundButton.DemoRoundButton.OnStartAnimationEnd` | MyApplication/app/src/main/java/com/example/demo/test/view/DemoRoundButton.java:145-150 | performs exactly the start-end step, including the automatic stop when unpressed |
| `RoundButton.DemoRoundButton.OnStopAnimationStart` | MyApplication/app/src/main/java/com/example/demo/test/view/DemoRoundButton.java:173-176 | performs exactly the stop-begin step |
| `RoundButton.DemoRoundButton.OnStopAnimationEnd` | MyApplication/app/src/main/java/com/example/demo/test/view/DemoRoundButton.java:179-185 | performs exactly the stop-end step: the background is pressed-if-pressed-else-normal when paired |
| `RoundButton.DemoRoundButton.OnDraw` | MyApplication/app/src/main/java/com/example/demo/test/view/DemoRoundButton.java:112-122 | a circle is drawn iff `OutlineVisible` holds (`isAnimating \|\| state != STOP_END`), stroked with `strokeWidth` in the tint colour |
| `RoundButton.DemoRoundButton.Dispatch` | MyApplication/app/src/main/java/com/example/demo/test/view/DemoRoundButton.java:86-199 | whichever handler an event reaches, the widget takes the machine's step, and a deliverable event keeps the widget coherent |

## Left out

- Android framework calls are not modelled as calls:
  - Attribute reading (`TypedArray`, `recycle`): the attributes are given as
    a value.
  - Drawing (`Canvas`, `Paint`): `OnDraw` returns the shape and paint
    settings instead of drawing. The paint's anti-alias flag and STROKE style
    are constants and are not modelled.
  - `setBackground` and `setTextColor`: these become the applied-appearance
    fields.
  - `invalidate` is not modelled.
- `super.onTouchEvent` and `super.onDraw`: the only effect of the base
  widget's touch handling that the model keeps is the change of
  `isPressed()`, as a separate `SetPressed` event. Click listeners and
  anything else it does are not modelled.
- `ObjectAnimator` internals are not modelled: per-frame interpolation,
  timing, `setAutoCancel` and the `FloatProperty` binding. Frames and
  callbacks are abstract events, constrained by `Deliverable`.
  - Android delivers `onAnimationStart` synchronously inside `start()`. The
    model also allows it later, which is more general.
  - Starting an animation again before its start callback simply replaces
    the pending one.
  - The empty `onAnimationCancel` and `onAnimationRepeat` listeners do
    nothing, so there is nothing to model.
- Floating point is not modelled. `scale` and the drawn geometry are reals,
  and the model treats the conversion of the `int` end point to `float` as exact.
- A second call to the public `init` (DemoButton.java:68, DemoRoundButton.java:63) is not modelled. The configuration is `const` and set once by the constructor. A second `init` would reload the attributes but never reset the pair flags to false, because they are only ever set to true.
- `ClickMachine.ClickAnimation`: the animator is recorded with whatever duration `animationDuration / 2` gives, and that includes a negative duration when `animationDuration <= -2`. Android's `setDuration` throws `IllegalArgumentException` for a negative duration, so in Java the first touch-down then throws out of `onTouchEvent`. That exception is not modelled. The contract states exactly when the duration is negative.
- The `mPresentRectF.set(...)` in the round widget's `onDraw` is not
  modelled: it has no effect on the circle drawn.
- The three constructors, the `Context` plumbing and the `TAG` strings are
  not modelled: one constructor takes `Option<Attributes>`, where `None`
  stands for a null `AttributeSet`. The measured width and height are
  parameters of `OnDraw`.
- `RectButton.OutlineRect`: the right and bottom insets are stated only where `width - padding` and `height - padding` do not overflow. The function itself computes the wrapped value.
- `RoundButton.OutlineCircle`: the radius is stated only where `width / 2 - padding` does not overflow. The function itself computes the wrapped value.
- `ClickMachine.ScaleEnd`: the relation to padding and stroke width is stated only where `padding - strokeWidth / 2` does not overflow. The function itself computes the wrapped value.
