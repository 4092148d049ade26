/**
 * The press-animation state machine shared by DemoButton and DemoRoundButton.
 *
 * A `Machine` is a snapshot of one widget: its configuration (`Style`, fixed
 * at construction), the animation state `mState`, `isAnimating`, the
 * framework's pressed flag, the animated `scale`, the appearance the widget
 * has applied (background and text colour), the two animators it has
 * created, and which of them has been started but has not yet delivered its
 * start callback. Each event the widget receives has a step function here;
 * the widget classes are proved to perform exactly these steps.
 *
 * When the Android animator delivers a callback is not the widget's
 * business; `Deliverable` states what the model assumes about it, and
 * `Coherent` is the invariant that every delivered event preserves.
 */
module ClickMachine {
  import opened JavaInt

  datatype Option<T> = None | Some(value: T)

  // ---------------------------------------------------------------------
  // Constants of the widgets and of the framework
  // ---------------------------------------------------------------------

  /** The codes the widgets store in `mState`. */
  const STATE_START_BEGIN: int := 1
  const STATE_START_END: int := 2
  const STATE_STOP_BEGIN: int := 3
  const STATE_STOP_END: int := 4

  const DEFAULT_PADDING: Int32 := 20
  const DEFAULT_STROKE_WIDTH: Int32 := 8
  const DEFAULT_ANIMATION_DURATION: Int32 := 500
  /** 0xFF63B8FF, an opaque blue, as a (negative) Java `int`. */
  const DEFAULT_ANIMATION_TINT: Int32 := 0xFF63B8FF - 0x1_0000_0000

  /** The field initialiser of `scale`: the widget starts at 1, not at 0. */
  const INITIAL_SCALE: real := 1.0

  /** MotionEvent action codes used by the touch handler. */
  const ACTION_MASK: int := 0xff
  const ACTION_DOWN: int := 0
  const ACTION_UP: int := 1
  const ACTION_MOVE: int := 2
  const ACTION_CANCEL: int := 3

  /** `event.getAction() & MotionEvent.ACTION_MASK`: the low byte of the two's-complement action code. */
  function ActionMasked(action: Int32): (a: int)
    ensures 0 <= a <= ACTION_MASK
    ensures 0 <= action <= ACTION_MASK ==> a == action
    ensures (action - a) % (ACTION_MASK + 1) == 0
  {
    action % (ACTION_MASK + 1)
  }

  // ---------------------------------------------------------------------
  // States of the click cycle
  // ---------------------------------------------------------------------

  /** The four values of `mState`. */
  datatype Phase = StartBegin | StartEnd | StopBegin | StopEnd

  function StateCode(p: Phase): (c: int)
    ensures STATE_START_BEGIN <= c <= STATE_STOP_END
    ensures p == StartBegin <==> c == STATE_START_BEGIN
    ensures p == StartEnd <==> c == STATE_START_END
    ensures p == StopBegin <==> c == STATE_STOP_BEGIN
    ensures p == StopEnd <==> c == STATE_STOP_END
  {
    match p
    case StartBegin => STATE_START_BEGIN
    case StartEnd => STATE_START_END
    case StopBegin => STATE_STOP_BEGIN
    case StopEnd => STATE_STOP_END
  }

  /** The phase that follows `p` in the cycle STOP_END, START_BEGIN, START_END, STOP_BEGIN. */
  function Next(p: Phase): Phase {
    match p
    case StopEnd => StartBegin
    case StartBegin => StartEnd
    case StartEnd => StopBegin
    case StopBegin => StopEnd
  }

  // ---------------------------------------------------------------------
  // Configuration
  // ---------------------------------------------------------------------

  /** A drawable resource, known only by its identity. */
  datatype Drawable = Drawable(id: nat)

  /**
   * The style attributes supplied to the widget (the `DemoButtonStyle`
   * styleable both widgets read); `None` for an attribute that is not set.
   */
  datatype Attributes = Attributes(
    animationDuration: Option<Int32>,
    animationPadding: Option<Int32>,
    animationTint: Option<Int32>,
    backgroundNormal: Option<Drawable>,
    backgroundPressed: Option<Drawable>,
    textColorNormal: Option<Int32>,
    textColorPressed: Option<Int32>,
    strokeWidth: Option<Int32>)

  /** The configuration fields of a widget; a drawable field is `None` where Java holds null. */
  datatype Style = Style(
    animationDuration: Int32,
    padding: Int32,
    tint: Int32,
    backgroundNormal: Option<Drawable>,
    backgroundPressed: Option<Drawable>,
    textColorNormal: Int32,
    textColorPressed: Int32,
    strokeWidth: Int32)

  /** Every configuration field at Java's zero value: what a widget built without attributes keeps. */
  const ZeroStyle: Style := Style(0, 0, 0, None, None, 0, 0, 0)

  /** `TypedArray.getInt`/`getColor`/`getDimensionPixelSize` with a default. */
  function ValueOr(attribute: Option<Int32>, default: Int32): (v: Int32)
    ensures attribute.None? ==> v == default
    ensures attribute.Some? ==> v == attribute.value
  {
    match attribute
    case None => default
    case Some(x) => x
  }

  /** `hasPressedBackground`: both backgrounds were supplied. */
  predicate PairedBackground(st: Style) {
    st.backgroundNormal.Some? && st.backgroundPressed.Some?
  }

  /** `hasPressedColor`: both text colours are set; the colour 0 counts as unset. */
  predicate PairedTextColor(st: Style) {
    st.textColorNormal != 0 && st.textColorPressed != 0
  }

  // ---------------------------------------------------------------------
  // The two animations
  // ---------------------------------------------------------------------

  /**
   * `mAnimationPadding - mStrokeWidth / 2`, the scale the start animation
   * reaches: Java integer division, and the subtraction wraps as Java's does.
   * Without overflow the end point lies half a stroke (rounded toward zero)
   * inside the padding.
   */
  function ScaleEnd(st: Style): (r: Int32)
    ensures InInt32(st.padding - JavaDiv(st.strokeWidth, 2)) ==> r + JavaDiv(st.strokeWidth, 2) == st.padding
    ensures InInt32(st.padding - JavaDiv(st.strokeWidth, 2)) && st.strokeWidth >= 0 ==>
              2 * (st.padding - r) <= st.strokeWidth <= 2 * (st.padding - r) + 1
  {
    Wrap32(st.padding - JavaDiv(st.strokeWidth, 2))
  }

  datatype Direction = Start | Stop

  /** The parameters of an `ObjectAnimator.ofFloat(this, Scale, from, to)` with its duration. */
  datatype Animation = Animation(from: int, to: int, duration: int)

  /** The animator `startClickAnimation` (Start) or `stopClickAnimation` (Stop) creates. */
  function ClickAnimation(st: Style, dir: Direction): (a: Animation)
    ensures dir == Start ==> a.from == 0 && a.to == ScaleEnd(st)
    ensures dir == Stop ==> a.from == ScaleEnd(st) && a.to == 0
    ensures a.duration == JavaDiv(st.animationDuration, 2)
    ensures st.animationDuration >= 0 ==> 0 <= 2 * a.duration <= st.animationDuration <= 2 * a.duration + 1
    ensures a.duration < 0 <==> st.animationDuration <= -2
  {
    var half := JavaDiv(st.animationDuration, 2);
    match dir
    case Start => Animation(0, ScaleEnd(st), half)
    case Stop => Animation(ScaleEnd(st), 0, half)
  }

  /** The stop animation runs the start animation backwards, in the same time. */
  lemma StopRetracesStart(st: Style)
    ensures ClickAnimation(st, Stop).from == ClickAnimation(st, Start).to
    ensures ClickAnimation(st, Stop).to == ClickAnimation(st, Start).from
    ensures ClickAnimation(st, Stop).duration == ClickAnimation(st, Start).duration
  {
  }

  /** A scale value between the two end points, 0 and `ScaleEnd`, in whichever order. */
  predicate BetweenEnds(st: Style, v: real) {
    var e := ScaleEnd(st) as real;
    (0.0 <= v <= e) || (e <= v <= 0.0)
  }

  // ---------------------------------------------------------------------
  // Snapshots and the steps of each event
  // ---------------------------------------------------------------------

  /**
   * One widget's state. `background` and `textColor` are the appearance
   * the widget itself has applied (`None`: never set by it, so whatever the
   * base widget shows). `pending` names the animator that has been started
   * and has not yet delivered its start callback; `running` names the
   * animator that has delivered its start callback and not yet its end
   * callback, as the animator itself keeps track of (`isRunning()`).
   */
  datatype Machine = Machine(
    style: Style,
    hasPressedColor: bool,
    hasPressedBackground: bool,
    state: Phase,
    isAnimating: bool,
    pressed: bool,
    scale: real,
    background: Option<Drawable>,
    textColor: Option<Int32>,
    startAnimator: Option<Animation>,
    doneAnimator: Option<Animation>,
    pending: Option<Direction>,
    running: Option<Direction>)

  /** The state `init` leaves: flags from the pairing rule, the normal variant applied where paired. */
  function Fresh(st: Style): (m: Machine)
    ensures m.style == st && m.state == StopEnd && !m.isAnimating && !m.pressed
    ensures m.scale == INITIAL_SCALE && m.pending == None && m.running == None
    ensures m.startAnimator == None && m.doneAnimator == None
    ensures m.hasPressedBackground <==> st.backgroundNormal != None && st.backgroundPressed != None
    ensures m.hasPressedColor <==> st.textColorNormal != 0 && st.textColorPressed != 0
    ensures m.background == (if m.hasPressedBackground then st.backgroundNormal else None)
    ensures m.textColor == (if m.hasPressedColor then Some(st.textColorNormal) else None)
  {
    var bg := PairedBackground(st);
    var tc := PairedTextColor(st);
    Machine(st, tc, bg, StopEnd, false, false, INITIAL_SCALE,
            if bg then st.backgroundNormal else None,
            if tc then Some(st.textColorNormal) else None,
            None, None, None, None)
  }

  /** `startClickAnimation`: create the start animator and start it; nothing else changes. */
  function StartRequested(s: Machine): (r: Machine)
    ensures r.pending == Some(Start) && r.startAnimator == Some(ClickAnimation(s.style, Start))
    ensures r.(pending := s.pending, startAnimator := s.startAnimator) == s
  {
    s.(startAnimator := Some(ClickAnimation(s.style, Start)), pending := Some(Start))
  }

  /** `stopClickAnimation`: create the stop animator and start it; nothing else changes. */
  function StopRequested(s: Machine): (r: Machine)
    ensures r.pending == Some(Stop) && r.doneAnimator == Some(ClickAnimation(s.style, Stop))
    ensures r.(pending := s.pending, doneAnimator := s.doneAnimator) == s
  {
    s.(doneAnimator := Some(ClickAnimation(s.style, Stop)), pending := Some(Stop))
  }

  /** The guard under which ACTION_DOWN starts the start animation. */
  predicate DownStarts(s: Machine, action: Int32) {
    ActionMasked(action) == ACTION_DOWN && !s.isAnimating && s.state == StopEnd
  }

  /** The guard under which ACTION_UP starts the stop animation. */
  predicate UpStops(s: Machine, action: Int32) {
    ActionMasked(action) == ACTION_UP && !s.isAnimating && s.state == StartEnd
  }

  /**
   * `onTouchEvent` after the base widget's own handling: a touch only ever
   * starts an animation, and only under its guard; MOVE, CANCEL and every
   * other action, and DOWN or UP outside their guards, change nothing.
   */
  function Touched(s: Machine, action: Int32): (r: Machine)
    ensures DownStarts(s, action) ==> r == StartRequested(s)
    ensures UpStops(s, action) ==> r == StopRequested(s)
    ensures !DownStarts(s, action) && !UpStops(s, action) ==> r == s
    ensures r.state == s.state && r.isAnimating == s.isAnimating && r.scale == s.scale
    ensures r.background == s.background && r.textColor == s.textColor && r.pressed == s.pressed
  {
    var a := ActionMasked(action);
    if a == ACTION_DOWN then
      if !s.isAnimating && s.state == StopEnd then StartRequested(s) else s
    else if a == ACTION_UP then
      if !s.isAnimating && s.state == StartEnd then StopRequested(s) else s
    else
      s
  }

  /** The base widget changes `isPressed()`. */
  function PressChanged(s: Machine, p: bool): (r: Machine)
    ensures r.pressed == p && r.(pressed := s.pressed) == s
  {
    s.(pressed := p)
  }

  /** `setScale`, called by the animator on every frame. */
  function ScaleSet(s: Machine, v: real): (r: Machine)
    ensures r.scale == v && r.(scale := s.scale) == s
  {
    s.(scale := v)
  }

  /**
   * The start animator's `onAnimationStart`: it is animating, in
   * START_BEGIN, with the pressed text colour and background applied
   * where those are paired; the delivery turns the pending start into the
   * running one.
   */
  function StartBegun(s: Machine): (r: Machine)
    ensures r.isAnimating && r.state == StartBegin && r.pending == None && r.running == Some(Start)
    ensures r.background == if s.hasPressedBackground then s.style.backgroundPressed else s.background
    ensures r.textColor == if s.hasPressedColor then Some(s.style.textColorPressed) else s.textColor
    ensures r.(isAnimating := s.isAnimating, state := s.state, pending := s.pending, running := s.running,
               background := s.background, textColor := s.textColor) == s
  {
    s.(isAnimating := true, state := StartBegin, pending := None, running := Some(Start),
       textColor := if s.hasPressedColor then Some(s.style.textColorPressed) else s.textColor,
       background := if s.hasPressedBackground then s.style.backgroundPressed else s.background)
  }

  /**
   * The start animator's `onAnimationEnd`: no longer animating, in
   * START_END; if the widget is no longer pressed the stop animation is
   * started at once, without waiting for a touch-up.
   */
  function StartEnded(s: Machine): (r: Machine)
    ensures !r.isAnimating && r.state == StartEnd && r.running == None
    ensures !s.pressed ==> r.pending == Some(Stop) && r.doneAnimator == Some(ClickAnimation(s.style, Stop))
    ensures s.pressed ==> r.pending == s.pending && r.doneAnimator == s.doneAnimator
    ensures r.(isAnimating := s.isAnimating, state := s.state, pending := s.pending, running := s.running,
               doneAnimator := s.doneAnimator) == s
  {
    var ended := s.(isAnimating := false, state := StartEnd, running := None);
    if !s.pressed then StopRequested(ended) else ended
  }

  /** The stop animator's `onAnimationStart`: animating, in STOP_BEGIN; the appearance is left alone. */
  function StopBegun(s: Machine): (r: Machine)
    ensures r.isAnimating && r.state == StopBegin && r.pending == None && r.running == Some(Stop)
    ensures r.(isAnimating := s.isAnimating, state := s.state, pending := s.pending, running := s.running) == s
  {
    s.(isAnimating := true, state := StopBegin, pending := None, running := Some(Stop))
  }

  /** The normal or the pressed background, by the current press state. */
  function BackgroundFor(st: Style, pressed: bool): Option<Drawable> {
    if pressed then st.backgroundPressed else st.backgroundNormal
  }

  /** The normal or the pressed text colour, by the current press state. */
  function TextColorFor(st: Style, pressed: bool): Int32 {
    if pressed then st.textColorPressed else st.textColorNormal
  }

  /**
   * The stop animator's `onAnimationEnd`: idle again in STOP_END, and each
   * paired appearance restored to the variant the press state calls for,
   * which is the pressed one if the widget is still pressed.
   */
  function StopEnded(s: Machine): (r: Machine)
    ensures !r.isAnimating && r.state == StopEnd && r.running == None
    ensures r.background == if s.hasPressedBackground then BackgroundFor(s.style, s.pressed) else s.background
    ensures r.textColor == if s.hasPressedColor then Some(TextColorFor(s.style, s.pressed)) else s.textColor
    ensures r.(isAnimating := s.isAnimating, state := s.state, running := s.running,
               background := s.background, textColor := s.textColor) == s
  {
    s.(isAnimating := false, state := StopEnd, running := None,
       textColor := if s.hasPressedColor then Some(TextColorFor(s.style, s.pressed)) else s.textColor,
       background := if s.hasPressedBackground then BackgroundFor(s.style, s.pressed) else s.background)
  }

  /** The outline is drawn while an animation runs or whenever the state is not STOP_END. */
  predicate OutlineVisible(s: Machine) {
    s.isAnimating || s.state != StopEnd
  }

  // ---------------------------------------------------------------------
  // Events, the delivery assumption and the invariant
  // ---------------------------------------------------------------------

  datatype Event =
    | Touch(action: Int32)
    | PressedChanged(pressed: bool)
    | Frame(value: real)
    | StartAnimationStart
    | StartAnimationEnd
    | StopAnimationStart
    | StopAnimationEnd

  function Step(s: Machine, e: Event): Machine {
    match e
    case Touch(a) => Touched(s, a)
    case PressedChanged(p) => PressChanged(s, p)
    case Frame(v) => ScaleSet(s, v)
    case StartAnimationStart => StartBegun(s)
    case StartAnimationEnd => StartEnded(s)
    case StopAnimationStart => StopBegun(s)
    case StopAnimationEnd => StopEnded(s)
  }

  /**
   * What the model assumes about the host: touches and press changes come
   * at any time; an animator delivers its start callback only after it was
   * started; frames come only while an animation runs and lie between its
   * end points; an end callback comes only for the running animation, after
   * the last frame has set the scale to the animation's `to` value. It speaks
   * only of the animators' own records (`pending`, `running`) and of the
   * scale they set, never of the widget's `mState` or `isAnimating`.
   */
  predicate Deliverable(s: Machine, e: Event) {
    match e
    case Touch(_) => true
    case PressedChanged(_) => true
    case Frame(v) => s.running.Some? && s.pending == None && BetweenEnds(s.style, v)
    case StartAnimationStart => s.pending == Some(Start)
    case StartAnimationEnd => s.running == Some(Start) && s.pending == None && s.scale == ScaleEnd(s.style) as real
    case StopAnimationStart => s.pending == Some(Stop)
    case StopAnimationEnd => s.running == Some(Stop) && s.pending == None && s.scale == 0.0
  }

  /** The invariant of a widget driven by deliverable events. */
  ghost predicate Coherent(s: Machine) {
    // the pairing flags never change after init
    && s.hasPressedBackground == PairedBackground(s.style)
    && s.hasPressedColor == PairedTextColor(s.style)
    // an animation is in flight exactly in the two BEGIN states, and it is that state's animation
    && (s.isAnimating <==> s.state == StartBegin || s.state == StopBegin)
    && (s.running == Some(Start) <==> s.state == StartBegin)
    && (s.running == Some(Stop) <==> s.state == StopBegin)
    // a started animation waits for its start callback in the state its guard demanded
    && (s.pending == Some(Start) ==> s.state == StopEnd && s.startAnimator == Some(ClickAnimation(s.style, Start)))
    && (s.pending == Some(Stop) ==> s.state == StartEnd && s.doneAnimator == Some(ClickAnimation(s.style, Stop)))
    && (s.state == StartBegin ==> s.startAnimator == Some(ClickAnimation(s.style, Start)))
    && (s.state == StopBegin ==> s.doneAnimator == Some(ClickAnimation(s.style, Stop)))
    // scale: at rest 0 (or the initial 1), between the end points while animating
    && (s.state == StopEnd ==> s.scale == 0.0 || s.scale == INITIAL_SCALE)
    && (s.state == StartBegin ==> BetweenEnds(s.style, s.scale) || s.scale == INITIAL_SCALE)
    && (s.state == StartEnd ==> s.scale == ScaleEnd(s.style) as real)
    && (s.state == StopBegin ==> BetweenEnds(s.style, s.scale))
    // appearance: only ever a configured variant, and pressed while the outline shows
    && (!s.hasPressedBackground ==> s.background == None)
    && (s.hasPressedBackground ==>
          s.background == s.style.backgroundNormal || s.background == s.style.backgroundPressed)
    && (s.hasPressedBackground && s.state != StopEnd ==> s.background == s.style.backgroundPressed)
    && (!s.hasPressedColor ==> s.textColor == None)
    && (s.hasPressedColor ==>
          s.textColor == Some(s.style.textColorNormal) || s.textColor == Some(s.style.textColorPressed))
    && (s.hasPressedColor && s.state != StopEnd ==> s.textColor == Some(s.style.textColorPressed))
  }

  /** A freshly initialised widget satisfies the invariant. */
  lemma FreshCoherent(st: Style)
    ensures Coherent(Fresh(st))
  {
  }

  /** Every deliverable event preserves the invariant. */
  lemma StepPreservesCoherent(s: Machine, e: Event)
    requires Coherent(s) && Deliverable(s, e)
    ensures Coherent(Step(s, e))
  {
    // the end callbacks know only which animator runs; the invariant says which state that is
    match e
    case StartAnimationEnd => assert s.state == StartBegin;
    case StopAnimationEnd => assert s.state == StopBegin;
    case Frame(_) =>
      assert s.running == Some(s.running.value);
      if s.running.value == Start { assert s.state == StartBegin; } else { assert s.state == StopBegin; }
    case _ =>
  }

  /** Every deliverable event keeps the phase or moves it one step along the cycle. */
  lemma StepFollowsCycle(s: Machine, e: Event)
    requires Coherent(s) && Deliverable(s, e)
    ensures Step(s, e).state == s.state || Step(s, e).state == Next(s.state)
  {
  }

  /** Under the invariant the outline shows exactly when the state is not STOP_END. */
  lemma OutlineVisibleIffNotStopped(s: Machine)
    requires Coherent(s)
    ensures OutlineVisible(s) <==> s.state != StopEnd
  {
  }

  /**
   * A touch-up that arrives before the start animation ends is ignored, but
   * the end callback then sees the widget unpressed and starts the stop
   * animation itself, whose start callback is then deliverable.
   */
  lemma EarlyReleaseStopsAutomatically(s: Machine, up: Int32)
    requires Coherent(s) && Deliverable(s, StartAnimationEnd) && !s.pressed
    ensures Touched(s, up) == s
    ensures Step(s, StartAnimationEnd).pending == Some(Stop)
    ensures Deliverable(Step(s, StartAnimationEnd), StopAnimationStart)
  {
  }

  /** While the press is held, START_END waits; the next touch-up starts the stop animation. */
  lemma HeldPressWaitsForRelease(s: Machine)
    requires Coherent(s) && Deliverable(s, StartAnimationEnd) && s.pressed
    ensures var r := Step(s, StartAnimationEnd);
            r.pending == None && r.state == StartEnd && OutlineVisible(r)
            && Touched(r, ACTION_UP).pending == Some(Stop)
  {
  }

  // ---------------------------------------------------------------------
  // Runs of events
  // ---------------------------------------------------------------------

  /** The state after the events `es`, in order. */
  function Run(s: Machine, es: seq<Event>): Machine
    decreases |es|
  {
    if es == [] then s else Run(Step(s, es[0]), es[1..])
  }

  /** Every event of `es` is deliverable in the state it reaches. */
  predicate Admissible(s: Machine, es: seq<Event>)
    decreases |es|
  {
    es == [] || (Deliverable(s, es[0]) && Admissible(Step(s, es[0]), es[1..]))
  }

  /** The states a run passes through: the start, then the state after each event. */
  function Trace(s: Machine, es: seq<Event>): (t: seq<Machine>)
    ensures |t| == |es| + 1 && t[0] == s && t[|es|] == Run(s, es)
    ensures forall i {:trigger es[i]} :: 0 <= i < |es| ==> t[i + 1] == Step(t[i], es[i])
    decreases |es|
  {
    if es == [] then [s]
    else
      var rest := Trace(Step(s, es[0]), es[1..]);
      [s] + rest
  }

  /** Along an admissible run every state is coherent and the phase only ever advances along the cycle. */
  lemma {:induction false} RunFollowsCycle(s: Machine, es: seq<Event>)
    requires Coherent(s) && Admissible(s, es)
    ensures forall i :: 0 <= i <= |es| ==> Coherent(Trace(s, es)[i])
    ensures forall i :: 0 <= i < |es| ==>
              Trace(s, es)[i + 1].state == Trace(s, es)[i].state
              || Trace(s, es)[i + 1].state == Next(Trace(s, es)[i].state)
    decreases |es|
  {
    if es != [] {
      StepPreservesCoherent(s, es[0]);
      StepFollowsCycle(s, es[0]);
      RunFollowsCycle(Step(s, es[0]), es[1..]);
      var t, rest := Trace(s, es), Trace(Step(s, es[0]), es[1..]);
      assert t == [s] + rest;
      forall i | 0 < i <= |es| ensures t[i] == rest[i - 1] { }
    }
  }

  /** A run is admissible exactly when each event is deliverable in the state the trace shows before it. */
  lemma {:induction false} AdmissibleAlongTrace(s: Machine, es: seq<Event>)
    ensures Admissible(s, es) <==> forall i :: 0 <= i < |es| ==> Deliverable(Trace(s, es)[i], es[i])
    decreases |es|
  {
    if es != [] {
      var t, rest := Trace(s, es), Trace(Step(s, es[0]), es[1..]);
      assert t == [s] + rest;
      AdmissibleAlongTrace(Step(s, es[0]), es[1..]);
      forall i | 0 <= i < |es| - 1 ensures t[i + 1] == rest[i] && es[i + 1] == es[1..][i] { }
    }
  }

  /** An admissible run from a coherent state ends in a coherent state. */
  lemma {:induction false} RunPreservesCoherent(s: Machine, es: seq<Event>)
    requires Coherent(s) && Admissible(s, es)
    ensures Coherent(Run(s, es))
    decreases |es|
  {
    if es != [] {
      StepPreservesCoherent(s, es[0]);
      RunPreservesCoherent(Step(s, es[0]), es[1..]);
    }
  }

  // ---------------------------------------------------------------------
  // Two complete clicks
  // ---------------------------------------------------------------------

  /** Running `a` then `b` is running `a + b`, and admissible when both parts are. */
  lemma {:induction false} RunAppend(s: Machine, a: seq<Event>, b: seq<Event>)
    ensures Run(s, a + b) == Run(Run(s, a), b)
    ensures Admissible(s, a) && Admissible(Run(s, a), b) ==> Admissible(s, a + b)
    decreases |a|
  {
    if a != [] {
      assert (a + b)[0] == a[0] && (a + b)[1..] == a[1..] + b;
      RunAppend(Step(s, a[0]), a[1..], b);
    } else {
      assert a + b == b;
    }
  }

  /** The finger goes down on a widget at rest and the start animation begins. */
  const PressDown: seq<Event> := [PressedChanged(true), Touch(ACTION_DOWN), StartAnimationStart]

  /** The finger lifts while the start animation is still running. */
  const LiftEarly: seq<Event> := [Frame(0.0), PressedChanged(false), Touch(ACTION_UP)]

  /** The start animation reaches its end point and finishes. */
  function FinishStart(st: Style): seq<Event> {
    [Frame(ScaleEnd(st) as real), StartAnimationEnd]
  }

  /** The finger lifts after the start animation has finished. */
  const ReleaseLate: seq<Event> := [PressedChanged(false), Touch(ACTION_UP)]

  /** The stop animation runs to its end. */
  const StopRun: seq<Event> := [StopAnimationStart, Frame(0.0), StopAnimationEnd]

  /** Press and release before the start animation has finished. */
  function QuickTap(st: Style): seq<Event> {
    PressDown + LiftEarly + FinishStart(st) + StopRun
  }

  /** Press, hold past the end of the start animation, then release. */
  function HeldPress(st: Style): seq<Event> {
    PressDown + FinishStart(st) + ReleaseLate + StopRun
  }

  /** The widget is back at rest: idle, scale 0, no outline, normal appearance wherever paired. */
  ghost predicate AtRestNormal(r: Machine) {
    && r.state == StopEnd && !r.isAnimating && r.pending == None && !r.pressed
    && r.scale == 0.0 && !OutlineVisible(r)
    && (r.hasPressedBackground ==> r.background == r.style.backgroundNormal)
    && (r.hasPressedColor ==> r.textColor == Some(r.style.textColorNormal))
  }

  /** A press on a widget at rest starts the start animation, with the pressed appearance. */
  lemma PressDownStarts(s: Machine)
    requires Coherent(s) && s.state == StopEnd
    ensures Admissible(s, PressDown)
    ensures var r := Run(s, PressDown);
            Coherent(r) && r.style == s.style && r.state == StartBegin && r.pending == None && r.pressed
  {
    var s1 := PressChanged(s, true);
    var s2 := Touched(s1, ACTION_DOWN);
    var s3 := StartBegun(s2);
    assert Run(s, PressDown) == Run(s1, [Touch(ACTION_DOWN), StartAnimationStart]);
    assert Run(s1, [Touch(ACTION_DOWN), StartAnimationStart]) == Run(s2, [StartAnimationStart]);
    assert Run(s2, [StartAnimationStart]) == s3;
    StepPreservesCoherent(s, PressedChanged(true));
    StepPreservesCoherent(s1, Touch(ACTION_DOWN));
    StepPreservesCoherent(s2, StartAnimationStart);
  }

  /** A release while the start animation runs: the touch-up is ignored. */
  lemma LiftEarlyIgnored(s: Machine)
    requires Coherent(s) && s.state == StartBegin && s.pending == None
    ensures Admissible(s, LiftEarly)
    ensures var r := Run(s, LiftEarly);
            Coherent(r) && r.style == s.style && r.state == StartBegin && r.pending == None && !r.pressed
  {
    var s1 := ScaleSet(s, 0.0);
    var s2 := PressChanged(s1, false);
    assert Touched(s2, ACTION_UP) == s2;
    assert Run(s, LiftEarly) == Run(s1, LiftEarly[1..]) == Run(s2, LiftEarly[2..]) == s2;
    StepPreservesCoherent(s, Frame(0.0));
    StepPreservesCoherent(s1, PressedChanged(false));
    assert Admissible(s2, LiftEarly[2..]);
    assert Admissible(s1, LiftEarly[1..]);
  }

  /**
   * The start animation finishes: START_END with the outline at its full
   * extent; with the press held the widget waits, keeping the pressed look,
   * and without it the stop animation starts by itself.
   */
  lemma FinishStartDecides(s: Machine)
    requires Coherent(s) && s.state == StartBegin && s.pending == None
    ensures Admissible(s, FinishStart(s.style))
    ensures var r := Run(s, FinishStart(s.style));
            Coherent(r) && r.style == s.style && r.state == StartEnd && r.pressed == s.pressed
            && OutlineVisible(r) && r.scale == ScaleEnd(s.style) as real
            && (r.hasPressedBackground ==> r.background == s.style.backgroundPressed)
            && (r.hasPressedColor ==> r.textColor == Some(s.style.textColorPressed))
            && r.pending == (if s.pressed then None else Some(Stop))
  {
    var es := FinishStart(s.style);
    var s1 := ScaleSet(s, ScaleEnd(s.style) as real);
    var s2 := StartEnded(s1);
    assert Run(s, es) == Run(s1, es[1..]) == s2;
    StepPreservesCoherent(s, es[0]);
    StepPreservesCoherent(s1, es[1]);
  }

  /** A release in START_END starts the stop animation. */
  lemma LateReleaseStops(s: Machine)
    requires Coherent(s) && s.state == StartEnd && s.pending == None
    ensures Admissible(s, ReleaseLate)
    ensures var r := Run(s, ReleaseLate);
            Coherent(r) && r.style == s.style && r.state == StartEnd && r.pending == Some(Stop) && !r.pressed
  {
    var s1 := PressChanged(s, false);
    var s2 := Touched(s1, ACTION_UP);
    assert Run(s, ReleaseLate) == Run(s1, [Touch(ACTION_UP)]) == s2;
    StepPreservesCoherent(s, PressedChanged(false));
    StepPreservesCoherent(s1, Touch(ACTION_UP));
  }

  /** The stop animation, started while unpressed, brings the widget to rest with its normal look. */
  lemma StopRunRests(s: Machine)
    requires Coherent(s) && s.pending == Some(Stop) && !s.pressed
    ensures Admissible(s, StopRun)
    ensures AtRestNormal(Run(s, StopRun))
  {
    var s1 := StopBegun(s);
    var s2 := ScaleSet(s1, 0.0);
    var s3 := StopEnded(s2);
    assert Run(s, StopRun) == Run(s1, [Frame(0.0), StopAnimationEnd]) == Run(s2, [StopAnimationEnd]) == s3;
    StepPreservesCoherent(s, StopAnimationStart);
    StepPreservesCoherent(s1, Frame(0.0));
  }

  /**
   * A quick tap from rest: the touch-up is ignored while the start animation
   * runs, the stop animation starts by itself when the start animation ends,
   * and the widget comes back to rest with its normal appearance.
   */
  lemma QuickTapReturnsToRest(s: Machine)
    requires Coherent(s) && s.state == StopEnd
    ensures Admissible(s, QuickTap(s.style))
    ensures AtRestNormal(Run(s, QuickTap(s.style)))
  {
    var st := s.style;
    PressDownStarts(s);
    var s1 := Run(s, PressDown);
    LiftEarlyIgnored(s1);
    RunAppend(s, PressDown, LiftEarly);
    var s2 := Run(s, PressDown + LiftEarly);
    FinishStartDecides(s2);
    RunAppend(s, PressDown + LiftEarly, FinishStart(st));
    var s3 := Run(s, PressDown + LiftEarly + FinishStart(st));
    StopRunRests(s3);
    RunAppend(s, PressDown + LiftEarly + FinishStart(st), StopRun);
  }

  /**
   * A held press from rest: the outline stays at its full extent in
   * START_END with the pressed appearance until the touch-up, after which
   * the widget comes back to rest with its normal appearance.
   */
  lemma HeldPressReturnsToRest(s: Machine)
    requires Coherent(s) && s.state == StopEnd
    ensures Admissible(s, HeldPress(s.style))
    ensures AtRestNormal(Run(s, HeldPress(s.style)))
  {
    var st := s.style;
    PressDownStarts(s);
    var s1 := Run(s, PressDown);
    FinishStartDecides(s1);
    RunAppend(s, PressDown, FinishStart(st));
    var s2 := Run(s, PressDown + FinishStart(st));
    LateReleaseStops(s2);
    RunAppend(s, PressDown + FinishStart(st), ReleaseLate);
    var s3 := Run(s, PressDown + FinishStart(st) + ReleaseLate);
    StopRunRests(s3);
    RunAppend(s, PressDown + FinishStart(st) + ReleaseLate, StopRun);
  }
}
