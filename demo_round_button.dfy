/**
 * DemoRoundButton: an image button that draws an animated circular outline
 * when pressed and swaps its background between a normal and a pressed
 * variant. It has no text colour.
 */
module RoundButton {
  import opened JavaInt
  import opened ClickMachine

  /**
   * `init`: the same attributes as DemoButton's except the text colours,
   * which this widget does not read; the text-colour fields of `Style` stay
   * 0, so the text-colour pair is never enabled. Without attributes every
   * field keeps Java's zero value.
   */
  function LoadStyle(attrs: Option<Attributes>): (st: Style)
    ensures attrs.None? ==> st == ZeroStyle
    ensures st.textColorNormal == 0 && st.textColorPressed == 0 && !PairedTextColor(st)
    ensures attrs.Some? ==>
              && st.animationDuration == ValueOr(attrs.value.animationDuration, DEFAULT_ANIMATION_DURATION)
              && st.padding == ValueOr(attrs.value.animationPadding, DEFAULT_PADDING)
              && st.tint == ValueOr(attrs.value.animationTint, DEFAULT_ANIMATION_TINT)
              && st.backgroundNormal == attrs.value.backgroundNormal
              && st.backgroundPressed == attrs.value.backgroundPressed
              && st.strokeWidth == ValueOr(attrs.value.strokeWidth, DEFAULT_STROKE_WIDTH)
  {
    match attrs
    case None => ZeroStyle
    case Some(a) =>
      Style(ValueOr(a.animationDuration, DEFAULT_ANIMATION_DURATION),
            ValueOr(a.animationPadding, DEFAULT_PADDING),
            ValueOr(a.animationTint, DEFAULT_ANIMATION_TINT),
            a.backgroundNormal,
            a.backgroundPressed,
            0,
            0,
            ValueOr(a.strokeWidth, DEFAULT_STROKE_WIDTH))
  }

  /** The background pair is enabled exactly when both backgrounds are supplied; the normal one is shown first. */
  lemma BackgroundPairNeedsBoth(attrs: Option<Attributes>)
    ensures var m := Fresh(LoadStyle(attrs));
            (m.hasPressedBackground <==>
               attrs.Some? && attrs.value.backgroundNormal.Some? && attrs.value.backgroundPressed.Some?)
            && (m.hasPressedBackground ==> m.background == attrs.value.backgroundNormal)
            && (!m.hasPressedBackground ==> m.background == None)
            && !m.hasPressedColor && m.textColor == None
  {
  }

  /** The circle `onDraw` strokes. */
  datatype Circle = Circle(cx: real, cy: real, radius: real)

  /** One call to `drawCircle`: the shape, the paint's stroke width and its colour. */
  datatype Outline = Outline(circle: Circle, strokeWidth: Int32, color: Int32)

  /**
   * The outline geometry for a measured size: centred at
   * `(width / 2, height / 2)` (Java division) with radius
   * `width / 2 - padding + scale`, the `int` part of which wraps. Without
   * overflow its leftmost point lies `padding - scale` from the view's left
   * edge, the inset DemoButton's rectangle has.
   */
  function OutlineCircle(st: Style, scale: real, width: Int32, height: Int32): (c: Circle)
    ensures c.cx == JavaDiv(width, 2) as real && c.cy == JavaDiv(height, 2) as real
    ensures width >= 0 ==> width as real - 1.0 <= 2.0 * c.cx <= width as real
    ensures height >= 0 ==> height as real - 1.0 <= 2.0 * c.cy <= height as real
    ensures InInt32(JavaDiv(width, 2) - st.padding) ==> c.cx - c.radius == st.padding as real - scale
  {
    var half := JavaDiv(width, 2);
    Circle(half as real, JavaDiv(height, 2) as real, Wrap32(half - st.padding) as real + scale)
  }

  /**
   * At the end point of the start animation the circle's radius falls short
   * of half the width by half a stroke (Java division), so the stroke
   * reaches the view's left and right edges.
   */
  lemma FullExtentRadius(st: Style, width: Int32, height: Int32)
    requires InInt32(st.padding - JavaDiv(st.strokeWidth, 2))
    requires InInt32(JavaDiv(width, 2) - st.padding)
    ensures OutlineCircle(st, ScaleEnd(st) as real, width, height).radius
            == (JavaDiv(width, 2) - JavaDiv(st.strokeWidth, 2)) as real
  {
  }

  class DemoRoundButton {
    const style: Style
    const hasPressedBackground: bool
    /** `mState` */
    var state: Phase
    var isAnimating: bool
    /** `isPressed()`, as the base widget maintains it. */
    var pressed: bool
    var scale: real
    /** The background this widget has applied (`None`: never set by it). */
    var background: Option<Drawable>
    /** `mScaleStartAnimator` and `mScaleDoneAnimator`. */
    var startAnimator: Option<Animation>
    var doneAnimator: Option<Animation>
    /** The animator started but whose start callback has not been delivered yet. */
    var pending: Option<Direction>
    /** The animator whose start callback has come and whose end callback has not, as it tracks itself. */
    var running: Option<Direction>

    /** The widget's state as a value of the shared machine, which for this widget never has a text colour. */
    function Snapshot(): Machine
      reads this
    {
      Machine(style, false, hasPressedBackground, state, isAnimating, pressed, scale,
              background, None, startAnimator, doneAnimator, pending, running)
    }

    /** Construction followed by `init(attrs)`. */
    constructor (attrs: Option<Attributes>)
      ensures style == LoadStyle(attrs)
      ensures Snapshot() == Fresh(style)
      ensures Coherent(Snapshot())
    {
      var st := LoadStyle(attrs);
      style := st;
      hasPressedBackground := st.backgroundNormal != None && st.backgroundPressed != None;
      state := StopEnd;
      isAnimating := false;
      pressed := false;
      scale := INITIAL_SCALE;
      background := None;
      startAnimator := None;
      doneAnimator := None;
      pending := None;
      running := None;
      new;
      if hasPressedBackground {
        background := style.backgroundNormal;
      }
      FreshCoherent(style);
    }

    /** `onTouchEvent`: consumes every event; DOWN and UP may start an animation. */
    method OnTouchEvent(action: Int32) returns (handled: bool)
      modifies this
      ensures handled
      ensures Snapshot() == Touched(old(Snapshot()), action)
    {
      var masked := ActionMasked(action);
      if masked == ACTION_DOWN {
        if !isAnimating && state == StopEnd {
          StartClickAnimation();
        }
      } else if masked == ACTION_UP {
        if !isAnimating && state == StartEnd {
          StopClickAnimation();
        }
      }
      handled := true;
    }

    /** The base widget's press tracking changes `isPressed()`. */
    method SetPressed(p: bool)
      modifies this
      ensures Snapshot() == PressChanged(old(Snapshot()), p)
    {
      pressed := p;
    }

    /** `setScale`, the animated property's setter; the redraw it requests is not modelled. */
    method SetScale(position: real)
      modifies this
      ensures Snapshot() == ScaleSet(old(Snapshot()), position)
    {
      scale := position;
    }

    /** `startClickAnimation`: create the start animator and start it. */
    method StartClickAnimation()
      modifies this
      ensures Snapshot() == StartRequested(old(Snapshot()))
    {
      startAnimator := Some(ClickAnimation(style, Start));
      pending := Some(Start);
    }

    /** `stopClickAnimation`: create the stop animator and start it. */
    method StopClickAnimation()
      modifies this
      ensures Snapshot() == StopRequested(old(Snapshot()))
    {
      doneAnimator := Some(ClickAnimation(style, Stop));
      pending := Some(Stop);
    }

    /** The start animator's `onAnimationStart`. */
    method OnStartAnimationStart()
      modifies this
      ensures Snapshot() == StartBegun(old(Snapshot()))
    {
      pending := None;
      running := Some(Start);
      isAnimating := true;
      state := StartBegin;
      if hasPressedBackground {
        background := style.backgroundPressed;
      }
    }

    /** The start animator's `onAnimationEnd`. */
    method OnStartAnimationEnd()
      modifies this
      ensures Snapshot() == StartEnded(old(Snapshot()))
    {
      running := None;
      isAnimating := false;
      state := StartEnd;
      if !pressed {
        StopClickAnimation();
      }
    }

    /** The stop animator's `onAnimationStart`. */
    method OnStopAnimationStart()
      modifies this
      ensures Snapshot() == StopBegun(old(Snapshot()))
    {
      pending := None;
      running := Some(Stop);
      isAnimating := true;
      state := StopBegin;
    }

    /** The stop animator's `onAnimationEnd`. */
    method OnStopAnimationEnd()
      modifies this
      ensures Snapshot() == StopEnded(old(Snapshot()))
    {
      running := None;
      isAnimating := false;
      state := StopEnd;
      if hasPressedBackground {
        background := if pressed then style.backgroundPressed else style.backgroundNormal;
      }
    }

    /**
     * `onDraw` after the base widget has drawn itself: the circle is
     * stroked, with the configured stroke width and tint, exactly when the
     * outline is visible.
     */
    method OnDraw(width: Int32, height: Int32) returns (drawn: Option<Outline>)
      ensures drawn.Some? <==> OutlineVisible(Snapshot())
      ensures drawn.Some? ==> drawn.value.strokeWidth == style.strokeWidth && drawn.value.color == style.tint
      ensures drawn.Some? ==> drawn.value.circle == OutlineCircle(style, scale, width, height)
    {
      if isAnimating || state != StopEnd {
        drawn := Some(Outline(OutlineCircle(style, scale, width, height), style.strokeWidth, style.tint));
      } else {
        drawn := None;
      }
    }

    /**
     * The host delivering one event to the widget: the handler that event
     * reaches performs the machine's step, and a deliverable event keeps the
     * widget coherent.
     */
    method Dispatch(e: Event)
      requires Coherent(Snapshot()) && Deliverable(Snapshot(), e)
      modifies this
      ensures Snapshot() == Step(old(Snapshot()), e)
      ensures Coherent(Snapshot())
    {
      StepPreservesCoherent(Snapshot(), e);
      match e
      case Touch(a) =>
        var _ := OnTouchEvent(a);
      case PressedChanged(p) => SetPressed(p);
      case Frame(v) => SetScale(v);
      case StartAnimationStart => OnStartAnimationStart();
      case StartAnimationEnd => OnStartAnimationEnd();
      case StopAnimationStart => OnStopAnimationStart();
      case StopAnimationEnd => OnStopAnimationEnd();
    }
  }
}
