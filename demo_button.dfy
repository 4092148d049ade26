/**
 * DemoButton: a button that draws an animated rounded-rectangle outline when
 * pressed and swaps both its background and its text colour between a
 * normal and a pressed variant.
 */
module RectButton {
  import opened JavaInt
  import opened ClickMachine

  /**
   * `init`: with attributes, each configuration field takes the supplied
   * value or its default (drawables have none: absent means null); without
   * attributes every field keeps Java's zero value.
   */
  function LoadStyle(attrs: Option<Attributes>): (st: Style)
    ensures attrs.None? ==> st == ZeroStyle
    ensures attrs.Some? ==>
              && st.animationDuration == ValueOr(attrs.value.animationDuration, DEFAULT_ANIMATION_DURATION)
              && st.padding == ValueOr(attrs.value.animationPadding, DEFAULT_PADDING)
              && st.tint == ValueOr(attrs.value.animationTint, DEFAULT_ANIMATION_TINT)
              && st.backgroundNormal == attrs.value.backgroundNormal
              && st.backgroundPressed == attrs.value.backgroundPressed
              && st.textColorNormal == ValueOr(attrs.value.textColorNormal, 0)
              && st.textColorPressed == ValueOr(attrs.value.textColorPressed, 0)
              && st.strokeWidth == ValueOr(attrs.value.strokeWidth, DEFAULT_STROKE_WIDTH)
  {
    match attrs
    case None => ZeroStyle
    case Some(a) =>
      Style(ValueOr(a.animationDuration, DEFAULT_ANIMATION_DURATION),
            ValueOr(a.animationPadding, DEFAULT_PADDING),
            ValueOr(a.animationTint, DEFAULT_ANIMATION_TINT),
            a.backgroundNormal,
            a.backgroundPressed,
            ValueOr(a.textColorNormal, 0),
            ValueOr(a.textColorPressed, 0),
            ValueOr(a.strokeWidth, DEFAULT_STROKE_WIDTH))
  }

  /** A widget built without attributes has no pairs: it never swaps background or text colour. */
  lemma NoAttributesNoPairs()
    ensures var m := Fresh(LoadStyle(None));
            !m.hasPressedBackground && !m.hasPressedColor && m.background == None && m.textColor == None
            && ScaleEnd(m.style) == 0 && ClickAnimation(m.style, Start).duration == 0
  {
  }

  /** Each pair is enabled exactly when both of its attributes are supplied (a colour 0 counts as absent). */
  lemma PairsNeedBothAttributes(a: Attributes)
    ensures PairedBackground(LoadStyle(Some(a))) <==> a.backgroundNormal.Some? && a.backgroundPressed.Some?
    ensures PairedTextColor(LoadStyle(Some(a))) <==>
              a.textColorNormal.Some? && a.textColorNormal.value != 0
              && a.textColorPressed.Some? && a.textColorPressed.value != 0
  {
  }

  /** The rectangle `onDraw` strokes, and the corner radius (the same on both axes). */
  datatype RoundRect = RoundRect(left: real, top: real, right: real, bottom: real, radius: real)

  /** One call to `drawRoundRect`: the shape, the paint's stroke width and its colour. */
  datatype Outline = Outline(rect: RoundRect, strokeWidth: Int32, color: Int32)

  /**
   * The outline geometry for a measured size: the rectangle is inset by
   * `padding - scale` from every edge of the view and its corners are
   * rounded by `padding`. `width - padding` is an `int` subtraction and wraps.
   */
  function OutlineRect(st: Style, scale: real, width: Int32, height: Int32): (r: RoundRect)
    ensures r.radius == st.padding as real
    ensures r.left == st.padding as real - scale && r.top == st.padding as real - scale
    ensures InInt32(width - st.padding) ==> width as real - r.right == st.padding as real - scale
    ensures InInt32(height - st.padding) ==> height as real - r.bottom == st.padding as real - scale
  {
    var inset := st.padding as real - scale;
    RoundRect(inset, inset,
              Wrap32(width - st.padding) as real + scale,
              Wrap32(height - st.padding) as real + scale,
              st.padding as real)
  }

  /**
   * At the end point of the start animation the rectangle sits half a
   * stroke (Java division) inside the view on every edge, so the stroke
   * reaches the view's border.
   */
  lemma FullExtentInsetIsHalfStroke(st: Style, width: Int32, height: Int32)
    requires InInt32(st.padding - JavaDiv(st.strokeWidth, 2))
    requires InInt32(width - st.padding) && InInt32(height - st.padding)
    ensures var r := OutlineRect(st, ScaleEnd(st) as real, width, height);
            var half := JavaDiv(st.strokeWidth, 2) as real;
            r.left == half && r.top == half && width as real - r.right == half && height as real - r.bottom == half
  {
  }

  /** With the default padding 20 and stroke 8 the start animation ends at 16, a 4-pixel inset. */
  lemma DefaultsEndAtSixteen(width: Int32, height: Int32)
    ensures var st := LoadStyle(Some(Attributes(None, None, None, None, None, None, None, None)));
            ScaleEnd(st) == 16 && ClickAnimation(st, Start).duration == 250
            && OutlineRect(st, ScaleEnd(st) as real, width, height).left == 4.0
  {
  }

  class DemoButton {
    const style: Style
    const hasPressedColor: bool
    const hasPressedBackground: bool
    /** `mState` */
    var state: Phase
    var isAnimating: bool
    /** `isPressed()`, as the base widget maintains it. */
    var pressed: bool
    var scale: real
    /** The background and text colour this widget has applied (`None`: never set by it). */
    var background: Option<Drawable>
    var textColor: Option<Int32>
    /** `mScaleStartAnimator` and `mScaleDoneAnimator`. */
    var startAnimator: Option<Animation>
    var doneAnimator: Option<Animation>
    /** The animator started but whose start callback has not been delivered yet. */
    var pending: Option<Direction>
    /** The animator whose start callback has come and whose end callback has not, as it tracks itself. */
    var running: Option<Direction>

    /** The widget's state as a value of the shared machine. */
    function Snapshot(): Machine
      reads this
    {
      Machine(style, hasPressedColor, hasPressedBackground, state, isAnimating, pressed, scale,
              background, textColor, startAnimator, doneAnimator, pending, running)
    }

    /** Construction followed by `init(attrs)`. */
    constructor (attrs: Option<Attributes>)
      ensures style == LoadStyle(attrs)
      ensures Snapshot() == Fresh(style)
      ensures Coherent(Snapshot())
    {
      var st := LoadStyle(attrs);
      style := st;
      hasPressedBackground := st.backgroundNormal != None && st.backgroundPressed != None;
      hasPressedColor := st.textColorNormal != 0 && st.textColorPressed != 0;
      state := StopEnd;
      isAnimating := false;
      pressed := false;
      scale := INITIAL_SCALE;
      background := None;
      textColor := None;
      startAnimator := None;
      doneAnimator := None;
      pending := None;
      running := None;
      new;
      if hasPressedBackground {
        background := style.backgroundNormal;
      }
      if hasPressedColor {
        textColor := Some(style.textColorNormal);
      }
      FreshCoherent(style);
    }

    /** `onTouchEvent`: consumes every event; DOWN and UP may start an animation. */
    method OnTouchEvent(action: Int32) returns (handled: bool)
      modifies this
      ensures handled
      ensures Snapshot() == Touched(old(Snapshot()), action)
    {
      var masked := ActionMasked(action);
      if masked == ACTION_DOWN {
        if !isAnimating && state == StopEnd {
          StartClickAnimation();
        }
      } else if masked == ACTION_UP {
        if !isAnimating && state == StartEnd {
          StopClickAnimation();
        }
      }
      handled := true;
    }

    /** The base widget's press tracking changes `isPressed()`. */
    method SetPressed(p: bool)
      modifies this
      ensures Snapshot() == PressChanged(old(Snapshot()), p)
    {
      pressed := p;
    }

    /** `setScale`, the animated property's setter; the redraw it requests is not modelled. */
    method SetScale(position: real)
      modifies this
      ensures Snapshot() == ScaleSet(old(Snapshot()), position)
    {
      scale := position;
    }

    /** `startClickAnimation`: create the start animator and start it. */
    method StartClickAnimation()
      modifies this
      ensures Snapshot() == StartRequested(old(Snapshot()))
    {
      startAnimator := Some(ClickAnimation(style, Start));
      pending := Some(Start);
    }

    /** `stopClickAnimation`: create the stop animator and start it. */
    method StopClickAnimation()
      modifies this
      ensures Snapshot() == StopRequested(old(Snapshot()))
    {
      doneAnimator := Some(ClickAnimation(style, Stop));
      pending := Some(Stop);
    }

    /** The start animator's `onAnimationStart`. */
    method OnStartAnimationStart()
      modifies this
      ensures Snapshot() == StartBegun(old(Snapshot()))
    {
      pending := None;
      running := Some(Start);
      isAnimating := true;
      state := StartBegin;
      if hasPressedColor {
        textColor := Some(style.textColorPressed);
      }
      if hasPressedBackground {
        background := style.backgroundPressed;
      }
    }

    /** The start animator's `onAnimationEnd`. */
    method OnStartAnimationEnd()
      modifies this
      ensures Snapshot() == StartEnded(old(Snapshot()))
    {
      running := None;
      isAnimating := false;
      state := StartEnd;
      if !pressed {
        StopClickAnimation();
      }
    }

    /** The stop animator's `onAnimationStart`. */
    method OnStopAnimationStart()
      modifies this
      ensures Snapshot() == StopBegun(old(Snapshot()))
    {
      pending := None;
      running := Some(Stop);
      isAnimating := true;
      state := StopBegin;
    }

    /** The stop animator's `onAnimationEnd`. */
    method OnStopAnimationEnd()
      modifies this
      ensures Snapshot() == StopEnded(old(Snapshot()))
    {
      running := None;
      isAnimating := false;
      state := StopEnd;
      if hasPressedColor {
        textColor := Some(if pressed then style.textColorPressed else style.textColorNormal);
      }
      if hasPressedBackground {
        background := if pressed then style.backgroundPressed else style.backgroundNormal;
      }
    }

    /**
     * `onDraw` after the base widget has drawn itself: the outline is
     * stroked, with the configured stroke width and tint, exactly when it is
     * visible.
     */
    method OnDraw(width: Int32, height: Int32) returns (drawn: Option<Outline>)
      ensures drawn.Some? <==> OutlineVisible(Snapshot())
      ensures drawn.Some? ==> drawn.value.strokeWidth == style.strokeWidth && drawn.value.color == style.tint
      ensures drawn.Some? ==> drawn.value.rect == OutlineRect(style, scale, width, height)
    {
      if isAnimating || state != StopEnd {
        drawn := Some(Outline(OutlineRect(style, scale, width, height), style.strokeWidth, style.tint));
      } else {
        drawn := None;
      }
    }

    /**
     * The host delivering one event to the widget: the handler that event
     * reaches performs the machine's step, and a deliverable event keeps the
     * widget coherent.
     */
    method Dispatch(e: Event)
      requires Coherent(Snapshot()) && Deliverable(Snapshot(), e)
      modifies this
      ensures Snapshot() == Step(old(Snapshot()), e)
      ensures Coherent(Snapshot())
    {
      StepPreservesCoherent(Snapshot(), e);
      match e
      case Touch(a) =>
        var _ := OnTouchEvent(a);
      case PressedChanged(p) => SetPressed(p);
      case Frame(v) => SetScale(v);
      case StartAnimationStart => OnStartAnimationStart();
      case StartAnimationEnd => OnStartAnimationEnd();
      case StopAnimationStart => OnStopAnimationStart();
      case StopAnimationEnd => OnStopAnimationEnd();
    }
  }
}
