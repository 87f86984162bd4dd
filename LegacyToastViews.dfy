/** The older toast view at the package root (Sources/ALToast/ALToastMessageView.swift),
    the one `ALMessage` and the `ALToast` presenter use. It has its own
    anchor without offsets, slides 200 points down for a bottom anchor and 200
    points up otherwise, plays no haptic cue, and stacks its accessory and
    label in a horizontal stack view.

    As in the newer view, animation completions and the auto-hide timer are
    `pending` events the environment fires. The ghost counter `installs`
    counts installed dismiss callbacks, and `Valid()` states that no
    installed callback ever runs twice. */
module LegacyToastViews {
  import opened Platform
  import ToastViews

  /** `ALToastMessageView.OriginSide`. */
  datatype LegacyOrigin = Bottom | Center | Top

  datatype LegacyEvent =
    | EntranceEnded(hideAfter: Option<real>)
    | HideTimer(after: real)
    | ExitEnded

  datatype StackItem = LabelItem | SpinnerItem | ImageItem

  /** The entrance start and exit end transform: `origin == .bottom ? 200 : -200`.
      `origin` is an implicitly unwrapped optional, so an unset origin compares
      unequal to `.bottom`. */
  function SlideOffset(origin: Option<LegacyOrigin>): (y: real)
    ensures y == 200.0 <==> origin == Some(Bottom)
    ensures y == -200.0 <==> origin != Some(Bottom)
  {
    if origin == Some(Bottom) then 200.0 else -200.0
  }

  /** The lazily built stack: [label, spinner] for a progress toast (whose
      spinner starts when the stack is built), [image, label] otherwise. */
  function Stack(isProgress: bool): (items: seq<StackItem>)
    ensures |items| == 2
    ensures isProgress ==> items == [LabelItem, SpinnerItem]
    ensures !isProgress ==> items == [ImageItem, LabelItem]
    ensures SpinnerItem in items <==> isProgress
    ensures ImageItem in items <==> !isProgress
  {
    if isProgress then [LabelItem, SpinnerItem] else [ImageItem, LabelItem]
  }

  /** Vertical placement: anchors other than `.center` are pinned 8 points
      from the bottom edge when `.bottom` and from the top edge otherwise;
      `.center` is centred. */
  function LegacyPlacement(origin: LegacyOrigin): (pl: Placement)
    ensures pl.PinBottom? <==> origin.Bottom?
    ensures pl.PinTop? <==> origin.Top?
    ensures pl.CenterY? <==> origin.Center?
    ensures !pl.CenterY? ==> pl.padding == 8.0
    ensures pl.CenterY? ==> pl.constant == 0.0
  {
    if origin != Center then
      (if origin == Bottom then PinBottom(8.0) else PinTop(8.0))
    else
      CenterY(0.0)
  }

  /** `didMoveToSuperview` constraints: 48 high, and as wide as the host's
      share (5/6 on a phone, 2/5 elsewhere) with no cap from the content. */
  function LegacyConstraints(origin: LegacyOrigin, hostWidth: real, isPhone: bool): (c: Constraints)
    ensures c.height == 48.0
    ensures c.width == hostWidth * ToastViews.WidthFraction(isPhone)
    ensures c.vertical == LegacyPlacement(origin)
  {
    Constraints(hostWidth * ToastViews.WidthFraction(isPhone), ToastViews.ToastHeight(), LegacyPlacement(origin))
  }

  class LegacyToastMessageView {
    var superview: Option<Host>
    var isHidden: bool
    var alpha: real
    var transformY: real
    var constraints: Option<Constraints>
    var origin: Option<LegacyOrigin>
    var onDismiss: Option<Callback>
    var onPositiveButtonTap: Option<Callback>
    var spinnerAnimating: bool
    var pending: seq<LegacyEvent>
    var trace: seq<Effect>

    var text: Option<string>
    var symbolName: Option<string>
    var tint: Color
    var background: Option<Color>

    const shadowing: bool
    const isProgress: bool
    const stack: seq<StackItem>

    ghost var installs: nat

    /** Every invocation of a dismiss callback, plus the callback still
        installed, is accounted for by an installation. */
    ghost predicate Valid()
      reads this
    {
      Dismissals(trace) + (if onDismiss.Some? then 1 else 0) <= installs
    }

    constructor (shadowing: bool := true, isProgress: bool := false)
      ensures Valid()
      ensures superview.None? && !isHidden && alpha == 1.0 && transformY == 0.0
      ensures constraints.None? && origin.None? && onDismiss.None? && onPositiveButtonTap.None?
      ensures pending == [] && trace == [] && installs == 0
      ensures text.None? && symbolName.None? && tint == Black && background.None?
      ensures this.shadowing == shadowing && this.isProgress == isProgress
      ensures stack == Stack(isProgress) && spinnerAnimating == isProgress
    {
      superview, isHidden, alpha, transformY := None, false, 1.0, 0.0;
      constraints, origin, onDismiss, onPositiveButtonTap := None, None, None, None;
      pending, trace, installs := [], [], 0;
      text, symbolName, tint, background := None, None, Black, None;
      this.shadowing, this.isProgress := shadowing, isProgress;
      stack := Stack(isProgress);
      spinnerAnimating := isProgress;
    }

    /** Assigning `onDismiss`. */
    method SetOnDismiss(callback: Option<Callback>)
      requires Valid()
      modifies this`onDismiss, this`installs
      ensures Valid() && onDismiss == callback
      ensures installs == old(installs) + (if callback.Some? then 1 else 0)
    {
      onDismiss := callback;
      if callback.Some? {
        installs := installs + 1;
      }
    }

    /** `show(on:origin:animated:hideAfter:)`; the host's width and the device
        kind come from UIKit. */
    method Show(host: Host, hostWidth: real, isPhone: bool, origin: LegacyOrigin := Bottom,
                animated: bool := true, hideAfter: Option<real> := Some(4.0))
      requires Valid()
      modifies this`superview, this`isHidden, this`alpha, this`transformY, this`constraints,
               this`origin, this`pending, this`trace
      ensures Valid()
      ensures old(superview).Some? ==>
        && superview == old(superview) && isHidden == old(isHidden) && alpha == old(alpha)
        && transformY == old(transformY) && constraints == old(constraints)
        && this.origin == old(this.origin) && pending == old(pending) && trace == old(trace)
      ensures old(superview).None? ==> this.origin == Some(origin)
      ensures old(superview).None? && !animated ==>
        && superview.None? && !isHidden && pending == old(pending) && trace == old(trace)
        && alpha == old(alpha) && transformY == old(transformY) && constraints == old(constraints)
      ensures old(superview).None? && animated ==>
        && superview == Some(host)
        && isHidden == old(isHidden)
        && constraints == Some(LegacyConstraints(origin, hostWidth, isPhone))
        && alpha == 1.0 && transformY == 0.0
        && trace == old(trace) + [Slid(SlideOffset(Some(origin)), 0.0, 1.0)]
        && pending == old(pending) + [EntranceEnded(hideAfter)]
    {
      if superview.None? {
        this.origin := Some(origin);
        if !animated {
          isHidden := false;
        } else {
          superview := Some(host);
          // didMoveToSuperview
          constraints := Some(LegacyConstraints(origin, hostWidth, isPhone));
          var startY := SlideOffset(Some(origin));
          // the animation block runs at once; its completion waits
          CountSnoc(trace, Slid(startY, 0.0, 1.0), IsDismissal);
          trace := trace + [Slid(startY, 0.0, 1.0)];
          alpha, transformY := 1.0, 0.0;
          pending := pending + [EntranceEnded(hideAfter)];
        }
      }
    }

    /** `hide(animated:)`. */
    method Hide(animated: bool := true)
      requires Valid()
      modifies this`isHidden, this`alpha, this`transformY, this`pending, this`trace
      ensures Valid()
      ensures old(superview).None? ==> unchanged(this)
      ensures old(superview).Some? && !animated ==>
        && isHidden && pending == old(pending) && trace == old(trace)
        && alpha == old(alpha) && transformY == old(transformY)
      ensures old(superview).Some? && animated ==>
        && alpha == 0.0 && transformY == SlideOffset(origin)
        && trace == old(trace) + [Slid(old(transformY), SlideOffset(origin), 0.0)]
        && pending == old(pending) + [ExitEnded]
        && isHidden == old(isHidden)
    {
      if superview.None? {
        return;
      }
      if !animated {
        isHidden := true;
        return;
      }
      var exitY := SlideOffset(origin);
      CountSnoc(trace, Slid(transformY, exitY, 0.0), IsDismissal);
      trace := trace + [Slid(transformY, exitY, 0.0)];
      alpha, transformY := 0.0, exitY;
      pending := pending + [ExitEnded];
    }

    /** `buttonDismiss`, the tap gesture target: the positive-tap callback, then an animated hide. */
    method ButtonDismiss()
      requires Valid()
      modifies this`isHidden, this`alpha, this`transformY, this`pending, this`trace
      ensures Valid()
      ensures var tap := if onPositiveButtonTap.Some? then [Tapped(onPositiveButtonTap.value)] else [];
        old(superview).None? ==>
          && trace == old(trace) + tap && pending == old(pending)
          && alpha == old(alpha) && transformY == old(transformY) && isHidden == old(isHidden)
      ensures var tap := if onPositiveButtonTap.Some? then [Tapped(onPositiveButtonTap.value)] else [];
        old(superview).Some? ==>
          && trace == old(trace) + tap + [Slid(old(transformY), SlideOffset(origin), 0.0)]
          && pending == old(pending) + [ExitEnded]
          && alpha == 0.0 && transformY == SlideOffset(origin) && isHidden == old(isHidden)
    {
      if onPositiveButtonTap.Some? {
        CountSnoc(trace, Tapped(onPositiveButtonTap.value), IsDismissal);
        trace := trace + [Tapped(onPositiveButtonTap.value)];
      }
      Hide(true);
    }

    /** The entrance animation's completion, run with `completed == true`:
        unhide, and arm the hide timer when a delay was given. */
    method EndEntrance(hideAfter: Option<real>)
      requires Valid()
      modifies this`isHidden, this`pending
      ensures Valid() && !isHidden
      ensures pending == old(pending) + (if hideAfter.Some? then [HideTimer(hideAfter.value)] else [])
    {
      isHidden := false;
      if hideAfter.Some? {
        pending := pending + [HideTimer(hideAfter.value)];
      }
    }

    /** The exit animation's completion, run with `completed == true`: hide,
        drop the constraints, detach, invoke the dismiss callback and clear it. */
    method EndExit()
      requires Valid()
      modifies this`isHidden, this`constraints, this`superview, this`onDismiss, this`trace
      ensures Valid()
      ensures superview.None? && isHidden && constraints.None? && onDismiss.None?
      ensures trace == old(trace) + (if old(onDismiss).Some? then [Dismissed(old(onDismiss).value)] else [])
    {
      isHidden := true;
      constraints := None;
      superview := None;
      if onDismiss.Some? {
        CountSnoc(trace, Dismissed(onDismiss.value), IsDismissal);
        trace := trace + [Dismissed(onDismiss.value)];
      }
      onDismiss := None;
    }

    /** The main queue runs the `i`-th pending completion or timer. */
    method Fire(i: nat, completed: bool)
      requires Valid() && i < |pending|
      modifies this`superview, this`isHidden, this`alpha, this`transformY, this`constraints,
               this`onDismiss, this`pending, this`trace
      ensures Valid()
      ensures old(pending[i]).EntranceEnded? && completed ==>
        && !isHidden && trace == old(trace)
        && pending == Without(old(pending), i) +
             (if old(pending[i]).hideAfter.Some? then [HideTimer(old(pending[i]).hideAfter.value)] else [])
      ensures old(pending[i]).ExitEnded? && completed ==>
        && superview.None? && isHidden && constraints.None? && onDismiss.None?
        && pending == Without(old(pending), i)
        && trace == old(trace) + (if old(onDismiss).Some? then [Dismissed(old(onDismiss).value)] else [])
      ensures !old(pending[i]).HideTimer? && !completed ==>
        pending == Without(old(pending), i) && trace == old(trace)
      ensures !(old(pending[i]).ExitEnded? && completed) ==>
        superview == old(superview) && constraints == old(constraints) && onDismiss == old(onDismiss)
      ensures !old(pending[i]).HideTimer? ==> alpha == old(alpha) && transformY == old(transformY)
      ensures !((old(pending[i]).EntranceEnded? || old(pending[i]).ExitEnded?) && completed) ==>
        isHidden == old(isHidden)
      ensures old(pending[i]).HideTimer? && old(superview).None? ==>
        alpha == old(alpha) && transformY == old(transformY)
      ensures old(pending[i]).HideTimer? && old(superview).None? ==>
        pending == Without(old(pending), i) && trace == old(trace)
      ensures old(pending[i]).HideTimer? && old(superview).Some? ==>
        && alpha == 0.0 && transformY == SlideOffset(origin)
        && pending == Without(old(pending), i) + [ExitEnded]
        && trace == old(trace) + [Slid(old(transformY), SlideOffset(origin), 0.0)]
    {
      var event := pending[i];
      pending := Without(pending, i);
      match event {
        case EntranceEnded(hideAfter) =>
          if completed {
            EndEntrance(hideAfter);
          }
        case HideTimer(_) =>
          Hide(true);
        case ExitEnded =>
          if completed {
            EndExit();
          }
      }
    }
  }

  /** The full cycle on the legacy view: a detached view with a dismiss
      callback is shown at the top, its entrance completes, the timer hides
      it and its exit completes. It slides in from above and back out, ends
      detached with nothing pending, and its callback runs exactly once and
      is cleared. */
  method ShowHideCycle(v: LegacyToastMessageView, host: Host, hostWidth: real, isPhone: bool, after: real)
    requires v.Valid() && v.superview.None? && v.pending == [] && v.onDismiss.Some?
    modifies v
    ensures v.Valid() && v.superview.None? && v.onDismiss.None? && v.pending == []
    ensures v.isHidden && v.constraints.None? && v.origin == Some(Top)
    ensures v.trace == old(v.trace) + [Slid(-200.0, 0.0, 1.0), Slid(0.0, -200.0, 0.0),
                                       Dismissed(old(v.onDismiss).value)]
    ensures Dismissals(v.trace) == Dismissals(old(v.trace)) + 1
  {
    var callback := v.onDismiss.value;
    ghost var t0 := v.trace;
    var a, b, c := Slid(-200.0, 0.0, 1.0), Slid(0.0, -200.0, 0.0), Dismissed(callback);
    v.Show(host, hostWidth, isPhone, Top, true, Some(after));
    assert v.pending == [EntranceEnded(Some(after))] && v.trace == t0 + [a];
    v.Fire(0, true);
    assert v.pending == [HideTimer(after)] && v.trace == t0 + [a];
    v.Fire(0, true);
    assert v.pending == [ExitEnded] && v.trace == t0 + [a] + [b];
    v.Fire(0, true);
    assert v.trace == t0 + [a] + [b] + [c];
    assert t0 + [a] + [b] + [c] == t0 + [a, b, c];
    CountSnoc(t0, a, IsDismissal);
    CountSnoc(t0 + [a], b, IsDismissal);
    CountSnoc(t0 + [a] + [b], c, IsDismissal);
  }
}
