/** The toast message view (Sources/ALToast/Views/ALToastMessageView.swift):
    a pill-shaped `ALMessageView` with an accessory (spinner or image) on the
    leading side, a label, and a size and vertical placement decided when it
    is attached to its host.

    The subclass is modelled by composition: a `ToastMessageView` owns the
    `MessageView` whose lifecycle it uses, and passes its own
    `didMoveToSuperview` to `show` as a `DidMove` record. */
module ToastViews {
  import opened Platform
  import opened OriginSides
  import opened MessageViews

  /** The accessory `setupBaseComponents` adds next to the label. */
  datatype Accessory = Spinner | ImageView

  /** Horizontal room the label leaves beside the accessory. */
  const TrailingRoom: real := LabelHeight / 2.0

  /** Padding between a pinned toast and the host's safe-area edge, before the anchor's offset. */
  const EdgePadding: real := 8.0

  /** `setupBaseComponents`: a progress toast gets the spinner, any other toast the image. */
  function AccessoryFor(isProgress: bool): (a: Accessory)
    ensures a == Spinner <==> isProgress
    ensures a == ImageView <==> !isProgress
  {
    if isProgress then Spinner else ImageView
  }

  /** The toast's height: the label height plus a padding above and below. */
  function ToastHeight(): (h: real)
    ensures h == 48.0
  {
    SinglePadding * 2.0 + LabelHeight
  }

  /** Share of the host's width a toast may take: 5/6 on a phone, 2/5 elsewhere. */
  function WidthFraction(isPhone: bool): (f: real)
    ensures isPhone ==> f == 5.0 / 6.0
    ensures !isPhone ==> f == 2.0 / 5.0
    ensures 0.0 < f < 1.0
  {
    if isPhone then 5.0 / 6.0 else 2.0 / 5.0
  }

  /** `subViewsWidth()`: accessory (at least as wide as the toast is high),
      then the label, then half a label height of room. */
  function SubViewsWidth(imageWidth: real, labelWidth: real): (w: real)
    ensures w >= ToastHeight() + labelWidth + TrailingRoom
    ensures w >= imageWidth + labelWidth + TrailingRoom
    ensures w == ToastHeight() + labelWidth + 20.0 || w == imageWidth + labelWidth + 20.0
  {
    Max(imageWidth, ToastHeight()) + labelWidth + TrailingRoom
  }

  /** The toast's width: what its content needs, capped at its share of the host. */
  function ToastWidth(hostWidth: real, isPhone: bool, contentWidth: real): (w: real)
    ensures w <= hostWidth * WidthFraction(isPhone)
    ensures w <= contentWidth
    ensures w == contentWidth || w == hostWidth * WidthFraction(isPhone)
  {
    Min(hostWidth * WidthFraction(isPhone), contentWidth)
  }

  /** Vertical placement: a non-centre anchor is pinned to the top edge when it
      is a top anchor and to the bottom edge otherwise, 8 plus its offset away;
      a centre anchor is centred, shifted by its offset. */
  function VerticalPlacement(o: OriginSide): (pl: Placement)
    ensures pl.CenterY? <==> IsCenter(o)
    ensures pl.PinTop? <==> IsTop(o)
    ensures pl.PinBottom? <==> o.Bottom?
    ensures !pl.CenterY? ==> pl.padding == EdgePadding + Offset(o)
    ensures pl.CenterY? ==> pl.constant == Offset(o)
  {
    if !IsCenter(o) then
      if !IsTop(o) then PinBottom(EdgePadding + Offset(o)) else PinTop(EdgePadding + Offset(o))
    else
      CenterY(Offset(o))
  }

  /** `didMoveToSuperview`: size and placement constraints, the entrance
      transform, and the spinner started for a progress toast. */
  function ToastDidMove(origin: OriginSide, hostWidth: real, isPhone: bool,
                        imageWidth: real, labelWidth: real, isProgress: bool): (m: DidMove)
    ensures m.constraints.Some?
    ensures m.constraints.value.height == ToastHeight()
    ensures m.constraints.value.width == ToastWidth(hostWidth, isPhone, SubViewsWidth(imageWidth, labelWidth))
    ensures m.constraints.value.vertical == VerticalPlacement(origin)
    ensures m.startY == Some(LayoutStartingOffset(origin))
    ensures m.startsSpinner <==> isProgress
  {
    var width := ToastWidth(hostWidth, isPhone, SubViewsWidth(imageWidth, labelWidth));
    DidMove(Some(Constraints(width, ToastHeight(), VerticalPlacement(origin))),
            Some(LayoutStartingOffset(origin)),
            isProgress)
  }

  /** `updateLabelFrame()`: the label starts one toast-height in (past the
      square accessory) at the top, is as tall as the toast and as wide as
      its text, but never runs past the toast's right edge. */
  function LabelFrame(frameWidth: real, frameHeight: real, labelWidth: real): (r: Rect)
    ensures r.x == frameHeight && r.y == 0.0 && r.height == frameHeight
    ensures r.width <= labelWidth
    ensures r.x + r.width <= frameWidth
    ensures r.width == labelWidth || r.x + r.width == frameWidth
  {
    Rect(frameHeight, 0.0, Min(labelWidth, frameWidth - frameHeight), frameHeight)
  }

  /** Wherever a toast is anchored, its width respects its share of the host,
      and a top toast slides in from above while the others come from below. */
  lemma ToastEntrance(origin: OriginSide, hostWidth: real, isPhone: bool,
                      imageWidth: real, labelWidth: real, isProgress: bool)
    ensures var m := ToastDidMove(origin, hostWidth, isPhone, imageWidth, labelWidth, isProgress);
            && (origin.Top? <==> m.startY.value < Offset(origin))
            && (origin.Top? <==> m.constraints.value.vertical.PinTop?)
  {
  }

  class ToastMessageView {
    const base: MessageView
    const accessory: Accessory

    constructor (shadowing: bool := true, isProgress: bool := false)
      ensures fresh(base) && base.Valid() && base.State() == Initial()
      ensures base.isProgress == isProgress && base.shadowing == shadowing
      ensures accessory == AccessoryFor(isProgress)
    {
      base := new MessageView(shadowing, isProgress);
      accessory := AccessoryFor(isProgress);
    }

    /** `show` inherited from `ALMessageView`, with this view's `didMoveToSuperview`;
        the host's width, the device kind and the measured image and label
        widths come from UIKit. */
    method Show(host: Host, hostWidth: real, isPhone: bool, imageWidth: real, labelWidth: real,
                origin: OriginSide := Bottom(0.0), animated: bool := true,
                hideAfter: Option<real> := Some(4.0))
      requires base.Valid()
      modifies base`superview, base`isHidden, base`alpha, base`transformY, base`constraints,
               base`origin, base`spinnerAnimating, base`pending, base`trace
      ensures base.Valid()
      ensures base.State() == AfterShow(old(base.State()), host, origin, animated, hideAfter,
                                        ToastDidMove(origin, hostWidth, isPhone, imageWidth, labelWidth, base.isProgress))
      ensures old(base.superview).None? && animated ==>
        && base.constraints.Some?
        && base.constraints.value.height == ToastHeight()
        && base.constraints.value.width <= hostWidth * WidthFraction(isPhone)
        && base.constraints.value.vertical == VerticalPlacement(origin)
        && base.trace == old(base.trace) + [Slid(LayoutStartingOffset(origin), 0.0, 1.0)]
        && (base.isProgress ==> base.spinnerAnimating)
    {
      var hook := ToastDidMove(origin, hostWidth, isPhone, imageWidth, labelWidth, base.isProgress);
      base.Show(host, origin, animated, hideAfter, hook);
    }
  }
}
