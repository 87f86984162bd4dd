/** The `ALToast` presenter (Sources/ALToast/ALToast.swift): one-call
    success, warning and info toasts, built on the legacy toast view and
    shown at the top of a host for one and a half seconds.

    The presenter's static `rootPresentable` is a parameter here, and so
    are the host's width and the device kind the view reads from UIKit. */
module Presenter {
  import opened Platform
  import SemanticColors
  import opened LegacyToastViews

  /** How long a presenter toast stays up. */
  const PresenterHideAfter: real := 1.5

  /** The host a toast goes to: the explicit one when given, else the root;
      with neither there is nothing to show on. */
  function ResolveHost(explicit: Option<Host>, root: Option<Host>): (h: Option<Host>)
    ensures h.None? <==> explicit.None? && root.None?
    ensures explicit.Some? ==> h == explicit
    ensures explicit.None? ==> h == root
  {
    if explicit.Some? then explicit else root
  }

  /** The toast's tint: the caller's colour, else the tint of the semantic background. */
  function ToastTint(tintColor: Option<Color>, background: SemanticColors.SemanticColor): (c: Color)
    ensures tintColor.Some? ==> c == tintColor.value
    ensures tintColor.None? && background.Info? ==> c == Label
    ensures tintColor.None? && !background.Info? ==> c == White
  {
    tintColor.GetOr(SemanticColors.TintColor(background))
  }

  /** A view configured as `prepareAndShow` configures it, before it is shown. */
  predicate Configured(t: LegacyToastMessageView, text: Option<string>, image: Option<string>,
                       tintColor: Option<Color>, background: SemanticColors.SemanticColor,
                       onTap: Option<Callback>)
    reads t
  {
    && !t.shadowing && !t.isProgress
    && t.text == text && t.symbolName == image
    && t.tint == ToastTint(tintColor, background)
    && t.background == SemanticColors.FillColor(background)
    && t.onPositiveButtonTap == onTap
  }

  /** A toast as `prepareAndShow` leaves it: attached to `host`, anchored at
      the top with the legacy constraints, sliding in from above, with its
      entrance completion queued to arm the 1.5-second hide, and no dismiss
      callback yet. */
  ghost predicate ShownAtTop(t: LegacyToastMessageView, host: Option<Host>, hostWidth: real, isPhone: bool)
    reads t
  {
    && t.Valid()
    && t.superview == host
    && !t.isHidden && t.alpha == 1.0 && t.transformY == 0.0 && !t.spinnerAnimating
    && t.origin == Some(Top)
    && t.constraints == Some(LegacyConstraints(Top, hostWidth, isPhone))
    && t.onDismiss.None?
    && t.pending == [EntranceEnded(Some(PresenterHideAfter))]
    && t.trace == [Slid(SlideOffset(Some(Top)), 0.0, 1.0)]
  }

  /** `prepareAndShow(with:image:tintColor:backgroundColor:on:onTap:)`: with
      no host it does nothing; otherwise a new, unshadowed toast is
      configured and slides in at the top, set to hide after 1.5 seconds. */
  method PrepareAndShow(text: Option<string>, image: Option<string>, tintColor: Option<Color>,
                        background: SemanticColors.SemanticColor, view: Option<Host>,
                        onTap: Option<Callback>, root: Option<Host>, hostWidth: real, isPhone: bool)
    returns (toast: Option<LegacyToastMessageView>)
    ensures toast.Some? <==> ResolveHost(view, root).Some?
    ensures toast.Some? ==>
      && fresh(toast.value)
      && Configured(toast.value, text, image, tintColor, background, onTap)
      && ShownAtTop(toast.value, ResolveHost(view, root), hostWidth, isPhone)
  {
    var host := ResolveHost(view, root);
    if host.None? {
      return None;
    }
    var t := NewToast(text, image, tintColor, background, onTap);
    t.Show(host.value, hostWidth, isPhone, Top, true, Some(PresenterHideAfter));
    toast := Some(t);
  }

  /** The unshadowed view `prepareAndShow` creates and configures before showing it. */
  method NewToast(text: Option<string>, image: Option<string>, tintColor: Option<Color>,
                  background: SemanticColors.SemanticColor, onTap: Option<Callback>)
    returns (t: LegacyToastMessageView)
    ensures fresh(t) && t.Valid()
    ensures Configured(t, text, image, tintColor, background, onTap)
    ensures t.superview.None? && t.onDismiss.None? && t.pending == [] && t.trace == []
    ensures !t.isHidden && t.alpha == 1.0 && t.transformY == 0.0 && t.constraints.None?
    ensures t.origin.None? && !t.spinnerAnimating && t.installs == 0
  {
    t := new LegacyToastMessageView(false);
    t.text := text;
    t.symbolName := image;
    t.tint := ToastTint(tintColor, background);
    t.background := SemanticColors.FillColor(background);
    t.onPositiveButtonTap := onTap;
  }

  /** `success(with:image:tintColor:backgroundColor:on:onTap:)`: a green toast by default. */
  method Success(text: Option<string> := None, image: Option<string> := None,
                 tintColor: Option<Color> := None,
                 background: SemanticColors.SemanticColor := SemanticColors.Success,
                 view: Option<Host> := None, onTap: Option<Callback> := None,
                 root: Option<Host> := None, hostWidth: real, isPhone: bool)
    returns (toast: Option<LegacyToastMessageView>)
    ensures toast.Some? <==> ResolveHost(view, root).Some?
    ensures toast.Some? ==>
      && fresh(toast.value)
      && Configured(toast.value, text, image, tintColor, background, onTap)
      && ShownAtTop(toast.value, ResolveHost(view, root), hostWidth, isPhone)
  {
    toast := PrepareAndShow(text, image, tintColor, background, view, onTap, root, hostWidth, isPhone);
  }

  /** `warning(with:image:tintColor:backgroundColor:on:onTap:)`: an orange toast by default. */
  method Warning(text: Option<string> := None, image: Option<string> := None,
                 tintColor: Option<Color> := None,
                 background: SemanticColors.SemanticColor := SemanticColors.Warning,
                 view: Option<Host> := None, onTap: Option<Callback> := None,
                 root: Option<Host> := None, hostWidth: real, isPhone: bool)
    returns (toast: Option<LegacyToastMessageView>)
    ensures toast.Some? <==> ResolveHost(view, root).Some?
    ensures toast.Some? ==>
      && fresh(toast.value)
      && Configured(toast.value, text, image, tintColor, background, onTap)
      && ShownAtTop(toast.value, ResolveHost(view, root), hostWidth, isPhone)
  {
    toast := PrepareAndShow(text, image, tintColor, background, view, onTap, root, hostWidth, isPhone);
  }

  /** `info(with:image:tintColor:backgroundColor:on:onTap:)`: no fill and a
      label-coloured tint by default. */
  method Info(text: Option<string> := None, image: Option<string> := None,
              tintColor: Option<Color> := None,
              background: SemanticColors.SemanticColor := SemanticColors.Info,
              view: Option<Host> := None, onTap: Option<Callback> := None,
              root: Option<Host> := None, hostWidth: real, isPhone: bool)
    returns (toast: Option<LegacyToastMessageView>)
    ensures toast.Some? <==> ResolveHost(view, root).Some?
    ensures toast.Some? ==>
      && fresh(toast.value)
      && Configured(toast.value, text, image, tintColor, background, onTap)
      && ShownAtTop(toast.value, ResolveHost(view, root), hostWidth, isPhone)
  {
    toast := PrepareAndShow(text, image, tintColor, background, view, onTap, root, hostWidth, isPhone);
  }

  /** With default colours, a success toast is filled green and tinted
      white, a warning toast orange and white, and an info toast has no
      fill and the label colour. */
  lemma DefaultLooks()
    ensures ToastTint(None, SemanticColors.Success) == White
    ensures SemanticColors.FillColor(SemanticColors.Success) == Some(SystemGreen)
    ensures ToastTint(None, SemanticColors.Warning) == White
    ensures SemanticColors.FillColor(SemanticColors.Warning) == Some(SystemOrange)
    ensures ToastTint(None, SemanticColors.Info) == Label
    ensures SemanticColors.FillColor(SemanticColors.Info).None?
  {
  }
}
