/** The animated status view (Sources/ALToast/Views/ALAnimatedMessageView.swift):
    a 200 by 200 square centred on its host that switches, without being
    detached, between a progress state (spinner) and success or warning
    states (image), each state showing the text, colours and haptic cue of
    its own stored message.

    The view reads `color`, `feedbackType` and `imageResource` from its
    messages; `StateMessage` is an abstract record carrying exactly the fields
    it reads. The subclass is modelled by composition over `MessageView`. */
module AnimatedViews {
  import opened Platform
  import opened OriginSides
  import opened SemanticColors
  import opened MessageViews

  datatype State = Progress | Success | Warning

  /** Abstract message record: text, colour role, haptic cue and image. */
  datatype StateMessage = StateMessage(
    message: Option<string>,
    color: SemanticColor,
    feedbackType: Feedback,
    imageResource: Option<ImageResource>)

  /** Opacity applied to the tint and fill of every state. */
  const StateAlpha: real := 0.7

  /** Side of the square the view occupies. */
  const SquareSide: real := 200.0

  /** `color.color?.withAlphaComponent(0.7)`. */
  function FadedFill(c: Option<Color>): (r: Option<Color>)
    ensures r.Some? <==> c.Some?
    ensures c.Some? ==> r.value == Faded(c.value, StateAlpha)
  {
    match c
    case Some(v) => Some(Faded(v, StateAlpha))
    case None => None
  }

  /** `didMoveToSuperview`: a centred 200 by 200 square; the spinner starts
      only in the progress state. Its entrance transform uses a member
      (`originStart`) that no source file defines, so it is left as it is. */
  function AnimatedDidMove(state: State): (m: DidMove)
    ensures m.constraints == Some(Constraints(SquareSide, SquareSide, CenterY(0.0)))
    ensures m.startY.None?
    ensures m.startsSpinner <==> state.Progress?
  {
    DidMove(Some(Constraints(SquareSide, SquareSide, CenterY(0.0))), None, state == Progress)
  }

  /** `updateLabelFrame()`: the label sits below the lower of the image and
      the spinner and fills the rest of the view. */
  function LabelFrame(imageMaxY: real, spinnerMaxY: real, frameWidth: real, frameHeight: real): (r: Rect)
    ensures r.x == 0.0 && r.width == frameWidth
    ensures r.y >= Abs(imageMaxY) && r.y >= Abs(spinnerMaxY)
    ensures r.y == Abs(imageMaxY) || r.y == Abs(spinnerMaxY)
    ensures r.y + r.height == frameHeight
  {
    var y := Max(Abs(imageMaxY), Abs(spinnerMaxY));
    Rect(0.0, y, frameWidth, frameHeight - y)
  }

  class AnimatedMessageView {
    const base: MessageView
    const successMessage: StateMessage
    const warningMessage: StateMessage
    const progressMessage: StateMessage
    var state: State
    var spinnerAttached: bool
    var imageAttached: bool

    /** The stored message that drives state `s`. */
    function MessageFor(s: State): (m: StateMessage)
      ensures s.Progress? ==> m == progressMessage
      ensures s.Success? ==> m == successMessage
      ensures s.Warning? ==> m == warningMessage
    {
      match s
      case Progress => progressMessage
      case Success => successMessage
      case Warning => warningMessage
    }

    /** Exactly one accessory is attached: the spinner in the progress state,
        the image in the others. */
    predicate Valid()
      reads this, base
    {
      && base.Valid()
      && (spinnerAttached <==> state.Progress?)
      && (imageAttached <==> !state.Progress?)
    }

    /** What `display(state:)` has written for state `s`. */
    predicate Displays(s: State)
      reads base
    {
      var m := MessageFor(s);
      && base.tintColor == Faded(TintColor(m.color), StateAlpha)
      && base.background == FadedFill(FillColor(m.color))
      && base.feedback == m.feedbackType
      && base.labelText == m.message
      && (!s.Progress? ==> base.symbolName == m.imageResource)
    }

    constructor (success: StateMessage, warning: StateMessage, progress: StateMessage,
                 initialState: State := Progress)
      ensures Valid() && fresh(base)
      ensures successMessage == success && warningMessage == warning && progressMessage == progress
      ensures state == initialState && Displays(initialState)
      ensures base.State() == Initial().(feedback := MessageFor(initialState).feedbackType)
      ensures base.shadowing && !base.isProgress
      ensures initialState.Progress? ==> base.symbolName.None?
    {
      base := new MessageView(true, false);
      successMessage, warningMessage, progressMessage := success, warning, progress;
      state := initialState;
      spinnerAttached, imageAttached := false, false;
      new;
      // super.init runs setup, whose setupBaseComponents attaches the accessories
      ConstraintAccessories();
      Display(initialState);
    }

    /** `display(state:)`: tint, fill, haptic cue and text from the message
        stored for `s`; the image only for success and warning. */
    method Display(s: State)
      modifies base`tintColor, base`background, base`feedback, base`symbolName, base`labelText
      ensures Displays(s)
      ensures s.Progress? ==> base.symbolName == old(base.symbolName)
      ensures base.State() == old(base.State()).(feedback := MessageFor(s).feedbackType)
    {
      var m := MessageFor(s);
      base.tintColor := Faded(TintColor(m.color), StateAlpha);
      base.background := FadedFill(FillColor(m.color));
      base.SetFeedback(m.feedbackType);
      if !s.Progress? {
        base.symbolName := m.imageResource;
      }
      base.labelText := m.message;
    }

    /** `constraintAccessories()`: attach the accessory of the current state and
        detach the other, unless the right one is attached already. */
    method ConstraintAccessories()
      requires !(spinnerAttached && imageAttached)
      modifies this`spinnerAttached, this`imageAttached
      ensures state.Progress? ==> spinnerAttached && !imageAttached
      ensures !state.Progress? ==> imageAttached && !spinnerAttached
      ensures old(spinnerAttached <==> state.Progress?) && old(imageAttached <==> !state.Progress?) ==>
                unchanged(this)
    {
      if state == Progress {
        if !spinnerAttached {
          spinnerAttached := true;
          imageAttached := false;
        }
      } else {
        if !imageAttached {
          imageAttached := true;
          spinnerAttached := false;
        }
      }
    }

    /** `update(_:shouldDismiss:)`: the new state is displayed at once, the
        accessories follow it, its haptic cue plays when the animation ends,
        and with `shouldDismiss` the view hides itself one second later. */
    method Update(s: State, shouldDismiss: bool := false)
      requires Valid()
      modifies this`state, this`spinnerAttached, this`imageAttached,
               base`tintColor, base`background, base`feedback, base`symbolName, base`labelText, base`pending
      ensures Valid() && state == s && Displays(s)
      ensures s.Progress? ==> base.symbolName == old(base.symbolName)
      ensures base.State() == AfterStateChange(old(base.State()), MessageFor(s).feedbackType, shouldDismiss)
    {
      state := s;
      Display(s);
      base.ScheduleStateChange(shouldDismiss);
      ConstraintAccessories();
    }

    /** `show` inherited from `ALMessageView`, with this view's `didMoveToSuperview`. */
    method Show(host: Host, origin: OriginSide := Bottom(0.0), animated: bool := true,
                hideAfter: Option<real> := Some(4.0))
      requires Valid()
      modifies base`superview, base`isHidden, base`alpha, base`transformY, base`constraints,
               base`origin, base`spinnerAnimating, base`pending, base`trace
      ensures Valid()
      ensures base.State() == AfterShow(old(base.State()), host, origin, animated, hideAfter, AnimatedDidMove(state))
      ensures old(base.superview).None? && animated ==>
        && base.constraints == Some(Constraints(SquareSide, SquareSide, CenterY(0.0)))
        && (state.Progress? ==> base.spinnerAnimating)
    {
      base.Show(host, origin, animated, hideAfter, AnimatedDidMove(state));
    }
  }
}
