/** The presentation lifecycle shared by every message view
    (Sources/ALToast/Views/ALMessageView.swift).

    A view is shown on a host (attached, slides in), becomes visible when its
    entrance animation completes, may arm an auto-hide timer, and slides out
    on hide, tap, swipe or timer; when the exit animation completes it is
    detached and its dismiss callback is invoked and cleared.

    UIKit runs an animation block at once (the model values change
    immediately) and calls the completion later with a `completed` flag, and
    `DispatchQueue.main.asyncAfter` calls its closure later. Both kinds of
    deferred work are `pending` events that the environment fires, in any
    order, with `Fire`. Everything runs on the main thread. */
module MessageViews {
  import opened Platform
  import opened OriginSides

  /** Layout constants of `ALMessageView`. */
  const LabelHeight: real := 40.0
  const SinglePadding: real := 4.0

  /** Delay before the animated view hides itself after `update(_:shouldDismiss: true)`. */
  const UpdateDismissDelay: real := 1.0

  /** Deferred work waiting on the main queue. */
  datatype Event =
    | EntranceEnded(hideAfter: Option<real>)  // completion of the show animation
    | HideTimer(after: real)                  // the delayed `hide(animated: true)`
    | ExitEnded                               // completion of the hide animation
    | UpdateEnded                             // completion of the animated view's state change

  /** What the concrete view's `didMoveToSuperview` does when it is attached:
      the constraints it installs, the transform y it starts from and whether
      it starts the spinner. `None` leaves the current value. */
  datatype DidMove = DidMove(constraints: Option<Constraints>, startY: Option<real>, startsSpinner: bool)

  /** `ALMessageView` itself overrides nothing. */
  const NoOverride: DidMove := DidMove(None, None, false)

  /** The lifecycle fields of a message view. */
  datatype Presentation = Presentation(
    superview: Option<Host>,
    isHidden: bool,
    alpha: real,
    transformY: real,
    constraints: Option<Constraints>,
    origin: Option<OriginSide>,
    onDismiss: Option<Callback>,
    onPositiveButtonTap: Option<Callback>,
    feedback: Feedback,
    spinnerAnimating: bool,
    pending: seq<Event>,
    trace: seq<Effect>)

  /** `origin` is an implicitly unwrapped optional that `hide` reads while the
      view is attached; `show` records it before it attaches the view. */
  predicate Wellformed(p: Presentation) {
    p.superview.Some? ==> p.origin.Some?
  }

  /** A freshly initialised view: detached, visible, opaque, untransformed, silent. */
  function Initial(): (p: Presentation)
    ensures Wellformed(p) && p.superview.None? && p.pending == [] && p.trace == []
  {
    Presentation(None, false, 1.0, 0.0, None, None, None, None, Silent, false, [], [])
  }

  /** 1 when a dismiss callback is installed. */
  function Armed(p: Presentation): nat {
    if p.onDismiss.Some? then 1 else 0
  }

  /** `show(on:origin:animated:hideAfter:)`. */
  function AfterShow(p: Presentation, host: Host, origin: OriginSide, animated: bool,
                     hideAfter: Option<real>, hook: DidMove): (q: Presentation)
    ensures p.superview.Some? ==> q == p
    ensures p.superview.None? ==> q.origin == Some(origin)
    ensures p.superview.None? && !animated ==>
      q.superview.None? && !q.isHidden && q.pending == p.pending && q.trace == p.trace
    ensures p.superview.None? && animated ==>
      && q.superview == Some(host)
      && q.isHidden == p.isHidden
      && q.alpha == 1.0 && q.transformY == 0.0
      && q.pending == p.pending + [EntranceEnded(hideAfter)]
      && q.trace == p.trace + [Slid(hook.startY.GetOr(p.transformY), 0.0, 1.0)]
      && (hook.constraints.Some? ==> q.constraints == hook.constraints)
      && (hook.startsSpinner ==> q.spinnerAnimating)
    ensures q.onDismiss == p.onDismiss && q.onPositiveButtonTap == p.onPositiveButtonTap
    ensures q.feedback == p.feedback
    ensures p.trace <= q.trace
    ensures Wellformed(p) ==> Wellformed(q)
  {
    if p.superview.Some? then p
    else if !animated then p.(origin := Some(origin), isHidden := false)
    else
      // attach; the concrete view's didMoveToSuperview installs its
      // constraints, sets its start transform and may start the spinner;
      // then the entrance animation block runs
      p.(origin := Some(origin), superview := Some(host),
         constraints := if hook.constraints.Some? then hook.constraints else p.constraints,
         spinnerAnimating := p.spinnerAnimating || hook.startsSpinner,
         alpha := 1.0, transformY := 0.0,
         trace := p.trace + [Slid(hook.startY.GetOr(p.transformY), 0.0, 1.0)],
         pending := p.pending + [EntranceEnded(hideAfter)])
  }

  /** `hide(animated:)`. */
  function AfterHide(p: Presentation, animated: bool): (q: Presentation)
    requires Wellformed(p)
    ensures p.superview.None? ==> q == p
    ensures p.superview.Some? && !animated ==>
      q.superview == p.superview && q.isHidden && q.pending == p.pending && q.trace == p.trace
    ensures p.superview.Some? && animated ==>
      && q.superview == p.superview
      && q.alpha == 0.0
      && q.transformY == LayoutStartingOffset(p.origin.value)
      && q.pending == p.pending + [ExitEnded]
      && q.trace == p.trace + [Slid(p.transformY, LayoutStartingOffset(p.origin.value), 0.0)]
    ensures q.onDismiss == p.onDismiss && q.origin == p.origin && q.feedback == p.feedback
    ensures p.trace <= q.trace
    ensures Wellformed(q)
  {
    if p.superview.None? then p
    else if !animated then p.(isHidden := true)
    else
      var exitY := LayoutStartingOffset(p.origin.value);
      p.(alpha := 0.0, transformY := exitY,
         trace := p.trace + [Slid(p.transformY, exitY, 0.0)],
         pending := p.pending + [ExitEnded])
  }

  /** `buttonDismiss`, the target of the tap and up-swipe gestures: the
      positive-tap callback first, then an animated hide. */
  function AfterTap(p: Presentation): (q: Presentation)
    requires Wellformed(p)
    ensures p.onPositiveButtonTap.Some? ==>
      |q.trace| > |p.trace| && q.trace[|p.trace|] == Tapped(p.onPositiveButtonTap.value)
    ensures p.onPositiveButtonTap.None? ==> q == AfterHide(p, true)
    ensures p.superview.Some? ==> q.transformY == LayoutStartingOffset(p.origin.value) && q.alpha == 0.0
    ensures p.superview.Some? ==> q.pending == p.pending + [ExitEnded]
    ensures q.superview == p.superview && q.onDismiss == p.onDismiss
    ensures p.trace <= q.trace
    ensures Wellformed(q)
  {
    var tapped := if p.onPositiveButtonTap.Some?
                  then p.(trace := p.trace + [Tapped(p.onPositiveButtonTap.value)])
                  else p;
    AfterHide(tapped, true)
  }

  /** The environment fires the `i`-th pending event; `completed` is the flag
      UIKit passes to an animation completion. */
  function AfterFire(p: Presentation, i: nat, completed: bool): (q: Presentation)
    requires Wellformed(p) && i < |p.pending|
    ensures p.pending[i].EntranceEnded? && completed ==>
      && !q.isHidden && q.superview == p.superview
      && q.trace == p.trace + [Played(p.feedback)]
      && q.pending == Without(p.pending, i) +
           (if p.pending[i].hideAfter.Some? then [HideTimer(p.pending[i].hideAfter.value)] else [])
    ensures (p.pending[i].EntranceEnded? || p.pending[i].ExitEnded?) && !completed ==>
      q == p.(pending := Without(p.pending, i))
    ensures p.pending[i].HideTimer? ==> q == AfterHide(p.(pending := Without(p.pending, i)), true)
    ensures p.pending[i].ExitEnded? && completed ==>
      && q.superview.None? && q.isHidden && q.constraints.None? && q.onDismiss.None?
      && q.trace == p.trace + (if p.onDismiss.Some? then [Dismissed(p.onDismiss.value)] else [])
    ensures p.pending[i].UpdateEnded? ==> q.trace == p.trace + [Played(p.feedback)]
    ensures !p.pending[i].ExitEnded? ==> q.onDismiss == p.onDismiss
    ensures |q.pending| <= |p.pending|
    ensures p.trace <= q.trace
    ensures Wellformed(q)
  {
    var rest := p.(pending := Without(p.pending, i));
    match p.pending[i]
    case EntranceEnded(hideAfter) =>
      if !completed then rest
      else
        var shown := rest.(isHidden := false, trace := rest.trace + [Played(rest.feedback)]);
        if hideAfter.Some? then shown.(pending := shown.pending + [HideTimer(hideAfter.value)]) else shown
    case HideTimer(_) =>
      AfterHide(rest, true)
    case ExitEnded =>
      if !completed then rest
      else
        rest.(isHidden := true, constraints := None, superview := None, onDismiss := None,
              trace := if rest.onDismiss.Some? then rest.trace + [Dismissed(rest.onDismiss.value)] else rest.trace)
    case UpdateEnded =>
      rest.(trace := rest.trace + [Played(rest.feedback)])
  }

  /** The part of the animated view's `update(_:shouldDismiss:)` that touches
      the lifecycle: the feedback the new state selects, the completion that
      plays it, and the optional dismissal one second later. */
  function AfterStateChange(p: Presentation, feedback: Feedback, shouldDismiss: bool): (q: Presentation)
    ensures q.feedback == feedback
    ensures q.pending == p.pending + [UpdateEnded] + (if shouldDismiss then [HideTimer(UpdateDismissDelay)] else [])
    ensures q.superview == p.superview && q.onDismiss == p.onDismiss && q.trace == p.trace
    ensures Wellformed(p) ==> Wellformed(q)
  {
    p.(feedback := feedback,
       pending := p.pending + [UpdateEnded] + (if shouldDismiss then [HideTimer(UpdateDismissDelay)] else []))
  }

  // ---------------------------------------------------------------------
  // Runs: any interleaving of calls, assignments and fired events.

  datatype Op =
    | ShowOp(host: Host, origin: OriginSide, animated: bool, hideAfter: Option<real>, hook: DidMove)
    | HideOp(animated: bool)
    | TapOp
    | FireOp(index: nat, completed: bool)
    | SetOnDismissOp(dismiss: Option<Callback>)
    | SetOnTapOp(tap: Option<Callback>)
    | SetFeedbackOp(feedback: Feedback)
    | StateChangeOp(newFeedback: Feedback, shouldDismiss: bool)

  /** One step; an event that is not pending cannot fire. */
  function Step(p: Presentation, op: Op): (q: Presentation)
    requires Wellformed(p)
    ensures Wellformed(q) && p.trace <= q.trace
  {
    match op
    case ShowOp(host, origin, animated, hideAfter, hook) => AfterShow(p, host, origin, animated, hideAfter, hook)
    case HideOp(animated) => AfterHide(p, animated)
    case TapOp => AfterTap(p)
    case FireOp(i, completed) => if i < |p.pending| then AfterFire(p, i, completed) else p
    case SetOnDismissOp(cb) => p.(onDismiss := cb)
    case SetOnTapOp(cb) => p.(onPositiveButtonTap := cb)
    case SetFeedbackOp(f) => p.(feedback := f)
    case StateChangeOp(f, shouldDismiss) => AfterStateChange(p, f, shouldDismiss)
  }

  function Run(p: Presentation, ops: seq<Op>): (q: Presentation)
    requires Wellformed(p)
    ensures Wellformed(q) && p.trace <= q.trace
    decreases |ops|
  {
    if ops == [] then p else Run(Step(p, ops[0]), ops[1..])
  }

  /** How many times `ops` installs a dismiss callback. */
  function Installs(ops: seq<Op>): nat
    decreases |ops|
  {
    if ops == [] then 0
    else (if ops[0].SetOnDismissOp? && ops[0].dismiss.Some? then 1 else 0) + Installs(ops[1..])
  }

  /** Showing twice is showing once: an animated `show` attaches the view, so
      the second call hits the guard; a non-animated one writes the same
      origin and visibility again. A second `show` with other arguments on
      an attached view changes nothing either. */
  lemma ShowIdempotent(p: Presentation, host: Host, origin: OriginSide, animated: bool,
                       hideAfter: Option<real>, hook: DidMove)
    ensures var q := AfterShow(p, host, origin, animated, hideAfter, hook);
            AfterShow(q, host, origin, animated, hideAfter, hook) == q
    ensures var q := AfterShow(p, host, origin, true, hideAfter, hook);
            forall h, o, a, ha, k :: p.superview.None? ==> AfterShow(q, h, o, a, ha, k) == q
  {
  }

  /** Every fired event conserves "dismissals so far plus the installed
      callback": the exit completion turns the installed callback into one
      invocation and clears it. */
  lemma FireConservesDismissals(p: Presentation, i: nat, completed: bool)
    requires Wellformed(p) && i < |p.pending|
    ensures Dismissals(AfterFire(p, i, completed).trace) + Armed(AfterFire(p, i, completed))
         == Dismissals(p.trace) + Armed(p)
  {
    match p.pending[i]
    case EntranceEnded(_) => EntranceConservesDismissals(p, i, completed);
    case HideTimer(_) => TimerConservesDismissals(p, i, completed);
    case ExitEnded => ExitConservesDismissals(p, i, completed);
    case UpdateEnded => UpdateConservesDismissals(p, i, completed);
  }

  /** The entrance completion plays the feedback but never dismisses. */
  lemma EntranceConservesDismissals(p: Presentation, i: nat, completed: bool)
    requires Wellformed(p) && i < |p.pending| && p.pending[i].EntranceEnded?
    ensures Dismissals(AfterFire(p, i, completed).trace) == Dismissals(p.trace)
    ensures AfterFire(p, i, completed).onDismiss == p.onDismiss
  {
    var q := AfterFire(p, i, completed);
    if completed {
      assert q.trace == p.trace + [Played(p.feedback)];
      CountSnoc(p.trace, Played(p.feedback), IsDismissal);
    } else {
      assert q.trace == p.trace;
    }
  }

  /** The hide timer starts an exit but never dismisses. */
  lemma TimerConservesDismissals(p: Presentation, i: nat, completed: bool)
    requires Wellformed(p) && i < |p.pending| && p.pending[i].HideTimer?
    ensures Dismissals(AfterFire(p, i, completed).trace) == Dismissals(p.trace)
    ensures AfterFire(p, i, completed).onDismiss == p.onDismiss
  {
    var rest := p.(pending := Without(p.pending, i));
    assert AfterFire(p, i, completed) == AfterHide(rest, true);
    HideConservesDismissals(rest, true);
  }

  /** The exit completion turns an installed callback into one invocation and clears it. */
  lemma ExitConservesDismissals(p: Presentation, i: nat, completed: bool)
    requires Wellformed(p) && i < |p.pending| && p.pending[i].ExitEnded?
    ensures Dismissals(AfterFire(p, i, completed).trace) + Armed(AfterFire(p, i, completed))
         == Dismissals(p.trace) + Armed(p)
  {
    var q := AfterFire(p, i, completed);
    if !completed {
      assert q == p.(pending := Without(p.pending, i));
    } else if p.onDismiss.Some? {
      assert q.trace == p.trace + [Dismissed(p.onDismiss.value)] && q.onDismiss.None?;
      CountSnoc(p.trace, Dismissed(p.onDismiss.value), IsDismissal);
    } else {
      assert q.trace == p.trace && q.onDismiss.None?;
    }
  }

  /** The state-change completion plays the feedback but never dismisses. */
  lemma UpdateConservesDismissals(p: Presentation, i: nat, completed: bool)
    requires Wellformed(p) && i < |p.pending| && p.pending[i].UpdateEnded?
    ensures Dismissals(AfterFire(p, i, completed).trace) == Dismissals(p.trace)
    ensures AfterFire(p, i, completed).onDismiss == p.onDismiss
  {
    assert AfterFire(p, i, completed).trace == p.trace + [Played(p.feedback)];
    CountSnoc(p.trace, Played(p.feedback), IsDismissal);
  }


  /** `show` never invokes the dismiss callback. */
  lemma ShowConservesDismissals(p: Presentation, host: Host, origin: OriginSide, animated: bool,
                                hideAfter: Option<real>, hook: DidMove)
    ensures Dismissals(AfterShow(p, host, origin, animated, hideAfter, hook).trace) == Dismissals(p.trace)
  {
  }

  /** `hide` never invokes the dismiss callback itself; only its exit completion does. */
  lemma HideConservesDismissals(p: Presentation, animated: bool)
    requires Wellformed(p)
    ensures Dismissals(AfterHide(p, animated).trace) == Dismissals(p.trace)
  {
  }

  /** A tap invokes the tap callback, never the dismiss callback. */
  lemma TapConservesDismissals(p: Presentation)
    requires Wellformed(p)
    ensures Dismissals(AfterTap(p).trace) == Dismissals(p.trace)
  {
    var tapped := if p.onPositiveButtonTap.Some?
                  then p.(trace := p.trace + [Tapped(p.onPositiveButtonTap.value)])
                  else p;
    if p.onPositiveButtonTap.Some? { CountSnoc(p.trace, Tapped(p.onPositiveButtonTap.value), IsDismissal); }
    HideConservesDismissals(tapped, true);
  }

  /** Only installing a callback can add to "dismissals so far plus the installed callback". */
  lemma StepBoundsDismissals(p: Presentation, op: Op)
    requires Wellformed(p)
    ensures Dismissals(Step(p, op).trace) + Armed(Step(p, op))
         <= Dismissals(p.trace) + Armed(p) + (if op.SetOnDismissOp? && op.dismiss.Some? then 1 else 0)
  {
    match op
    case ShowOp(host, origin, animated, hideAfter, hook) =>
      ShowConservesDismissals(p, host, origin, animated, hideAfter, hook);
    case HideOp(animated) =>
      HideConservesDismissals(p, animated);
    case TapOp =>
      TapConservesDismissals(p);
    case FireOp(i, completed) =>
      if i < |p.pending| { FireConservesDismissals(p, i, completed); }
    case SetOnDismissOp(_) =>
    case SetOnTapOp(_) =>
    case SetFeedbackOp(_) =>
    case StateChangeOp(_, _) =>
  }

  /** Over any run, the dismiss callback is invoked at most once per
      installation (plus once for a callback installed before the run). */
  lemma {:induction false} DismissAtMostOncePerInstall(p: Presentation, ops: seq<Op>)
    requires Wellformed(p)
    ensures Dismissals(Run(p, ops).trace) + Armed(Run(p, ops)) <= Dismissals(p.trace) + Armed(p) + Installs(ops)
    decreases |ops|
  {
    if ops != [] {
      StepBoundsDismissals(p, ops[0]);
      DismissAtMostOncePerInstall(Step(p, ops[0]), ops[1..]);
    }
  }

  /** With no new installation, however often `hide`, taps and timers fire,
      at most one more dismissal happens: a timer that fires after an
      explicit hide does not invoke the callback again. */
  lemma DismissAtMostOnce(p: Presentation, ops: seq<Op>)
    requires Wellformed(p) && Installs(ops) == 0
    ensures Dismissals(Run(p, ops).trace) <= Dismissals(p.trace) + 1
    ensures p.onDismiss.None? ==> Dismissals(Run(p, ops).trace) == Dismissals(p.trace)
  {
    DismissAtMostOncePerInstall(p, ops);
    CountMonotone(p.trace, Run(p, ops).trace, IsDismissal);
  }

  /** One run step unfolds into `Step`. */
  lemma RunStep(p: Presentation, ops: seq<Op>)
    requires Wellformed(p) && ops != []
    ensures Run(p, ops) == Run(Step(p, ops[0]), ops[1..])
  {
  }

  // The four steps of the auto-hide cycle, one lemma each.

  lemma CycleShow(p: Presentation, host: Host, after: real)
    requires Wellformed(p) && p.superview.None? && p.pending == []
    ensures var q := Step(p, ShowOp(host, Top(0.0), true, Some(after), NoOverride));
            && Wellformed(q) && q.superview == Some(host) && q.origin == Some(Top(0.0))
            && q.pending == [EntranceEnded(Some(after))]
            && q.trace == p.trace + [Slid(p.transformY, 0.0, 1.0)]
            && q.onDismiss == p.onDismiss && q.feedback == p.feedback && q.transformY == 0.0
  {
  }

  lemma CycleEntrance(p: Presentation, after: real)
    requires Wellformed(p) && p.superview.Some? && p.pending == [EntranceEnded(Some(after))]
    ensures var q := Step(p, FireOp(0, true));
            && Wellformed(q) && q.superview == p.superview && q.origin == p.origin
            && q.pending == [HideTimer(after)]
            && q.trace == p.trace + [Played(p.feedback)]
            && q.onDismiss == p.onDismiss && q.transformY == p.transformY
  {
  }

  lemma CycleTimer(p: Presentation, after: real)
    requires Wellformed(p) && p.superview.Some? && p.pending == [HideTimer(after)]
    ensures var q := Step(p, FireOp(0, true));
            && Wellformed(q) && q.superview == p.superview
            && q.pending == [ExitEnded]
            && q.trace == p.trace + [Slid(p.transformY, LayoutStartingOffset(p.origin.value), 0.0)]
            && q.onDismiss == p.onDismiss
  {
  }

  lemma CycleExit(p: Presentation)
    requires Wellformed(p) && p.superview.Some? && p.pending == [ExitEnded] && p.onDismiss.Some?
    ensures var q := Step(p, FireOp(0, true));
            && q.superview.None? && q.isHidden && q.onDismiss.None? && q.pending == []
            && q.trace == p.trace + [Dismissed(p.onDismiss.value)]
  {
  }

  /** Show at the top, the entrance completes and arms the timer, the timer
      hides, the exit completes: a detached view with a dismiss callback
      ends detached and hidden, with its feedback played once more, its
      callback invoked exactly once more and cleared, and nothing pending. */
  lemma ShowAutoHideCycle(p: Presentation, host: Host, after: real)
    requires Wellformed(p) && p.superview.None? && p.pending == [] && p.onDismiss.Some?
    ensures var q := Run(p, [ShowOp(host, Top(0.0), true, Some(after), NoOverride),
                             FireOp(0, true), FireOp(0, true), FireOp(0, true)]);
            && q.superview.None? && q.isHidden && q.onDismiss.None? && q.pending == []
            && q.trace == p.trace + [Slid(p.transformY, 0.0, 1.0), Played(p.feedback),
                                     Slid(0.0, -200.0, 0.0), Dismissed(p.onDismiss.value)]
            && Dismissals(q.trace) == Dismissals(p.trace) + 1
            && Plays(q.trace) == Plays(p.trace) + 1
  {
    var ops := [ShowOp(host, Top(0.0), true, Some(after), NoOverride),
                FireOp(0, true), FireOp(0, true), FireOp(0, true)];
    var p1 := Step(p, ops[0]);
    CycleShow(p, host, after);
    var p2 := Step(p1, ops[1]);
    CycleEntrance(p1, after);
    var p3 := Step(p2, ops[2]);
    CycleTimer(p2, after);
    var p4 := Step(p3, ops[3]);
    CycleExit(p3);
    RunStep(p, ops);
    RunStep(p1, ops[1..]);
    RunStep(p2, ops[2..]);
    RunStep(p3, ops[3..]);
    assert ops[3..][1..] == [];
    CycleCounts(p.trace, p.transformY, p.feedback, p.onDismiss.value);
  }

  /** The auto-hide cycle's four effects hold one play and one dismissal. */
  lemma CycleCounts(t: seq<Effect>, startY: real, feedback: Feedback, cb: Callback)
    ensures var u := t + [Slid(startY, 0.0, 1.0), Played(feedback), Slid(0.0, -200.0, 0.0), Dismissed(cb)];
            Dismissals(u) == Dismissals(t) + 1 && Plays(u) == Plays(t) + 1
  {
    var a, b, c, d := Slid(startY, 0.0, 1.0), Played(feedback), Slid(0.0, -200.0, 0.0), Dismissed(cb);
    assert t + [a, b, c, d] == t + [a] + [b] + [c] + [d];
    CountSnoc(t, a, IsDismissal);
    CountSnoc(t, a, IsPlay);
    CountSnoc(t + [a], b, IsDismissal);
    CountSnoc(t + [a], b, IsPlay);
    CountSnoc(t + [a] + [b], c, IsDismissal);
    CountSnoc(t + [a] + [b], c, IsPlay);
    CountSnoc(t + [a] + [b] + [c], d, IsDismissal);
    CountSnoc(t + [a] + [b] + [c], d, IsPlay);
  }

  // ---------------------------------------------------------------------
  // The view object.

  class MessageView {
    var superview: Option<Host>
    var isHidden: bool
    var alpha: real
    var transformY: real
    var constraints: Option<Constraints>
    var origin: Option<OriginSide>
    var onDismiss: Option<Callback>
    var onPositiveButtonTap: Option<Callback>
    var feedback: Feedback
    var spinnerAnimating: bool
    var pending: seq<Event>
    var trace: seq<Effect>

    // Content written by the animated view's `display(state:)`.
    var labelText: Option<string>
    var symbolName: Option<ImageResource>
    var tintColor: Color
    var background: Option<Color>

    const shadowing: bool
    const isProgress: bool

    /** The lifecycle fields, as a `Presentation`. */
    function State(): Presentation
      reads this`superview, this`isHidden, this`alpha, this`transformY, this`constraints, this`origin,
            this`onDismiss, this`onPositiveButtonTap, this`feedback, this`spinnerAnimating,
            this`pending, this`trace
    {
      Presentation(superview, isHidden, alpha, transformY, constraints, origin,
                   onDismiss, onPositiveButtonTap, feedback, spinnerAnimating, pending, trace)
    }

    predicate Valid()
      reads this`superview, this`isHidden, this`alpha, this`transformY, this`constraints, this`origin,
            this`onDismiss, this`onPositiveButtonTap, this`feedback, this`spinnerAnimating,
            this`pending, this`trace
    {
      Wellformed(State())
    }

    constructor (shadowing: bool := true, isProgress: bool := false)
      ensures Valid() && State() == Initial()
      ensures this.shadowing == shadowing && this.isProgress == isProgress
      ensures labelText.None? && symbolName.None? && tintColor == InheritedTint && background.None?
    {
      superview, isHidden, alpha, transformY := None, false, 1.0, 0.0;
      constraints, origin, onDismiss, onPositiveButtonTap := None, None, None, None;
      feedback, spinnerAnimating, pending, trace := Silent, false, [], [];
      labelText, symbolName, tintColor, background := None, None, InheritedTint, None;
      this.shadowing, this.isProgress := shadowing, isProgress;
    }

    /** `show(on:origin:animated:hideAfter:)`; `hook` is the concrete view's `didMoveToSuperview`. */
    method Show(host: Host, origin: OriginSide := Bottom(0.0), animated: bool := true,
                hideAfter: Option<real> := Some(4.0), hook: DidMove := NoOverride)
      requires Valid()
      modifies this`superview, this`isHidden, this`alpha, this`transformY, this`constraints,
               this`origin, this`spinnerAnimating, this`pending, this`trace
      ensures Valid()
      ensures State() == AfterShow(old(State()), host, origin, animated, hideAfter, hook)
    {
      if superview.None? {
        if !animated {
          this.origin, isHidden := Some(origin), false;
        } else {
          this.origin := Some(origin);
          MoveToSuperview(host, hook);
          AnimateEntrance(hideAfter);
        }
      }
    }

    /** `addSubview` on the host, then the concrete view's `didMoveToSuperview`. */
    method MoveToSuperview(host: Host, hook: DidMove)
      modifies this`superview, this`constraints, this`transformY, this`spinnerAnimating
      ensures State() == old(State()).(superview := Some(host),
                constraints := if hook.constraints.Some? then hook.constraints else old(constraints),
                transformY := hook.startY.GetOr(old(transformY)),
                spinnerAnimating := old(spinnerAnimating) || hook.startsSpinner)
    {
      superview := Some(host);
      constraints := if hook.constraints.Some? then hook.constraints else constraints;
      transformY := hook.startY.GetOr(transformY);
      spinnerAnimating := spinnerAnimating || hook.startsSpinner;
    }

    /** The entrance animation block runs at once (fade in, slide to the
        identity transform); its completion waits. */
    method AnimateEntrance(hideAfter: Option<real>)
      modifies this`alpha, this`transformY, this`pending, this`trace
      ensures State() == old(State()).(alpha := 1.0, transformY := 0.0,
                trace := old(trace) + [Slid(old(transformY), 0.0, 1.0)],
                pending := old(pending) + [EntranceEnded(hideAfter)])
    {
      trace := trace + [Slid(transformY, 0.0, 1.0)];
      alpha, transformY := 1.0, 0.0;
      pending := pending + [EntranceEnded(hideAfter)];
    }

    /** `hide(animated:)`. */
    method Hide(animated: bool := true)
      requires Valid()
      modifies this`isHidden, this`alpha, this`transformY, this`pending, this`trace
      ensures Valid()
      ensures State() == AfterHide(old(State()), animated)
      ensures old(superview).None? ==> unchanged(this)
    {
      if superview.None? {
        return;
      }
      if !animated {
        isHidden := true;
        return;
      }
      var exitY := LayoutStartingOffset(origin.value);
      trace := trace + [Slid(transformY, exitY, 0.0)];
      alpha, transformY := 0.0, exitY;
      pending := pending + [ExitEnded];
    }

    /** `buttonDismiss`, the tap and up-swipe gesture target. */
    method ButtonDismiss()
      requires Valid()
      modifies this`isHidden, this`alpha, this`transformY, this`pending, this`trace
      ensures Valid()
      ensures State() == AfterTap(old(State()))
    {
      if onPositiveButtonTap.Some? {
        trace := trace + [Tapped(onPositiveButtonTap.value)];
      }
      Hide(true);
    }

    /** The main queue runs the `i`-th pending completion or timer. */
    method Fire(i: nat, completed: bool)
      requires Valid() && i < |pending|
      modifies this`superview, this`isHidden, this`alpha, this`transformY, this`constraints,
               this`onDismiss, this`pending, this`trace
      ensures Valid()
      ensures State() == AfterFire(old(State()), i, completed)
    {
      var event := pending[i];
      pending := Without(pending, i);
      match event {
        case EntranceEnded(hideAfter) =>
          if completed {
            EndEntrance(hideAfter);
          }
        case HideTimer(_) =>
          Hide(true);
        case ExitEnded =>
          if completed {
            EndExit();
          }
        case UpdateEnded =>
          trace := trace + [Played(feedback)];
      }
    }

    /** The entrance animation's completion when it ran to the end: unhide,
        play the feedback, and arm the hide timer when a delay was given. */
    method EndEntrance(hideAfter: Option<real>)
      requires Valid()
      modifies this`isHidden, this`pending, this`trace
      ensures Valid()
      ensures State() == old(State()).(isHidden := false, trace := old(trace) + [Played(feedback)],
                pending := old(pending) + (if hideAfter.Some? then [HideTimer(hideAfter.value)] else []))
    {
      isHidden := false;
      trace := trace + [Played(feedback)];
      if hideAfter.Some? {
        pending := pending + [HideTimer(hideAfter.value)];
      }
    }

    /** The exit animation's completion when it ran to the end: hide, drop the
        constraints, detach, then invoke the dismiss callback once and clear it. */
    method EndExit()
      requires Valid()
      modifies this`isHidden, this`constraints, this`superview, this`onDismiss, this`trace
      ensures Valid()
      ensures State() == old(State()).(isHidden := true, constraints := None, superview := None,
                onDismiss := None,
                trace := if old(onDismiss).Some? then old(trace) + [Dismissed(old(onDismiss).value)] else old(trace))
    {
      isHidden := true;
      constraints := None;
      superview := None;
      if onDismiss.Some? {
        trace := trace + [Dismissed(onDismiss.value)];
      }
      onDismiss := None;
    }

    /** The `feedback` property's setter. */
    method SetFeedback(f: Feedback)
      modifies this`feedback
      ensures State() == old(State()).(feedback := f)
    {
      feedback := f;
    }

    /** Lifecycle side of the animated view's `update(_:shouldDismiss:)`:
        queue the feedback-playing completion and the optional dismissal. */
    method ScheduleStateChange(shouldDismiss: bool)
      requires Valid()
      modifies this`pending
      ensures Valid()
      ensures State() == AfterStateChange(old(State()), feedback, shouldDismiss)
    {
      pending := pending + [UpdateEnded];
      if shouldDismiss {
        pending := pending + [HideTimer(UpdateDismissDelay)];
      }
    }
  }
}
