# ALToast in Dafny

ALToast is a small iOS package that shows transient "toast" messages: a
pill-shaped blurred view slides in from an edge of a host view, optionally
plays a haptic cue, stays for a while, and slides out again, calling a
dismiss callback. It also has a square "animated" status view that switches
between a progress state and success or warning states. The package has
message descriptors (`ALMessage`) and a one-call presenter (`ALToast`).

This project models the logic under the UIKit code and proves properties of
it:

- `OriginSides`: the anchor enum (`bottom`, `center`, `top`, each with an
  offset), its hand-written equality, its payload, its placement predicates
  and the off-screen offset a view slides from and to.
- `SemanticColors`: the fill and tint colours of the four semantic roles.
- `MessageViews`: the presentation lifecycle of `ALMessageView`. The
  specification is a set of functions over a `Presentation` record (`AfterShow`,
  `AfterHide`, `AfterTap`, `AfterFire`, `AfterStateChange`). The `MessageView`
  class has the same fields and methods proved equal to those functions. A
  run of any calls, assignments and fired events is modelled (`Step`, `Run`),
  and the dismiss callback is proved to run at most once per installation.
- `ToastViews`: the toast subclass: its size, its width cap, its vertical
  anchoring, its label frame and its accessory.
- `AnimatedViews`: the three-state animated view: which stored message
  drives each state, which accessory is attached, and the scheduled
  feedback and dismissal of `update`.
- `LegacyToastViews`: the older toast view at the package root, with its
  offset-less anchor and ±200 slide rule. It is a class whose invariant,
  kept by every method, states that no installed dismiss callback runs twice.
- `Messages`: `ALMessage` and its factories with their defaults.
- `Presenter`: `ALToast`'s host resolution and toast configuration.

UIKit runs an animation block at once and its completion later, and
`DispatchQueue.main.asyncAfter` runs a closure later. The model applies the
block's changes immediately. It queues the completion or the delayed closure
as a `pending` event, which the environment fires with `Fire(i, completed)`,
in any order. Observable actions go into a `trace`: an animation (`Slid`),
the playing of the view's current feedback (`Played`, recorded even when
that feedback is the silent one, which plays nothing), and the invocation of the dismiss or tap callback
(`Dismissed`, `Tapped`). Subclassing is modelled by composition. A subclass
view owns a `MessageView` and passes its `didMoveToSuperview` to `show` as a
`DidMove` record: the constraints it installs, the transform it starts from,
and whether it starts the spinner.

The two toast views slide centre toasts in from opposite sides. The newer
toast view (`Views/ALToastMessageView.swift`) starts a centre anchor at its
offset plus 200, below it (`layoutStartingOffset`, `ToastViews.ToastEntrance`).
The legacy view uses `origin == .bottom ? 200 : -200`, so a centre toast starts
200 above (`LegacyToastViews.SlideOffset`). `ALMessageView` itself sets no
start transform, and every view built on it hides towards `layoutStartingOffset`.

The package's only test asserts that `bottom(70)` and `center(70)` start at
different offsets through `originStart`, a member no source file defines.
Under `layoutStartingOffset` the two start at the same offset, 270; the
lemma `OriginSides.BottomAndCenterShareStart` proves this for every payload.

Showing twice with the same arguments is showing once, and once a view is
attached every further `show` changes nothing (`MessageViews.ShowIdempotent`).
A second non-animated `show` on a detached view with another origin does record
that origin. Repeated
`hide` calls are not: a second animated `hide` before the exit animation
completes queues a second exit completion. The dismiss callback still runs
only once, because the first completion clears it
(`MessageViews.DismissAtMostOnce`).

## Model

| member | source | states |
|---|---|---|
| OriginSides.Equal | Sources/ALToast/OriginSide.swift:16-27 | two anchors are equal exactly when they are the same case with equal payloads; different cases are never equal |
| OriginSides.Offset | Sources/ALToast/OriginSide.swift:43-52 | returns the payload of whichever case the anchor is |
| OriginSides.LayoutStartingOffset | Sources/ALToast/OriginSide.swift:29-41 | the start offset is the payload minus 200 for a top anchor and plus 200 otherwise, and it lies above the payload exactly for a top anchor |
| OriginSides.IsCenter | Sources/ALToast/OriginSide.swift:54-61 | `isCenter` holds exactly for centre anchors |
| OriginSides.IsTop | Sources/ALToast/OriginSide.swift:63-70 | `isTop` holds exactly for top anchors |
| OriginSides.PlacementPredicates | Sources/ALToast/OriginSide.swift:54-70 | `isCenter` holds exactly for centre anchors and `isTop` exactly for top anchors; never both; neither exactly for bottom anchors |
| OriginSides.BottomAndCenterShareStart | Sources/ALToast/OriginSide.swift:16-41 | `bottom(x)` and `center(x)` are unequal anchors whose start offsets are both x + 200 |
| OriginSides.TopStartsAboveOthers | Sources/ALToast/OriginSide.swift:29-41 | a top anchor starts strictly above the bottom and centre anchors with the same payload, 400 points above the bottom one |
| SemanticColors.FillColor | Sources/ALToast/SemanticColors.swift:20-39 | success fills system green, warning system orange, custom its own colour; the fill is absent exactly for info |
| SemanticColors.TintColor | Sources/ALToast/SemanticColors.swift:41-56 | the tint is white for every role except info, whose tint is the label colour |
| SemanticColors.WhiteTintIffFilled | Sources/ALToast/SemanticColors.swift:20-56 | a role is tinted white exactly when it has a fill |
| MessageViews.Initial | Sources/ALToast/Views/ALMessageView.swift:108-120 | a new view is detached, well formed, with nothing pending and an empty trace |
| MessageViews.AfterShow | Sources/ALToast/Views/ALMessageView.swift:207-249 | on an attached view nothing changes; non-animated it records the origin and unhides without attaching; animated it records the origin, attaches to the host, slides in from the concrete view's start offset to 0 at full opacity and queues the entrance completion; callbacks and feedback are kept |
| MessageViews.AfterHide | Sources/ALToast/Views/ALMessageView.swift:251-283 | on a detached view nothing changes; non-animated it only hides, staying attached; animated it fades out towards `origin.layoutStartingOffset` and queues the exit completion |
| MessageViews.AfterTap | Sources/ALToast/Views/ALMessageView.swift:164-167 | the positive-tap callback, when set, is invoked first, then an animated hide follows; the dismiss callback is kept |
| MessageViews.AfterFire | Sources/ALToast/Views/ALMessageView.swift:236-282 | a completed entrance unhides, plays the feedback once and arms one hide timer exactly when `hideAfter` is set; the timer hides animated; a completed exit hides, clears constraints, detaches, invokes the dismiss callback once if set and clears it; an uncompleted animation only consumes its event |
| MessageViews.AfterStateChange | Sources/ALToast/Views/ALAnimatedMessageView.swift:146-161 | the new feedback is selected, its playback is queued behind the animation, and exactly one hide one second later is queued exactly when `shouldDismiss` |
| MessageViews.Step | Sources/ALToast/Views/ALMessageView.swift:164-283 | every call, assignment or fired event keeps the origin recorded while attached and only extends the trace |
| MessageViews.Run | Sources/ALToast/Views/ALMessageView.swift:164-283 | any sequence of steps keeps the origin recorded while attached and only extends the trace |
| MessageViews.ShowIdempotent | Sources/ALToast/Views/ALMessageView.swift:213-222 | showing twice with the same arguments is showing once, and after an animated show any further show changes nothing |
| MessageViews.FireConservesDismissals | Sources/ALToast/Views/ALMessageView.swift:270-281 | each fired event keeps "dismissals so far plus the installed callback" constant |
| MessageViews.EntranceConservesDismissals | Sources/ALToast/Views/ALMessageView.swift:236-247 | the entrance completion, run to the end or not, never invokes the dismiss callback and keeps it installed |
| MessageViews.TimerConservesDismissals | Sources/ALToast/Views/ALMessageView.swift:244-246 | the hide timer starts an exit but never invokes the dismiss callback and keeps it installed |
| MessageViews.ExitConservesDismissals | Sources/ALToast/Views/ALMessageView.swift:270-281 | the exit completion turns an installed callback into exactly one invocation and clears it, and otherwise invokes nothing |
| MessageViews.UpdateConservesDismissals | Sources/ALToast/Views/ALAnimatedMessageView.swift:150-152 | the state-change completion plays the feedback but never invokes the dismiss callback and keeps it installed |
| MessageViews.StepBoundsDismissals | Sources/ALToast/Views/ALMessageView.swift:164-283 | only installing a dismiss callback can add to "dismissals so far plus the installed callback" |
| MessageViews.DismissAtMostOncePerInstall | Sources/ALToast/Views/ALMessageView.swift:270-281 | over any run, the dismiss callback runs at most once per installation |
| MessageViews.DismissAtMostOnce | Sources/ALToast/Views/ALMessageView.swift:270-281 | with no new installation, however often hides, taps and timers happen, at most one more dismissal happens, and none when no callback is installed |
| MessageViews.ShowConservesDismissals | Sources/ALToast/Views/ALMessageView.swift:207-249 | `show` never invokes the dismiss callback |
| MessageViews.HideConservesDismissals | Sources/ALToast/Views/ALMessageView.swift:251-283 | `hide` itself never invokes the dismiss callback; only its exit completion does |
| MessageViews.TapConservesDismissals | Sources/ALToast/Views/ALMessageView.swift:164-167 | a tap invokes the tap callback and hides, but never invokes the dismiss callback |
| MessageViews.ShowAutoHideCycle | Sources/ALToast/Views/ALMessageView.swift:207-283 | for any detached view with a dismiss callback and nothing pending, an animated show at the top followed by the entrance, the timer and the exit completions leaves it detached and hidden with nothing pending; the trace grows by exactly the slide in, one play of the feedback, the slide out to -200 and one invocation of the callback, which is then cleared |
| MessageViews.MessageView.constructor | Sources/ALToast/Views/ALMessageView.swift:108-120 | a new view is in the initial presentation state with the given shadowing and progress flags |
| MessageViews.MessageView.Show | Sources/ALToast/Views/ALMessageView.swift:207-249 | the new state is `AfterShow` of the old one, and an attached view is left untouched |
| MessageViews.MessageView.Hide | Sources/ALToast/Views/ALMessageView.swift:251-283 | the new state is `AfterHide` of the old one, and a detached view is left untouched |
| MessageViews.MessageView.ButtonDismiss | Sources/ALToast/Views/ALMessageView.swift:164-167 | the new state is `AfterTap` of the old one |
| MessageViews.MessageView.MoveToSuperview | Sources/ALToast/Views/ALMessageView.swift:224-225 | the view is attached to the host, and the concrete view's `didMoveToSuperview` installs its constraints, sets its start transform and may start the spinner; nothing else in the lifecycle changes |
| MessageViews.MessageView.AnimateEntrance | Sources/ALToast/Views/ALMessageView.swift:228-248 | full opacity, identity transform, one slide from the current offset recorded, and the entrance completion queued; nothing else changes |
| MessageViews.MessageView.Fire | Sources/ALToast/Views/ALMessageView.swift:236-282 | the new state is `AfterFire` of the old one |
| MessageViews.MessageView.EndEntrance | Sources/ALToast/Views/ALMessageView.swift:236-247 | the view is unhidden, the feedback played once, and a hide timer queued exactly when a delay is given |
| MessageViews.MessageView.EndExit | Sources/ALToast/Views/ALMessageView.swift:270-281 | the view is hidden, its constraints dropped and it is detached; the dismiss callback, when set, is invoked once and then cleared |
| MessageViews.MessageView.SetFeedback | Sources/ALToast/Views/ALMessageView.swift:59 | assigning the haptic cue changes only the selected feedback of the lifecycle state |
| MessageViews.MessageView.ScheduleStateChange | Sources/ALToast/Views/ALAnimatedMessageView.swift:150-160 | the new state is `AfterStateChange` of the old one with the current feedback |
| ToastViews.AccessoryFor | Sources/ALToast/Views/ALToastMessageView.swift:16-30 | a progress toast gets the spinner, any other toast the image |
| ToastViews.ToastHeight | Sources/ALToast/Views/ALToastMessageView.swift:40 | a toast is 48 points high |
| ToastViews.WidthFraction | Sources/ALToast/Views/ALToastMessageView.swift:38-41 | a toast may take 5/6 of the host's width on a phone and 2/5 elsewhere, a fraction strictly between 0 and 1 |
| ToastViews.SubViewsWidth | Sources/ALToast/Views/ALToastMessageView.swift:71-74 | the content width is the wider of the image and 48, plus the label width, plus 20 |
| ToastViews.ToastWidth | Sources/ALToast/Views/ALToastMessageView.swift:41-42 | the toast width is at most the host's share and at most the content width, and equals one of them |
| ToastViews.VerticalPlacement | Sources/ALToast/Views/ALToastMessageView.swift:47-54 | a non-centre anchor is pinned to the top edge exactly when it is a top anchor and to the bottom edge otherwise, 8 plus its offset away; a centre anchor is centred, shifted by its offset |
| ToastViews.ToastDidMove | Sources/ALToast/Views/ALToastMessageView.swift:32-69 | on attach the toast installs a 48-high constraint whose width is the smaller of the host's share and the content width, with its vertical placement, starts from `layoutStartingOffset`, and starts the spinner exactly for a progress toast |
| ToastViews.LabelFrame | Sources/ALToast/Views/ALToastMessageView.swift:76-85 | the label starts one toast height in at the top, is as tall as the toast, is no wider than its text, and never runs past the right edge |
| ToastViews.ToastEntrance | Sources/ALToast/Views/ALToastMessageView.swift:47-63 | a toast starts above its anchor offset exactly when it is pinned to the top |
| ToastViews.ToastMessageView.constructor | Sources/ALToast/Views/ALToastMessageView.swift:16-30 | a new toast is in the initial presentation state with the accessory its progress flag selects |
| ToastViews.ToastMessageView.Show | Sources/ALToast/Views/ALToastMessageView.swift:32-69 | the lifecycle state after `show` is `AfterShow` with this view's `didMoveToSuperview`, so an animated show on a detached toast installs capped, placed constraints and slides in from `layoutStartingOffset` |
| AnimatedViews.FadedFill | Sources/ALToast/Views/ALAnimatedMessageView.swift:70-71 | a fill is present exactly when the role has one, at 70% opacity |
| AnimatedViews.AnimatedDidMove | Sources/ALToast/Views/ALAnimatedMessageView.swift:111-134 | on attach the view is a centred 200 by 200 square, and the spinner starts exactly in the progress state |
| AnimatedViews.LabelFrame | Sources/ALToast/Views/ALAnimatedMessageView.swift:140-144 | the label starts below the lower of the image and the spinner, spans the width and fills the remaining height |
| AnimatedViews.AnimatedMessageView.MessageFor | Sources/ALToast/Views/ALAnimatedMessageView.swift:67-87 | each state is driven by its own stored message |
| AnimatedViews.AnimatedMessageView.constructor | Sources/ALToast/Views/ALAnimatedMessageView.swift:35-50 | the messages are stored, the initial state (progress by default) is displayed with its accessory attached, and the lifecycle starts from the initial state with that state's feedback |
| AnimatedViews.AnimatedMessageView.Display | Sources/ALToast/Views/ALAnimatedMessageView.swift:67-87 | tint, fill, feedback and text come from the state's message; the image only for success and warning, left unchanged for progress |
| AnimatedViews.AnimatedMessageView.ConstraintAccessories | Sources/ALToast/Views/ALAnimatedMessageView.swift:89-109 | in the progress state only the spinner is attached and otherwise only the image; when the right one is already attached nothing changes |
| AnimatedViews.AnimatedMessageView.Update | Sources/ALToast/Views/ALAnimatedMessageView.swift:146-161 | the new state is displayed (the image left as it was for progress), its accessory attached, its feedback queued behind the animation and, with `shouldDismiss`, one hide queued one second later |
| AnimatedViews.AnimatedMessageView.Show | Sources/ALToast/Views/ALAnimatedMessageView.swift:111-134 | the lifecycle state after `show` is `AfterShow` with this view's `didMoveToSuperview` |
| LegacyToastViews.SlideOffset | Sources/ALToast/ALToastMessageView.swift:205 | the slide offset is +200 exactly for a bottom anchor and -200 otherwise, an unset anchor included |
| LegacyToastViews.Stack | Sources/ALToast/ALToastMessageView.swift:119-127 | a progress view stacks the label then the spinner; any other view stacks the image then the label |
| LegacyToastViews.LegacyPlacement | Sources/ALToast/ALToastMessageView.swift:189-196 | a non-centre anchor is pinned 8 points from the bottom edge exactly for a bottom anchor and from the top edge for a top anchor; a centre anchor is centred |
| LegacyToastViews.LegacyConstraints | Sources/ALToast/ALToastMessageView.swift:181-196 | the legacy toast is 48 high and exactly its share of the host's width |
| LegacyToastViews.LegacyToastMessageView.constructor | Sources/ALToast/ALToastMessageView.swift:94-103 | a new view is detached and visible with a black tint, no callbacks, and a spinner running exactly for a progress view |
| LegacyToastViews.LegacyToastMessageView.SetOnDismiss | Sources/ALToast/ALToastMessageView.swift:217 | installing a callback keeps the at-most-once invariant |
| LegacyToastViews.LegacyToastMessageView.Show | Sources/ALToast/ALToastMessageView.swift:219-258 | on an attached view nothing changes; non-animated it records the origin and unhides without attaching, leaving opacity, transform and constraints as they were; animated it attaches, installs the legacy constraints, slides in from ±200 and queues the entrance completion |
| LegacyToastViews.LegacyToastMessageView.Hide | Sources/ALToast/ALToastMessageView.swift:260-288 | on a detached view nothing changes; non-animated it only hides, leaving opacity, transform, queue and trace as they were; animated it fades out towards ±200, records the slide and queues the exit completion |
| LegacyToastViews.LegacyToastMessageView.ButtonDismiss | Sources/ALToast/ALToastMessageView.swift:152-155 | the positive-tap callback, when set, is invoked first; then on an attached view an animated hide fades it towards ±200, records the slide and queues the exit completion, and on a detached view nothing else changes |
| LegacyToastViews.LegacyToastMessageView.Fire | Sources/ALToast/ALToastMessageView.swift:247-287 | the fired event leaves the queue; a completed entrance unhides and arms a hide timer exactly when `hideAfter` is set; the timer hides animated on an attached view and changes nothing else on a detached one; a completed exit hides, drops the constraints, detaches, invokes the dismiss callback once and clears it; an uncompleted animation changes nothing else; every field an event does not set keeps its value, and the at-most-once invariant is kept |
| LegacyToastViews.LegacyToastMessageView.EndEntrance | Sources/ALToast/ALToastMessageView.swift:247-256 | the view is unhidden and a hide timer queued exactly when a delay is given; the at-most-once invariant is kept |
| LegacyToastViews.LegacyToastMessageView.EndExit | Sources/ALToast/ALToastMessageView.swift:275-287 | the view is hidden, its constraints dropped and it is detached; the dismiss callback, when set, is invoked once and then cleared; the at-most-once invariant is kept |
| LegacyToastViews.ShowHideCycle | Sources/ALToast/ALToastMessageView.swift:219-288 | any detached legacy view with a dismiss callback and nothing pending, shown animated at the top on any host width and device with any delay, and taken through the entrance, timer and exit completions, ends hidden, detached, without constraints and with nothing pending; its trace grows by exactly the slide from -200 to 0, the slide back to -200 and one invocation of the callback, which is then cleared |
| Messages.NewMessage | Sources/ALToast/ALMessage.swift:19-27 | every argument is stored unchanged |
| Messages.SuccessMessage | Sources/ALToast/ALMessage.swift:29-34 | the factory builds the message the initialiser builds from its arguments |
| Messages.WarningMessage | Sources/ALToast/ALMessage.swift:36-41 | the factory builds the message the initialiser builds from its arguments |
| Messages.InfoMessage | Sources/ALToast/ALMessage.swift:43-48 | the factory builds the message the initialiser builds from its arguments |
| Messages.ProgressMessage | Sources/ALToast/ALMessage.swift:50-54 | a progress message never has an icon and is otherwise the initialiser's message |
| Messages.SemanticDefaults | Sources/ALToast/ALMessage.swift:17-48 | with their defaults the success, warning and info factories build distinct top messages that hide after the default interval, with the checkmark, warning-triangle and info-circle icons |
| Messages.FactoriesAgree | Sources/ALToast/ALMessage.swift:29-48 | given the same arguments the three semantic factories build the same message |
| Messages.MessageDefaults | Sources/ALToast/ALMessage.swift:17-54 | the initialiser's default delay equals the default interval, its default icon is none and its default anchor top; a default progress message is centred and never hides by itself |
| Presenter.ResolveHost | Sources/ALToast/ALToast.swift:52-60 | an explicit host wins, else the root host; there is none exactly when both are missing |
| Presenter.ToastTint | Sources/ALToast/ALToast.swift:64-68 | the caller's tint wins; otherwise white, or the label colour for info |
| Presenter.PrepareAndShow | Sources/ALToast/ALToast.swift:46-72 | a toast is created exactly when a host resolves; it is unshadowed, carries the text, image, tint, fill and tap callback, is attached to that host at the top with the legacy constraints, visible at full opacity and untransformed once slid in, with no spinner running, slides in from 200 above, has its entrance completion queued to arm a 1.5-second hide, has no dismiss callback, and keeps the at-most-once invariant |
| Presenter.NewToast | Sources/ALToast/ALToast.swift:61-70 | the new view is unshadowed, detached, visible, opaque and untransformed, with no constraints, no origin, no spinner running, no callback ever installed and nothing pending, and carries the text, image, tint (the caller's, else the background's), fill and tap callback |
| Presenter.Success | Sources/ALToast/ALToast.swift:18-26 | a toast is shown exactly when a host resolves; it is unshadowed, configured from the arguments with a success background by default, attached to that host at the top with the legacy constraints, visible at full opacity and untransformed once slid in, with no spinner running, sliding in from 200 above, with its entrance completion queued to arm a 1.5-second hide and no dismiss callback, keeping the at-most-once invariant |
| Presenter.Warning | Sources/ALToast/ALToast.swift:28-35 | a toast is shown exactly when a host resolves; it is unshadowed, configured from the arguments with a warning background by default, attached to that host at the top with the legacy constraints, visible at full opacity and untransformed once slid in, with no spinner running, sliding in from 200 above, with its entrance completion queued to arm a 1.5-second hide and no dismiss callback, keeping the at-most-once invariant |
| Presenter.Info | Sources/ALToast/ALToast.swift:37-44 | a toast is shown exactly when a host resolves; it is unshadowed, configured from the arguments with an info background by default, attached to that host at the top with the legacy constraints, visible at full opacity and untransformed once slid in, with no spinner running, sliding in from 200 above, with its entrance completion queued to arm a 1.5-second hide and no dismiss callback, keeping the at-most-once invariant |
| Presenter.DefaultLooks | Sources/ALToast/ALToast.swift:18-44 | by default a success toast is green with a white tint, a warning toast orange with a white tint, and an info toast unfilled with the label colour |

## Left out

- Auto Layout wiring (the ALConstraintKit calls), the stack view, fonts, text alignment, the marquee label, corner radii, shadows, masks and the vibrancy frame: UIKit plumbing. Only the sizes and placements they receive are modelled, as a `Constraints` value.
- The `hideAfter` argument of `ALMessageView`'s initialiser: it only sets the marquee label's scroll duration.
- Blur and vibrancy styles, and every `#available` branch: the model takes the iOS 13 branch (system green and orange, the label colour).
- Animation durations, springs and curves, and the real delays of `asyncAfter`: completions and timers are events the environment fires in any order, so the model proves properties for every timing.
- Playing haptic cues (Feedback.swift): a cue is a `Played` effect in the trace.
- Image and symbol lookup: an image is an opaque `ImageResource` or a symbol name.
- `init(coder:)` of both views: storyboard initialisers, the animated one a `fatalError`.
- `originStart`, which the animated view's `didMoveToSuperview` and the test use but no source file defines: the animated view's entrance keeps its current transform.
- The default messages of the animated view's initialiser: they use an `ALMessage` with fields (`color`, `feedbackType`, `imageResource`) that `ALMessage.swift` does not have, so the view takes abstract `StateMessage` records and no defaults.
- `ALMessage.defaultHideInterval` is a mutable static; the model fixes it at its initial value, 2.0.
- Weak references (`[weak self]`): a view is never deallocated while events are pending.
- UIKit calls `didMoveToSuperview` when a view is attached, and `show` calls it once more; the model applies it once. Applying it twice installs the same constraints and transform.
- The label's text and text colour that `didMoveToSuperview` resets, and the tint `didSet` forwarding to the label and image: display plumbing.
- `layoutIfNeeded`/`layoutLabel` and the base `updateLabelFrame`, which is the whole frame: layout plumbing, not decisions.
- Double-precision arithmetic and NaN payloads: offsets and sizes are reals, so `Equal` is reflexive.
- The presenter methods return the toast they create (or none), while the Swift functions return nothing: the handle exists only so their contracts can speak about the toast.
- The host's width and the device kind are parameters of the toast `Show` methods, and the presenter's static `rootPresentable` is a parameter of the presenter methods.
- Callbacks that act on the view: the dismiss and tap callbacks are assumed not to touch the view and are recorded only as `Dismissed` and `Tapped` effects. In the source `onDismiss?()` runs before `onDismiss = nil` and a second `removeFromSuperview()`, so a callback that shows the view again or installs a new callback is undone right after it returns; and `onPositiveButtonTap` runs before `hide` and could change the view first. The model does not capture such re-entrant callbacks.
