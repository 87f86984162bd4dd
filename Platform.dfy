/** Tokens for the UIKit world the library runs in: hosts, callbacks, colours,
    images, haptic kinds, frames and layout constraints, and the trace of
    observable effects (animations, haptics, callback invocations) that the
    view models record. */
module Platform {

  datatype Option<+T> = None | Some(value: T) {
    function GetOr(default: T): T {
      match this
      case Some(v) => v
      case None => default
    }
  }

  /** An opaque "arrangeable" host surface a view can be attached to. */
  type Host = nat

  /** An opaque closure (`onDismiss`, `onPositiveButtonTap`, `onTap`). */
  type Callback = nat

  /** Haptic cue kinds (Feedback.swift); playing one is recorded in the trace. */
  datatype Feedback = SuccessFeedback | WarningFeedback | InfoFeedback | Silent

  /** Colours as abstract tokens; `Faded(c, a)` is `c.withAlphaComponent(a)`. */
  datatype Color =
    | Black
    | White
    | Label
    | SystemGreen
    | SystemOrange
    | InheritedTint
    | Custom(id: nat)
    | Faded(base: Color, alpha: real)

  /** What a message view's `symbolName` holds: a symbol name or an opaque image. */
  datatype ImageResource = Symbol(name: string) | Image(token: nat)

  datatype Rect = Rect(x: real, y: real, width: real, height: real)

  /** The vertical constraint a view installs against its host. */
  datatype Placement = PinTop(padding: real) | PinBottom(padding: real) | CenterY(constant: real)

  /** The size and vertical placement constraints a view installs when it is
      attached; every view is also centred horizontally on its host. */
  datatype Constraints = Constraints(width: real, height: real, vertical: Placement)

  /** An observable action of a view:
      - `Slid`: a slide/fade animation from transform y `fromY` to `toY`, fading to `toAlpha`;
      - `Played`: a haptic cue was played;
      - `Dismissed` / `Tapped`: the dismiss / positive-tap callback was invoked. */
  datatype Effect =
    | Slid(fromY: real, toY: real, toAlpha: real)
    | Played(feedback: Feedback)
    | Dismissed(callback: Callback)
    | Tapped(callback: Callback)

  function Abs(x: real): (r: real)
    ensures r >= 0.0 && (r == x || r == -x)
  {
    if x < 0.0 then -x else x
  }

  function Max(a: real, b: real): (r: real)
    ensures r >= a && r >= b && (r == a || r == b)
  {
    if a >= b then a else b
  }

  function Min(a: real, b: real): (r: real)
    ensures r <= a && r <= b && (r == a || r == b)
  {
    if a <= b then a else b
  }

  /** Number of effects in `trace` that satisfy `p`. */
  function Count(trace: seq<Effect>, p: Effect -> bool): (n: nat)
    ensures n <= |trace|
  {
    if trace == [] then 0
    else Count(trace[..|trace| - 1], p) + (if p(trace[|trace| - 1]) then 1 else 0)
  }

  /** A queue of pending events once its `i`-th event has run: the events
      before it keep their places, the ones after it move up by one. */
  function Without<T>(events: seq<T>, i: nat): (r: seq<T>)
    requires i < |events|
    ensures |r| == |events| - 1
    ensures forall k :: 0 <= k < i ==> r[k] == events[k]
    ensures forall k :: i <= k < |r| ==> r[k] == events[k + 1]
  {
    events[..i] + events[i + 1..]
  }

  predicate IsDismissal(e: Effect) { e.Dismissed? }

  predicate IsPlay(e: Effect) { e.Played? }

  /** How many times a dismiss callback was invoked in `trace`. */
  function Dismissals(trace: seq<Effect>): nat {
    Count(trace, IsDismissal)
  }

  /** How many haptic cues were played in `trace`. */
  function Plays(trace: seq<Effect>): nat {
    Count(trace, IsPlay)
  }

  /** Counting distributes over concatenation of traces. */
  lemma {:induction false} CountAppend(a: seq<Effect>, b: seq<Effect>, p: Effect -> bool)
    ensures Count(a + b, p) == Count(a, p) + Count(b, p)
  {
    if b == [] {
      assert a + b == a;
    } else {
      var b' := b[..|b| - 1];
      assert (a + b)[..|a + b| - 1] == a + b';
      CountAppend(a, b', p);
    }
  }

  /** Appending one effect adds one to the count exactly when it satisfies `p`. */
  lemma CountSnoc(a: seq<Effect>, e: Effect, p: Effect -> bool)
    ensures Count(a + [e], p) == Count(a, p) + (if p(e) then 1 else 0)
  {
    assert (a + [e])[..|a|] == a;
  }

  /** A longer trace never has a smaller count. */
  lemma CountMonotone(a: seq<Effect>, b: seq<Effect>, p: Effect -> bool)
    requires a <= b
    ensures Count(a, p) <= Count(b, p)
  {
    assert b == a + b[|a|..];
    CountAppend(a, b[|a|..], p);
  }
}
