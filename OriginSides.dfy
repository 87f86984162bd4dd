/** The screen anchor of a message view (Sources/ALToast/OriginSide.swift):
    which edge, or the centre, the view is placed against, with a distance. */
module OriginSides {

  datatype OriginSide =
    | Bottom(offsetFromBottom: real)
    | Center(offset: real)
    | Top(offsetFromTop: real)

  /** Distance an entering view is translated from, and an exiting view is
      translated to, along y. */
  const SlideDistance: real := 200.0

  /** The hand-written `==`: the same case with equal payloads. It agrees
      with structural equality in both directions. */
  function Equal(lhs: OriginSide, rhs: OriginSide): (r: bool)
    ensures r <==> lhs == rhs
    ensures lhs.Bottom? != rhs.Bottom? || lhs.Center? != rhs.Center? ==> !r
  {
    match (lhs, rhs)
    case (Bottom(a), Bottom(b)) => a == b
    case (Top(a), Top(b)) => a == b
    case (Center(a), Center(b)) => a == b
    case _ => false
  }

  /** The payload of whichever case the anchor is. */
  function Offset(o: OriginSide): (r: real)
    ensures o.Bottom? ==> r == o.offsetFromBottom
    ensures o.Center? ==> r == o.offset
    ensures o.Top? ==> r == o.offsetFromTop
  {
    match o
    case Bottom(b) => b
    case Center(c) => c
    case Top(t) => t
  }

  /** The y translation a view slides in from and out to: a top anchor lies
      200 above its payload, a centre or bottom anchor 200 below it. */
  function LayoutStartingOffset(o: OriginSide): (r: real)
    ensures o.Top? <==> r < Offset(o)
    ensures r == Offset(o) - SlideDistance || r == Offset(o) + SlideDistance
  {
    match o
    case Top(t) => t - 200.0
    case Center(c) => c + 200.0
    case Bottom(b) => b + 200.0
  }

  /** `isCenter`. */
  predicate IsCenter(o: OriginSide): (b: bool)
    ensures b <==> o.Center?
  {
    match o
    case Bottom(_) => false
    case Top(_) => false
    case Center(_) => true
  }

  /** `isTop`. */
  predicate IsTop(o: OriginSide): (b: bool)
    ensures b <==> o.Top?
  {
    match o
    case Bottom(_) => false
    case Center(_) => false
    case Top(_) => true
  }

  /** `isCenter` holds exactly for centre anchors and `isTop` exactly for top
      anchors; no anchor is both, and an anchor that is neither is a bottom one. */
  lemma PlacementPredicates(o: OriginSide)
    ensures IsCenter(o) <==> o.Center?
    ensures IsTop(o) <==> o.Top?
    ensures !(IsCenter(o) && IsTop(o))
    ensures !IsCenter(o) && !IsTop(o) <==> o.Bottom?
  {
  }

  /** Bottom and centre anchors with the same payload are different anchors
      that nevertheless share their starting offset. */
  lemma BottomAndCenterShareStart(x: real)
    ensures !Equal(Bottom(x), Center(x))
    ensures LayoutStartingOffset(Bottom(x)) == LayoutStartingOffset(Center(x)) == x + SlideDistance
  {
  }

  /** A top anchor starts strictly above every bottom or centre anchor with the same payload. */
  lemma TopStartsAboveOthers(x: real)
    ensures LayoutStartingOffset(Top(x)) < LayoutStartingOffset(Bottom(x))
    ensures LayoutStartingOffset(Top(x)) < LayoutStartingOffset(Center(x))
    ensures LayoutStartingOffset(Bottom(x)) - LayoutStartingOffset(Top(x)) == 2.0 * SlideDistance
  {
  }
}
