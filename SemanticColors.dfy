/** Colour roles of a message (Sources/ALToast/SemanticColors.swift): each role
    gives a fill colour for the background and a tint for text and icons.
    Only the iOS 13+ branches are modelled (system green/orange, label). */
module SemanticColors {
  import opened Platform

  datatype SemanticColor = Success | Warning | Info | CustomColor(color: Color)

  /** The fill (`color`): nothing for `.info`, the role's own colour otherwise. */
  function FillColor(s: SemanticColor): (r: Option<Color>)
    ensures r.None? <==> s.Info?
    ensures s.Success? ==> r == Some(SystemGreen)
    ensures s.Warning? ==> r == Some(SystemOrange)
    ensures s.CustomColor? ==> r == Some(s.color)
  {
    match s
    case Success => Some(SystemGreen)
    case Warning => Some(SystemOrange)
    case Info => None
    case CustomColor(c) => Some(c)
  }

  /** The tint (`tintColor`): white on every filled role, the label colour on `.info`. */
  function TintColor(s: SemanticColor): (r: Color)
    ensures r == White <==> !s.Info?
    ensures s.Info? ==> r == Label
  {
    match s
    case Success => White
    case Warning => White
    case Info => Label
    case CustomColor(_) => White
  }

  /** A role is drawn white-on-fill exactly when it has a fill. */
  lemma WhiteTintIffFilled(s: SemanticColor)
    ensures TintColor(s) == White <==> FillColor(s).Some?
  {
  }
}
