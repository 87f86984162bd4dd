/** `ALMessage` (Sources/ALToast/ALMessage.swift): an immutable description
    of a toast (text, icon name, auto-hide delay and anchor) and the four
    factories that fill in per-kind defaults. */
module Messages {
  import opened Platform
  import opened LegacyToastViews

  /** `ALMessage.defaultHideInterval`, the delay the factories default to. */
  const DefaultHideInterval: real := 2.0

  const CheckmarkIcon: string := "checkmark"
  const WarningIcon: string := "exclamationmark.triangle"
  const InfoIcon: string := "info.circle"

  datatype Message = Message(
    message: Option<string>,
    iconName: Option<string>,
    hideAfter: Option<real>,
    origin: LegacyOrigin)

  /** The memberwise initialiser: no icon, a two-second delay and a top
      anchor unless told otherwise; every argument is stored unchanged. */
  function NewMessage(message: Option<string>, icon: Option<string> := None,
                      hideAfter: Option<real> := Some(2.0), origin: LegacyOrigin := Top): (m: Message)
    ensures m.message == message && m.iconName == icon
    ensures m.hideAfter == hideAfter && m.origin == origin
  {
    Message(message, icon, hideAfter, origin)
  }

  /** `success(message:icon:hideAfter:origin:)`: a checkmark by default. */
  function SuccessMessage(message: Option<string>, icon: Option<string> := Some(CheckmarkIcon),
                          hideAfter: Option<real> := Some(DefaultHideInterval),
                          origin: LegacyOrigin := Top): (m: Message)
    ensures m == NewMessage(message, icon, hideAfter, origin)
  {
    Message(message, icon, hideAfter, origin)
  }

  /** `warning(message:icon:hideAfter:origin:)`: a warning triangle by default. */
  function WarningMessage(message: Option<string>, icon: Option<string> := Some(WarningIcon),
                          hideAfter: Option<real> := Some(DefaultHideInterval),
                          origin: LegacyOrigin := Top): (m: Message)
    ensures m == NewMessage(message, icon, hideAfter, origin)
  {
    Message(message, icon, hideAfter, origin)
  }

  /** `info(message:icon:hideAfter:origin:)`: an info circle by default. */
  function InfoMessage(message: Option<string>, icon: Option<string> := Some(InfoIcon),
                       hideAfter: Option<real> := Some(DefaultHideInterval),
                       origin: LegacyOrigin := Top): (m: Message)
    ensures m == NewMessage(message, icon, hideAfter, origin)
  {
    Message(message, icon, hideAfter, origin)
  }

  /** `progress(message:origin:hideAfter:)`: never an icon, centred and
      never hidden automatically unless told otherwise. */
  function ProgressMessage(message: Option<string>, origin: LegacyOrigin := Center,
                           hideAfter: Option<real> := None): (m: Message)
    ensures m.iconName.None?
    ensures m == NewMessage(message, None, hideAfter, origin)
  {
    Message(message, None, hideAfter, origin)
  }

  /** With their defaults, the three semantic factories build top toasts that
      hide after the default interval and differ only in their icon, which
      is a different one for each kind. */
  lemma SemanticDefaults(text: Option<string>)
    ensures var s, w, i := SuccessMessage(text), WarningMessage(text), InfoMessage(text);
            && s.origin == w.origin == i.origin == Top
            && s.hideAfter == w.hideAfter == i.hideAfter == Some(DefaultHideInterval)
            && s.message == w.message == i.message == text
            && s.iconName == Some(CheckmarkIcon)
            && w.iconName == Some(WarningIcon)
            && i.iconName == Some(InfoIcon)
            && s != w && w != i && s != i
  {
  }

  /** Given the same arguments, the semantic factories are interchangeable:
      the kind of a message lives only in its default icon. */
  lemma FactoriesAgree(text: Option<string>, icon: Option<string>, hideAfter: Option<real>, origin: LegacyOrigin)
    ensures SuccessMessage(text, icon, hideAfter, origin) == WarningMessage(text, icon, hideAfter, origin)
    ensures WarningMessage(text, icon, hideAfter, origin) == InfoMessage(text, icon, hideAfter, origin)
  {
  }

  /** The initialiser's literal two-second default and the factories'
      `defaultHideInterval` default coincide, and a progress message by
      default is a centred message that stays up. */
  lemma MessageDefaults(text: Option<string>)
    ensures NewMessage(text).hideAfter == SuccessMessage(text).hideAfter
    ensures NewMessage(text).iconName.None? && NewMessage(text).origin == Top
    ensures ProgressMessage(text) == NewMessage(text, None, None, Center)
  {
  }
}
