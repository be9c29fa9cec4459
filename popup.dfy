/**
 * The popup record and its chaining builders
 * (src/app/ui/widgets/popup_widget/popup.rs), with the kind-to-colour map of
 * src/app/ui/widgets/popup_widget/utils.rs, which `new` and `kind` use.
 */
module PopupWidget {
  import opened Wrappers
  import opened Terminal

  /**
   * Which keys dismiss a popup. `Manual` is the program's
   * `PopupCloseBehavior::None`: no key closes the popup.
   */
  datatype CloseBehavior = AnyKey | Specific(key: Key) | Manual

  datatype PopupKind = Help | Info | Error | Success

  datatype PopupStyles = PopupStyles(borderColor: Color, padding: Padding, maxWidth: Option<u16>, showTitle: bool)

  /** The border colour of each kind (`color_based_on_popup_kind`). */
  function ColorOf(kind: PopupKind): Color {
    match kind
    case Error => Rgb(245, 161, 145)
    case Success => Rgb(144, 185, 159)
    case Help => Rgb(226, 158, 202)
    case Info => Rgb(172, 161, 207)
  }

  /** The four kinds have four different colours. */
  lemma ColorOfInjective(a: PopupKind, b: PopupKind)
    ensures ColorOf(a) == ColorOf(b) ==> a == b
  {
  }

  datatype Popup = Popup(
    kind: PopupKind,
    message: string,
    title: Option<string>,
    closeBehavior: CloseBehavior,
    styles: PopupStyles)
  {
    /** `Popup::new`: an untitled Info popup closed by Esc, with padding 2 left and right, 1 above and below. */
    static function New(message: string): (p: Popup)
      ensures p.kind == Info && p.message == message && p.title == None
      ensures p.closeBehavior == Specific(Esc)
      ensures p.styles.borderColor == ColorOf(Info)
      ensures p.styles.padding == Padding(2, 2, 1, 1)
      ensures p.styles.maxWidth == None && p.styles.showTitle
    {
      Popup(Info, message, None, Specific(Esc),
            PopupStyles(ColorOf(Info), Padding(2, 2, 1, 1), None, true))
    }

    /** Sets the kind and the border colour that goes with it; nothing else changes. */
    function Kind(k: PopupKind): (r: Popup)
      ensures r.kind == k && r.styles.borderColor == ColorOf(k)
      ensures r.(kind := kind, styles := styles) == this
      ensures r.styles.(borderColor := styles.borderColor) == styles
    {
      this.(kind := k, styles := styles.(borderColor := ColorOf(k)))
    }

    /** Sets the title; nothing else changes. */
    function Title(t: string): (r: Popup)
      ensures r.title == Some(t)
      ensures r.(title := title) == this
    {
      this.(title := Some(t))
    }

    /** Hides the title line, keeping the title itself; nothing else changes. */
    function NoTitle(): (r: Popup)
      ensures !r.styles.showTitle && r.title == title
      ensures r.(styles := styles) == this
      ensures r.styles.(showTitle := styles.showTitle) == styles
    {
      this.(styles := styles.(showTitle := false))
    }

    /** Any key closes the popup; nothing else changes. */
    function CloseOnAnyKey(): (r: Popup)
      ensures r.closeBehavior == AnyKey
      ensures r.(closeBehavior := closeBehavior) == this
    {
      this.(closeBehavior := AnyKey)
    }

    /** Exactly `key` closes the popup; nothing else changes. */
    function CloseOn(key: Key): (r: Popup)
      ensures r.closeBehavior == Specific(key)
      ensures r.(closeBehavior := closeBehavior) == this
    {
      this.(closeBehavior := Specific(key))
    }

    /** Sets the border colour only. */
    function WithBorderColor(color: Color): (r: Popup)
      ensures r.styles.borderColor == color
      ensures r.(styles := styles) == this
      ensures r.styles.(borderColor := styles.borderColor) == styles
    {
      this.(styles := styles.(borderColor := color))
    }

    /** Sets the padding only. */
    function WithPadding(padding: Padding): (r: Popup)
      ensures r.styles.padding == padding
      ensures r.(styles := styles) == this
      ensures r.styles.(padding := styles.padding) == styles
    {
      this.(styles := styles.(padding := padding))
    }

    /** Sets the maximum width only. */
    function WithMaxWidth(width: u16): (r: Popup)
      ensures r.styles.maxWidth == Some(width)
      ensures r.(styles := styles) == this
      ensures r.styles.(maxWidth := styles.maxWidth) == styles
    {
      this.(styles := styles.(maxWidth := Some(width)))
    }
  }
}
