/**
 * The title and close-hint texts of a popup and the sizing of its box
 * (src/app/ui/widgets/popup_widget/utils.rs).
 *
 * The frame's 70% width bound (a floating-point computation in the program),
 * the text of a key code and the final centring (done by the layout library)
 * are inputs: `maxAllowedWidth`, `keyLabel` and `center`. Display widths are
 * character counts, which is exact for ASCII text.
 */
module PopupLayout {
  import opened Wrappers
  import opened Terminal
  import opened TextUtils
  import opened MathUtils
  import opened PopupWidget

  /** A line of styled text, as the texts of its spans. */
  type Line = seq<string>

  /** The display width of a line: the sum of its spans' widths. */
  function LineWidth(l: Line): nat {
    if l == [] then 0 else |l[0]| + LineWidth(l[1..])
  }

  function Min(a: int, b: int): int { if a <= b then a else b }
  function Max(a: int, b: int): int { if a >= b then a else b }

  /** The title shown when none was set. */
  function DefaultTitle(kind: PopupKind): string {
    match kind
    case Help => " Help "
    case Error => " Error "
    case Success => " Success "
    case Info => " Info "
  }

  /** The key named in the close hint. */
  function KeyText(cb: CloseBehavior, keyLabel: Key -> string): string {
    match cb
    case AnyKey => "any key"
    case Specific(k) => "<" + keyLabel(k) + ">"
    case Manual => ""
  }

  /**
   * `lines_based_on_popup`: the top line is empty when the title is hidden,
   * otherwise the title padded with one space on each side, or the kind's
   * default title; the bottom line always tells which key closes the popup.
   */
  function TitleLines(p: Popup, keyLabel: Key -> string): (r: (Line, Line))
    ensures !p.styles.showTitle <==> r.0 == []
    ensures p.styles.showTitle && p.title.Some? ==> r.0 == [" " + p.title.value + " "]
    ensures p.styles.showTitle && p.title.None? ==> r.0 == [DefaultTitle(p.kind)]
    ensures r.1 == [" Press ", KeyText(p.closeBehavior, keyLabel), " to close this popup. "]
    ensures LineWidth(r.1) == 29 + |KeyText(p.closeBehavior, keyLabel)|
  {
    var top: Line :=
      if p.styles.showTitle then
        (if p.title.Some? then [" " + p.title.value + " "] else [DefaultTitle(p.kind)])
      else [];
    var bottom: Line := [" Press ", KeyText(p.closeBehavior, keyLabel), " to close this popup. "];
    assert LineWidth(bottom) == 7 + |bottom[1]| + LineWidth(bottom[2..]);
    (top, bottom)
  }

  /** The width of the top title line: 2 more than the title, or the default title's width. */
  lemma TopTitleWidth(p: Popup, keyLabel: Key -> string)
    requires p.styles.showTitle
    ensures LineWidth(TitleLines(p, keyLabel).0) ==
      if p.title.Some? then |p.title.value| + 2 else |DefaultTitle(p.kind)|
  {
    var top := TitleLines(p, keyLabel).0;
    assert LineWidth(top) == |top[0]| + LineWidth(top[1..]);
  }

  /** The padding sums are computed in 16 bits; they must not overflow. */
  predicate PaddingFits(pad: Padding) {
    pad.left as int + pad.right as int < 0x1_0000 && pad.top as int + pad.bottom as int < 0x1_0000
  }

  /** The width the message is wrapped at: its longest raw line, capped by the allowed width. */
  function BaseWidth(p: Popup, maxAllowedWidth: nat): (r: nat)
    ensures r <= maxAllowedWidth && r <= CalculateMaxLineLen(Lines(p.message))
    ensures forall i :: 0 <= i < |Lines(p.message)| ==> r == maxAllowedWidth || |Lines(p.message)[i]| <= r
    ensures r == maxAllowedWidth || r == CalculateMaxLineLen(Lines(p.message))
  {
    Min(CalculateMaxLineLen(Lines(p.message)), maxAllowedWidth)
  }

  /** The box width before it is limited to the frame. */
  function WantedWidth(p: Popup, maxAllowedWidth: nat, keyLabel: Key -> string): nat {
    var titles := TitleLines(p, keyLabel);
    var w := Max(BaseWidth(p, maxAllowedWidth) + 6, LineWidth(titles.1));
    var w' := if titles.0 != [] then Max(w, LineWidth(titles.0)) else w;
    w' + p.styles.padding.left as int + p.styles.padding.right as int
  }

  /** The box height before it is limited to the frame. */
  function WantedHeight(p: Popup, maxAllowedWidth: nat): nat {
    |Wrap(p.message, BaseWidth(p, maxAllowedWidth))| + 2 + p.styles.padding.top as int + p.styles.padding.bottom as int
  }

  /**
   * The final box width: never wider than the frame and, unless the frame
   * limits it, wide enough for the wrapped text with its 6 extra columns,
   * for the close hint and for a shown title, each plus the side padding.
   */
  function PopupWidth(p: Popup, frame: Rect, maxAllowedWidth: nat, keyLabel: Key -> string): (w: nat)
    ensures w <= frame.width as int && w <= WantedWidth(p, maxAllowedWidth, keyLabel)
    ensures w == frame.width as int || w == WantedWidth(p, maxAllowedWidth, keyLabel)
    ensures var pad, titles := p.styles.padding.left as int + p.styles.padding.right as int, TitleLines(p, keyLabel);
      w == frame.width as int ||
      (&& w >= BaseWidth(p, maxAllowedWidth) + 6 + pad
       && w >= LineWidth(titles.1) + pad
       && (p.styles.showTitle ==> w >= LineWidth(titles.0) + pad))
  {
    Min(WantedWidth(p, maxAllowedWidth, keyLabel), frame.width as int)
  }

  /**
   * The final box height: never taller than the frame and, unless the frame
   * limits it, one row per wrapped line plus the two border rows and the
   * vertical padding.
   */
  function PopupHeight(p: Popup, frame: Rect, maxAllowedWidth: nat): (h: nat)
    ensures h <= frame.height as int && h <= WantedHeight(p, maxAllowedWidth)
    ensures h == frame.height as int ||
      h == |Wrap(p.message, BaseWidth(p, maxAllowedWidth))| + 2 + p.styles.padding.top as int + p.styles.padding.bottom as int
  {
    Min(WantedHeight(p, maxAllowedWidth), frame.height as int)
  }

  /**
   * `calculate_area`, step by step as the program computes it: wrap the
   * message, grow the width for the titles, add the padding, clamp to the
   * frame and centre the box.
   */
  method CalculateArea(popup: Popup, frameArea: Rect, maxAllowedWidth: nat,
                       keyLabel: Key -> string, center: (Rect, u16, u16) -> Rect)
    returns (area: Rect)
    requires PaddingFits(popup.styles.padding)
    ensures area == center(frameArea, PopupWidth(popup, frameArea, maxAllowedWidth, keyLabel) as u16,
                                      PopupHeight(popup, frameArea, maxAllowedWidth) as u16)
  {
    var (top, bottom) := TitleLines(popup, keyLabel);
    var topTitleWidth := LineWidth(top);
    var bottomTitleWidth := LineWidth(bottom);
    var rawLines := Lines(popup.message);
    var extraSpaceWidth := 6;
    var contentMaxLine := CalculateMaxLineLen(rawLines);
    var baseWidth := Min(contentMaxLine, maxAllowedWidth);
    var wrapped := WrapText(popup.message, baseWidth);
    var contentHeight := |wrapped|;

    var height := contentHeight + 2;
    height := height + (popup.styles.padding.top + popup.styles.padding.bottom) as int;

    var width := baseWidth + extraSpaceWidth;
    width := Max(width, bottomTitleWidth);
    if top != [] {
      width := Max(width, topTitleWidth);
    }
    width := width + (popup.styles.padding.left + popup.styles.padding.right) as int;

    width := Min(width, frameArea.width as int);
    height := Min(height, frameArea.height as int);

    area := center(frameArea, width as u16, height as u16);
  }
}
