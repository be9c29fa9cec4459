/** The help popup listing the key bindings (src/app/ui/components/help_popup.rs). */
module HelpPopupComponent {
  import opened Wrappers
  import opened Terminal
  import opened TextUtils
  import opened PopupWidget

  /** Control line `i` of the help message. */
  function HelpLine(i: int): string
    requires 0 <= i < 8
  {
    if i == 0 then " a -> append a todo"
    else if i == 1 then " r -> rename a todo"
    else if i == 2 then " d -> delete a todo"
    else if i == 3 then " Enter -> mark as completed"
    else if i == 4 then " k/Up -> go up"
    else if i == 5 then " j/Down -> go down"
    else if i == 6 then " q/Esc -> quit"
    else " ? -> toggle help"
  }

  /** The eight control lines, in order. */
  function HelpLines(): (ls: seq<string>)
    ensures |ls| == 8
  {
    seq(8, i requires 0 <= i < 8 => HelpLine(i))
  }

  /**
   * `help_popup`: a Help popup titled "Controls", closed by '?', whose
   * message is the control lines joined by line breaks; everything else is
   * as `Popup::new` leaves it.
   */
  function HelpPopup(): (p: Popup)
    ensures p.kind == Help && p.styles.borderColor == ColorOf(Help)
    ensures p.title == Some("Controls")
    ensures p.closeBehavior == Specific(Char('?'))
    ensures p.styles.showTitle && p.styles.padding == Padding(2, 2, 1, 1) && p.styles.maxWidth == None
  {
    var message := JoinLines(HelpLines());
    Popup.New(message).Kind(Help).Title("Controls").CloseOn(Char('?'))
  }

  /** A line `Lines` gives back unchanged: no line break, no final carriage return, not empty. */
  predicate PlainLine(l: string) {
    '\n' !in l && !EndsWithCR(l) && l != ""
  }

  /** Every control line is plain. */
  lemma HelpLineShape(i: int)
    requires 0 <= i < 8
    ensures PlainLine(HelpLine(i))
  {
    if i < 4 {
      UpperHelpLines(i);
    } else {
      LowerHelpLines(i);
    }
  }

  lemma UpperHelpLines(i: int)
    requires 0 <= i < 4
    ensures PlainLine(HelpLine(i))
  {
  }

  lemma LowerHelpLines(i: int)
    requires 4 <= i < 8
    ensures PlainLine(HelpLine(i))
  {
  }

  /** The help message splits back into exactly the eight control lines. */
  lemma HelpMessageLines()
    ensures Lines(HelpPopup().message) == HelpLines()
    ensures |Lines(HelpPopup().message)| == 8
  {
    var ls := HelpLines();
    forall i | 0 <= i < |ls|
      ensures PlainLine(ls[i])
    {
      HelpLineShape(i);
    }
    LinesOfJoinLines(ls);
  }
}
