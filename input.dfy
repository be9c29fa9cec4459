/**
 * The single-line text input (src/app/ui/widgets/inputbox/input.rs, with
 * `InputMode` and `InputResult` from src/app/ui/widgets/inputbox/state.rs).
 *
 * The buffer is a string of characters and the cursor an index into it; the
 * program indexes bytes, which is the same for ASCII text.
 */
module InputWidget {
  import opened Wrappers
  import opened Terminal

  datatype InputMode = Insert | Edit

  /** What a key press asks of the caller. */
  datatype InputResult = Continue | Submit(text: string) | Cancel

  datatype InputBoxStyles = InputBoxStyles(fgColor: Color, padding: Padding, maxChars: nat, showTitle: bool)

  /** The text with `c` inserted before position `i`. */
  function InsertAt(s: string, i: nat, c: char): (r: string)
    requires i <= |s|
    ensures |r| == |s| + 1 && r[i] == c
    ensures r[..i] == s[..i] && r[i + 1..] == s[i..]
  {
    s[..i] + [c] + s[i..]
  }

  /** The text without its character at position `i`. */
  function RemoveAt(s: string, i: nat): (r: string)
    requires i < |s|
    ensures |r| == |s| - 1
    ensures r[..i] == s[..i] && r[i..] == s[i + 1..]
  {
    s[..i] + s[i + 1..]
  }

  /** Removing the character just inserted gives the text back. */
  lemma RemoveUndoesInsert(s: string, i: nat, c: char)
    requires i <= |s|
    ensures RemoveAt(InsertAt(s, i, c), i) == s
  {
    var t := InsertAt(s, i, c);
    assert RemoveAt(t, i) == t[..i] + t[i + 1..];
    assert s == s[..i] + s[i..];
  }

  class InputBox {
    var title: Option<string>
    var buffer: string
    var cursor: nat
    var mode: InputMode
    var styles: InputBoxStyles

    /** The cursor sits within the text or just after it. */
    ghost predicate Valid()
      reads this
    {
      cursor <= |buffer|
    }

    /** `InputBox::insert`: an empty box for appending, at most 46 characters. */
    constructor Insert()
      ensures Valid()
      ensures buffer == "" && cursor == 0 && mode == InputMode.Insert && title == None
      ensures styles == InputBoxStyles(Rgb(245, 161, 145), Padding(1, 1, 0, 0), 46, true)
    {
      buffer := "";
      title := None;
      cursor := 0;
      mode := InputMode.Insert;
      styles := InputBoxStyles(Rgb(245, 161, 145), Padding(1, 1, 0, 0), 46, true);
    }

    /** `InputBox::edit`: a box for renaming, holding `initial` with the cursor at its end. */
    constructor Edit(initial: string)
      ensures Valid()
      ensures buffer == initial && cursor == |initial| && mode == InputMode.Edit && title == None
      ensures styles == InputBoxStyles(Rgb(234, 141, 165), Padding(1, 1, 0, 0), 46, true)
    {
      var cursorValue := |initial|;
      buffer := initial;
      title := None;
      cursor := cursorValue;
      mode := InputMode.Edit;
      styles := InputBoxStyles(Rgb(234, 141, 165), Padding(1, 1, 0, 0), 46, true);
    }

    /**
     * `handle_key`: edits the buffer at the cursor or moves the cursor, and
     * tells the caller whether the text was submitted or the edit cancelled.
     * The cursor stays within the text, and a buffer within `maxChars` stays
     * within it.
     */
    method HandleKey(key: Key) returns (r: InputResult)
      requires Valid()
      modifies this`buffer, this`cursor
      ensures Valid()
      ensures old(|buffer|) <= styles.maxChars ==> |buffer| <= styles.maxChars
      ensures key == Enter ==>
        buffer == old(buffer) && cursor == old(cursor) &&
        r == (if buffer != "" then Submit(buffer) else Continue)
      ensures key == Esc ==> buffer == old(buffer) && cursor == old(cursor) && r == Cancel
      ensures key == Delete ==>
        r == Continue && cursor == old(cursor) &&
        buffer == (if old(cursor) < old(|buffer|) then RemoveAt(old(buffer), old(cursor)) else old(buffer))
      ensures key == Backspace ==>
        r == Continue &&
        (if old(cursor) > 0
         then buffer == RemoveAt(old(buffer), old(cursor) - 1) && cursor == old(cursor) - 1
         else buffer == old(buffer) && cursor == old(cursor))
      ensures key == Left ==>
        r == Continue && buffer == old(buffer) &&
        cursor == (if old(cursor) > 0 then old(cursor) - 1 else old(cursor))
      ensures key == Right ==>
        r == Continue && buffer == old(buffer) &&
        cursor == (if old(cursor) < old(|buffer|) then old(cursor) + 1 else old(cursor))
      ensures key.Char? ==>
        r == Continue &&
        (if old(|buffer|) < styles.maxChars
         then buffer == InsertAt(old(buffer), old(cursor), key.c) && cursor == old(cursor) + 1
         else buffer == old(buffer) && cursor == old(cursor))
      ensures !(key.Char? || key in {Enter, Esc, Delete, Backspace, Left, Right}) ==>
        r == Continue && buffer == old(buffer) && cursor == old(cursor)
    {
      match key {
        case Enter =>
          if buffer != "" {
            return Submit(buffer);
          }
        case Esc =>
          return Cancel;
        case Delete =>
          if cursor < |buffer| {
            buffer := RemoveAt(buffer, cursor);
          }
        case Backspace =>
          if cursor > 0 {
            cursor := cursor - 1;
            buffer := RemoveAt(buffer, cursor);
          }
        case Left =>
          if cursor > 0 {
            cursor := cursor - 1;
          }
        case Right =>
          if cursor < |buffer| {
            cursor := cursor + 1;
          }
        case Char(c) =>
          if |buffer| < styles.maxChars {
            buffer := InsertAt(buffer, cursor, c);
            cursor := cursor + 1;
          }
        case _ =>
      }
      r := Continue;
    }

    /** Sets the title only. */
    method Title(t: string)
      modifies this`title
      ensures title == Some(t)
    {
      title := Some(t);
    }

    /** Hides the title line only. */
    method NoTitle()
      modifies this`styles
      ensures styles == old(styles).(showTitle := false)
    {
      styles := styles.(showTitle := false);
    }

    /** Sets the text colour only. */
    method WithFgColor(color: Color)
      modifies this`styles
      ensures styles == old(styles).(fgColor := color)
    {
      styles := styles.(fgColor := color);
    }

    /** Sets the length limit only. */
    method WithMaxChars(max: nat)
      modifies this`styles
      ensures styles == old(styles).(maxChars := max)
    {
      styles := styles.(maxChars := max);
    }

    /** Sets the padding only. */
    method WithPadding(padding: Padding)
      modifies this`styles
      ensures styles == old(styles).(padding := padding)
    {
      styles := styles.(padding := padding);
    }
  }

  /** Renaming "Task 2" and pressing Backspace twice leaves "Task" with the cursor after it. */
  method EditTask2TwoBackspaces() returns (text: string, cursor: nat)
    ensures text == "Task" && cursor == 4
  {
    var box := new InputBox.Edit("Task 2");
    var r := box.HandleKey(Backspace);
    r := box.HandleKey(Backspace);
    assert box.buffer == RemoveAt(RemoveAt("Task 2", 5), 4);
    assert RemoveAt("Task 2", 5) == "Task ";
    assert RemoveAt("Task ", 4) == "Task";
    text, cursor := box.buffer, box.cursor;
  }

  /**
   * Typing a character into a text with room for it and then pressing
   * Backspace gives the text and cursor back.
   */
  method TypeThenBackspace(initial: string, c: char) returns (text: string, cursor: nat)
    requires |initial| < 46
    ensures text == initial && cursor == |initial|
  {
    var box := new InputBox.Edit(initial);
    var r := box.HandleKey(Char(c));
    r := box.HandleKey(Backspace);
    RemoveUndoesInsert(initial, |initial|, c);
    text, cursor := box.buffer, box.cursor;
  }

  /** A non-empty text is submitted on Enter; an empty one is not. */
  method EnterSubmits(initial: string) returns (r: InputResult)
    ensures initial != "" ==> r == Submit(initial)
    ensures initial == "" ==> r == Continue
  {
    var box := new InputBox.Edit(initial);
    r := box.HandleKey(Enter);
  }
}
