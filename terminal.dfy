/**
 * The few types of the terminal libraries (crossterm and ratatui) that the
 * application's own code manipulates: key codes and modifiers, colours,
 * padding and rectangles. Their behaviour beyond plain data is not modelled.
 */
module Terminal {

  /** A 16-bit unsigned integer, the coordinate type of the terminal library. */
  newtype u16 = x: int | 0 <= x < 0x1_0000

  /** An 8-bit unsigned integer, one colour channel. */
  newtype u8 = x: int | 0 <= x < 0x100

  /** A key code as delivered by the terminal's event source. */
  datatype Key =
    | Char(c: char)
    | Enter
    | Esc
    | Backspace
    | Delete
    | Left
    | Right
    | Up
    | Down
    | Home
    | End
    | PageUp
    | PageDown
    | Tab
    | BackTab
    | Insert
    | F(n: u8)
    | Null

  /** The modifier flags that may accompany a key. */
  datatype Modifier = Shift | Control | Alt | Super | Hyper | Meta

  type Modifiers = set<Modifier>

  /** A 24-bit colour. */
  datatype Color = Rgb(red: u8, green: u8, blue: u8)

  /** Inner spacing of a bordered block, in cells. */
  datatype Padding = Padding(left: u16, right: u16, top: u16, bottom: u16)

  /** A rectangle of terminal cells; (x, y) is its top-left corner. */
  datatype Rect = Rect(x: u16, y: u16, width: u16, height: u16) {

    /** The rectangle's far edges stay within the 16-bit coordinate space. */
    predicate Bounded() {
      x as int + width as int < 0x1_0000 && y as int + height as int < 0x1_0000
    }

    /** Cell (cx, cy) lies inside the rectangle. */
    predicate Contains(cx: int, cy: int) {
      x as int <= cx < x as int + width as int && y as int <= cy < y as int + height as int
    }

    /** Every cell of `this` is a cell of `outer`. */
    predicate Within(outer: Rect) {
      outer.x <= x && x as int + width as int <= outer.x as int + outer.width as int &&
      outer.y <= y && y as int + height as int <= outer.y as int + outer.height as int
    }

    /** `this` and `other` share no cell. */
    predicate DisjointFrom(other: Rect) {
      x as int + width as int <= other.x as int || other.x as int + other.width as int <= x as int ||
      y as int + height as int <= other.y as int || other.y as int + other.height as int <= y as int
    }
  }
}
