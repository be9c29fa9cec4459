/**
 * What the renderer draws, and where (src/app/ui/renderer.rs).
 *
 * Drawing is modelled as the ordered list of widgets a frame receives; the
 * cells a widget paints and its styles are not modelled. The dimmed backdrop
 * around an open popup is made of up to four strips, whose geometry is
 * plain 16-bit rectangle arithmetic.
 */
module Rendering {
  import opened Wrappers
  import opened Terminal
  import opened PopupWidget
  import opened PopupLayout
  import opened UserInterface
  import TextUtils

  /** The text the list area shows. */
  const ListPlaceholder := "your list goes here )"

  /** One call of `frame.render_widget`: what was drawn, and in which rectangle. */
  datatype Widget =
    | Text(content: string, area: Rect)
    | Backdrop(area: Rect)
    | PopupBox(popup: Popup, area: Rect)

  /** A frame being drawn: its full area and the widgets drawn on it so far. */
  class Frame {
    const area: Rect
    var drawn: seq<Widget>

    constructor (area: Rect)
      ensures this.area == area && drawn == []
    {
      this.area := area;
      drawn := [];
    }

    method RenderWidget(w: Widget)
      modifies this
      ensures drawn == old(drawn) + [w]
    {
      drawn := drawn + [w];
    }
  }

  // ---------------------------------------------------------------------
  // Backdrop strips
  // ---------------------------------------------------------------------

  /** The rows above the popup, across the whole frame. */
  function TopStrip(full: Rect, popup: Rect): (r: Option<Rect>)
    ensures r.Some? <==> popup.y > 0
    ensures r.Some? ==> r.value == Rect(full.x, full.y, full.width, popup.y)
  {
    if popup.y > 0 then Some(Rect(full.x, full.y, full.width, popup.y)) else None
  }

  /** The rows below the popup, down to the frame's height. */
  function BottomStrip(full: Rect, popup: Rect): (r: Option<Rect>)
    requires popup.Bounded()
    ensures r.Some? <==> popup.y as int + popup.height as int < full.height as int
    ensures r.Some? ==>
      var bottomY := popup.y as int + popup.height as int;
      r.value.x == full.x && r.value.y as int == bottomY &&
      r.value.width == full.width && r.value.height as int == full.height as int - bottomY
  {
    var bottomY := popup.y as int + popup.height as int;
    if bottomY < full.height as int
    then Some(Rect(full.x, bottomY as u16, full.width, (full.height as int - bottomY) as u16))
    else None
  }

  /** The cells left of the popup, in the popup's rows. */
  function LeftStrip(full: Rect, popup: Rect): (r: Option<Rect>)
    ensures r.Some? <==> popup.x > 0
    ensures r.Some? ==> r.value == Rect(full.x, popup.y, popup.x, popup.height)
  {
    if popup.x > 0 then Some(Rect(full.x, popup.y, popup.x, popup.height)) else None
  }

  /** The cells right of the popup, in the popup's rows, up to the frame's width. */
  function RightStrip(full: Rect, popup: Rect): (r: Option<Rect>)
    requires popup.Bounded()
    ensures r.Some? <==> popup.x as int + popup.width as int < full.width as int
    ensures r.Some? ==>
      var rightX := popup.x as int + popup.width as int;
      r.value.x as int == rightX && r.value.y == popup.y &&
      r.value.width as int == full.width as int - rightX && r.value.height == popup.height
  {
    var rightX := popup.x as int + popup.width as int;
    if rightX < full.width as int
    then Some(Rect(rightX as u16, popup.y, (full.width as int - rightX) as u16, popup.height))
    else None
  }

  function Present(r: Option<Rect>): seq<Rect> {
    if r.Some? then [r.value] else []
  }

  /** The strips in the order they are drawn: top, bottom, left, right. */
  function Strips(full: Rect, popup: Rect): seq<Rect>
    requires popup.Bounded()
  {
    Present(TopStrip(full, popup)) + Present(BottomStrip(full, popup)) +
    Present(LeftStrip(full, popup)) + Present(RightStrip(full, popup))
  }

  function AsBackdrops(rs: seq<Rect>): (ws: seq<Widget>)
    ensures |ws| == |rs| && forall i :: 0 <= i < |rs| ==> ws[i] == Backdrop(rs[i])
  {
    seq(|rs|, i requires 0 <= i < |rs| => Backdrop(rs[i]))
  }

  /** The tests of the drawn strips, one per strip. */
  lemma StripFacts(full: Rect, popup: Rect)
    requires popup.Bounded()
    ensures forall s :: s in Strips(full, popup) <==>
      (TopStrip(full, popup) == Some(s) || BottomStrip(full, popup) == Some(s) ||
       LeftStrip(full, popup) == Some(s) || RightStrip(full, popup) == Some(s))
  {
  }

  /** A backdrop strip that paints only frame cells outside the popup. */
  predicate OutsidePopup(s: Rect, full: Rect, popup: Rect) {
    s.Within(full) && s.DisjointFrom(popup)
  }

  /** Two strips, when both are drawn, share no cell. */
  predicate ApartWhenDrawn(a: Option<Rect>, b: Option<Rect>) {
    a.Some? && b.Some? ==> a.value.DisjointFrom(b.value)
  }

  /**
   * For a popup inside a frame anchored at the origin, every strip lies
   * inside the frame and shares no cell with the popup.
   */
  lemma StripsAvoidPopup(full: Rect, popup: Rect)
    requires full.x == 0 && full.y == 0 && popup.Within(full)
    requires popup.Bounded()
    ensures forall s :: s in Strips(full, popup) ==> OutsidePopup(s, full, popup)
  {
    StripFacts(full, popup);
    var top, bottom := TopStrip(full, popup), BottomStrip(full, popup);
    var left, right := LeftStrip(full, popup), RightStrip(full, popup);
    assert top.Some? ==> OutsidePopup(top.value, full, popup);
    assert bottom.Some? ==> OutsidePopup(bottom.value, full, popup);
    assert left.Some? ==> OutsidePopup(left.value, full, popup);
    assert right.Some? ==> OutsidePopup(right.value, full, popup);
  }

  /**
   * For a frame anchored at the origin, every strip is a rectangle whose far
   * edges fit in 16 bits, so `Rect::new` keeps it as given. (For a frame
   * elsewhere the strips' heights and widths are measured from 0, not from
   * the frame's edge, and can run past 16 bits.)
   */
  lemma StripsBounded(full: Rect, popup: Rect)
    requires full.x == 0 && full.y == 0 && full.Bounded()
    requires popup.Within(full) && popup.Bounded()
    ensures forall s :: s in Strips(full, popup) ==> s.Bounded()
  {
    StripsAvoidPopup(full, popup);
  }

  /**
   * A frame that does not start at row 0: the top strip's height is the
   * popup's row, not its distance from the frame's top, so the strip runs
   * past the frame and past 16 bits.
   */
  lemma TopStripOffOrigin()
    ensures var full, popup := Rect(0, 30000, 10, 30000), Rect(0, 40000, 10, 1);
      && full.Bounded() && popup.Within(full) && popup.Bounded()
      && TopStrip(full, popup).Some?
      && !TopStrip(full, popup).value.Bounded()
      && !TopStrip(full, popup).value.Within(full)
  {
  }

  /**
   * Around a popup with at least one cell, every strip drawn has at least one
   * cell too. (Around an empty popup the side strips can be empty.)
   */
  lemma StripsNonEmpty(full: Rect, popup: Rect)
    requires popup.Within(full) && popup.Bounded()
    requires popup.width > 0 && popup.height > 0
    ensures forall s :: s in Strips(full, popup) ==> s.width > 0 && s.height > 0
  {
    StripFacts(full, popup);
  }

  /** No cell of the frame is dimmed twice: the strips are pairwise disjoint. */
  lemma StripsDisjoint(full: Rect, popup: Rect)
    requires full.x == 0 && full.y == 0 && popup.Within(full)
    requires popup.Bounded()
    ensures var top, bottom := TopStrip(full, popup), BottomStrip(full, popup);
      var left, right := LeftStrip(full, popup), RightStrip(full, popup);
      && ApartWhenDrawn(top, bottom) && ApartWhenDrawn(top, left) && ApartWhenDrawn(top, right)
      && ApartWhenDrawn(bottom, left) && ApartWhenDrawn(bottom, right) && ApartWhenDrawn(left, right)
  {
  }

  /**
   * For a popup inside a frame anchored at the origin, the strips cover
   * every cell of the frame outside the popup.
   */
  lemma StripsCoverBackground(full: Rect, popup: Rect, cx: int, cy: int)
    requires full.x == 0 && full.y == 0 && popup.Within(full)
    requires popup.Bounded()
    requires full.Contains(cx, cy) && !popup.Contains(cx, cy)
    ensures exists s :: s in Strips(full, popup) && s.Contains(cx, cy)
  {
    StripFacts(full, popup);
    var top, bottom := TopStrip(full, popup), BottomStrip(full, popup);
    var left, right := LeftStrip(full, popup), RightStrip(full, popup);
    if cy < popup.y as int {
      assert top.Some? && top.value.Contains(cx, cy);
    } else if cy >= popup.y as int + popup.height as int {
      assert bottom.Some? && bottom.value.Contains(cx, cy);
    } else if cx < popup.x as int {
      assert left.Some? && left.value.Contains(cx, cy);
    } else {
      assert right.Some? && right.value.Contains(cx, cy);
    }
  }

  // ---------------------------------------------------------------------
  // Drawing
  // ---------------------------------------------------------------------

  lemma AsBackdropsAppend(a: seq<Rect>, b: seq<Rect>)
    ensures AsBackdrops(a + b) == AsBackdrops(a) + AsBackdrops(b)
  {
  }

  /** Draws one strip, if it is there. */
  method RenderStrip(frame: Frame, strip: Option<Rect>)
    modifies frame
    ensures frame.drawn == old(frame.drawn) + AsBackdrops(Present(strip))
  {
    if strip.Some? {
      frame.RenderWidget(Backdrop(strip.value));
    }
  }

  /**
   * Dims everything but the popup's rectangle: the strip above, below, left
   * and right of it, each under its own test.
   */
  method RenderOverlayExcept(frame: Frame, popupArea: Rect)
    requires popupArea.Bounded()
    modifies frame
    ensures frame.drawn == old(frame.drawn) + AsBackdrops(Strips(frame.area, popupArea))
  {
    var full := frame.area;
    var top, bottom := TopStrip(full, popupArea), BottomStrip(full, popupArea);
    var left, right := LeftStrip(full, popupArea), RightStrip(full, popupArea);
    RenderStrip(frame, top);
    RenderStrip(frame, bottom);
    RenderStrip(frame, left);
    RenderStrip(frame, right);
    AsBackdropsAppend(Present(top), Present(bottom));
    AsBackdropsAppend(Present(top) + Present(bottom), Present(left));
    AsBackdropsAppend(Present(top) + Present(bottom) + Present(left), Present(right));
  }

  /** The widgets one call of `render` draws, in order. */
  function Scene(full: Rect, popup: Option<Popup>, popupArea: Rect): seq<Widget>
    requires popupArea.Bounded()
  {
    [Text(ListPlaceholder, full)] +
    (if popup.Some? then AsBackdrops(Strips(full, popupArea)) + [PopupBox(popup.value, popupArea)] else [])
  }

  /**
   * The list is always drawn first; with a popup, at most four backdrop
   * strips follow and the popup comes last; without one, nothing follows.
   */
  lemma SceneOrder(full: Rect, popup: Option<Popup>, popupArea: Rect)
    requires popupArea.Bounded()
    ensures var sc := Scene(full, popup, popupArea);
      && sc[0] == Text(ListPlaceholder, full)
      && (popup.None? ==> |sc| == 1)
      && (popup.Some? ==>
            && 2 <= |sc| <= 6
            && sc[|sc| - 1] == PopupBox(popup.value, popupArea)
            && forall i :: 0 < i < |sc| - 1 ==> sc[i].Backdrop?)
  {
    var sc := Scene(full, popup, popupArea);
    if popup.Some? {
      var bs := AsBackdrops(Strips(full, popupArea));
      assert forall i :: 0 < i < |sc| - 1 ==> sc[i] == bs[i - 1];
    }
  }

  /**
   * Draws the list, then, only while a popup is open, the backdrop around
   * the popup's rectangle and the popup itself, in that order.
   */
  method Render(frame: Frame, ui: UIState, maxAllowedWidth: nat,
                keyLabel: Key -> string, center: (Rect, u16, u16) -> Rect)
    returns (popupArea: Option<Rect>)
    requires ui.popup.Some? ==> PaddingFits(ui.popup.value.styles.padding)
    requires frame.area.Bounded()
    requires forall r: Rect, w: u16, h: u16 :: center(r, w, h).Within(r)
    modifies frame
    ensures ui.popup.None? <==> popupArea.None?
    ensures popupArea.Some? ==>
      var p := ui.popup.value;
      popupArea.value == center(frame.area, PopupWidth(p, frame.area, maxAllowedWidth, keyLabel) as u16,
                                            PopupHeight(p, frame.area, maxAllowedWidth) as u16)
    ensures popupArea.Some? ==> popupArea.value.Within(frame.area) && popupArea.value.Bounded()
    ensures popupArea.None? ==> frame.drawn == old(frame.drawn) + [Text(ListPlaceholder, frame.area)]
    ensures popupArea.Some? ==>
      frame.drawn == old(frame.drawn) + Scene(frame.area, ui.popup, popupArea.value)
  {
    ghost var before := frame.drawn;
    frame.RenderWidget(Text(ListPlaceholder, frame.area));
    popupArea := None;
    if ui.popup.Some? {
      var popup := ui.popup.value;
      var area := CalculateArea(popup, frame.area, maxAllowedWidth, keyLabel, center);
      assert area.Within(frame.area) && area.Bounded();
      DrawPopup(frame, popup, area);
      TextUtils.AppendAssoc(before, [Text(ListPlaceholder, frame.area)],
                  AsBackdrops(Strips(frame.area, area)) + [PopupBox(popup, area)]);
      popupArea := Some(area);
    }
  }

  /** The backdrop around the popup's rectangle, then the popup itself. */
  method DrawPopup(frame: Frame, popup: Popup, area: Rect)
    requires area.Bounded()
    modifies frame
    ensures frame.drawn == old(frame.drawn) + (AsBackdrops(Strips(frame.area, area)) + [PopupBox(popup, area)])
  {
    RenderOverlayExcept(frame, area);
    frame.RenderWidget(PopupBox(popup, area));
  }
}
