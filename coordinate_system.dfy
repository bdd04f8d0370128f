/**
 * Translation of window-relative coordinates to screen coordinates by the
 * foreground window's top-left corner.
 */
module CoordinateSystem {
  import opened Values

  /** What the window manager reports: no foreground window, one with its
      rectangle, or an error while reading it. */
  datatype Foreground = NoWindow | Window(left: int, top: int, right: int, bottom: int) | Unavailable

  /** `to_screen_coords(x, y)`. Int and bool coordinates are offset by the
      rectangle's left and top; with no foreground window, on an error, or when
      a coordinate is not a number (the addition raises and is caught) the
      point comes back unchanged. */
  function ToScreenCoords(x: Json, y: Json, fg: Foreground): (p: (Json, Json))
    ensures fg.Window? && IsNumber(x) && IsNumber(y) ==> p == (JInt(fg.left + NumberOf(x)), JInt(fg.top + NumberOf(y)))
    ensures !(fg.Window? && IsNumber(x) && IsNumber(y)) ==> p == (x, y)
  {
    match fg
    case Window(left, top, _, _) =>
      if IsNumber(x) && IsNumber(y) then (JInt(left + NumberOf(x)), JInt(top + NumberOf(y))) else (x, y)
    case _ => (x, y)
  }


  /** Only left and top are used, so translation keeps the offset between two points. */
  lemma TranslationKeepsOffsets(x1: int, y1: int, x2: int, y2: int, fg: Foreground)
    ensures var p1 := ToScreenCoords(JInt(x1), JInt(y1), fg);
            var p2 := ToScreenCoords(JInt(x2), JInt(y2), fg);
            p1.0.i - p2.0.i == x1 - x2 && p1.1.i - p2.1.i == y1 - y2
    ensures fg.Window? ==> ToScreenCoords(JInt(0), JInt(0), fg) == (JInt(fg.left), JInt(fg.top))
  {
  }
}
