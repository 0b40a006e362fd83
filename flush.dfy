/** Area arithmetic of the display flush callback (main/gui/gui.c,
    lvgl_flush_cb): LVGL hands over an area with inclusive corners, the
    callback byte-swaps that many RGB565 pixels and passes the panel driver a
    rectangle whose end corner is exclusive. */
module FlushRegion {

  /** An LVGL area: both corners are inclusive. */
  datatype Area = Area(x1: int, y1: int, x2: int, y2: int)

  /** The rectangle handed to esp_lcd_panel_draw_bitmap: start inclusive,
      end exclusive. */
  datatype Rect = Rect(xStart: int, yStart: int, xEnd: int, yEnd: int)

  /** LVGL never hands over an inverted area; a one-pixel area has x1 == x2. */
  predicate WellFormed(a: Area) { a.x1 <= a.x2 && a.y1 <= a.y2 }

  /** The pixel count passed to lv_draw_sw_rgb565_swap. */
  function SwapCount(a: Area): (n: int)
    ensures WellFormed(a) ==> n >= 1
    ensures a.x1 == a.x2 ==> n == a.y2 + 1 - a.y1
    ensures a.y1 == a.y2 ==> n == a.x2 + 1 - a.x1
  {
    (a.x2 + 1 - a.x1) * (a.y2 + 1 - a.y1)
  }

  /** The rectangle passed to the panel. */
  function PanelRect(a: Area): (r: Rect)
    ensures r.xStart == a.x1 && r.yStart == a.y1
    ensures r.xEnd - r.xStart == a.x2 + 1 - a.x1
    ensures r.yEnd - r.yStart == a.y2 + 1 - a.y1
  {
    Rect(a.x1, a.y1, a.x2 + 1, a.y2 + 1)
  }

  /** The pixels of a half-open rectangle, row by row. */
  function Pixels(r: Rect): seq<(int, int)>
    decreases r.yEnd - r.yStart
  {
    if r.yEnd <= r.yStart then []
    else Row(r.xStart, r.xEnd, r.yStart) + Pixels(Rect(r.xStart, r.yStart + 1, r.xEnd, r.yEnd))
  }

  /** The pixels [xs, xe) of row y. */
  function Row(xs: int, xe: int, y: int): seq<(int, int)>
    decreases xe - xs
  {
    if xe <= xs then [] else [(xs, y)] + Row(xs + 1, xe, y)
  }

  lemma {:induction false} RowLength(xs: int, xe: int, y: int)
    requires xs <= xe
    ensures |Row(xs, xe, y)| == xe - xs
    decreases xe - xs
  {
    if xs < xe { RowLength(xs + 1, xe, y); }
  }

  lemma {:induction false} RowMembers(xs: int, xe: int, y: int, p: (int, int))
    ensures p in Row(xs, xe, y) <==> xs <= p.0 < xe && p.1 == y
    decreases xe - xs
  {
    if xs < xe { RowMembers(xs + 1, xe, y, p); }
  }

  lemma {:induction false} PixelsLength(r: Rect)
    requires r.xStart <= r.xEnd && r.yStart <= r.yEnd
    ensures |Pixels(r)| == (r.xEnd - r.xStart) * (r.yEnd - r.yStart)
    decreases r.yEnd - r.yStart
  {
    if r.yStart < r.yEnd {
      var rest := Rect(r.xStart, r.yStart + 1, r.xEnd, r.yEnd);
      RowLength(r.xStart, r.xEnd, r.yStart);
      PixelsLength(rest);
      assert (r.xEnd - r.xStart) * (r.yEnd - r.yStart)
        == (r.xEnd - r.xStart) + (r.xEnd - r.xStart) * (r.yEnd - (r.yStart + 1));
    }
  }

  lemma {:induction false} PixelsMembers(r: Rect, p: (int, int))
    ensures p in Pixels(r) <==> r.xStart <= p.0 < r.xEnd && r.yStart <= p.1 < r.yEnd
    decreases r.yEnd - r.yStart
  {
    if r.yStart < r.yEnd {
      RowMembers(r.xStart, r.xEnd, r.yStart, p);
      PixelsMembers(Rect(r.xStart, r.yStart + 1, r.xEnd, r.yEnd), p);
    }
  }

  /** The byte swap and the panel transfer describe the same area: the swap
      count is the number of pixels of the half-open rectangle handed to the
      panel, and that rectangle holds exactly the pixels of the inclusive
      LVGL area. */
  lemma SwapCountMatchesPanelRect(a: Area)
    requires WellFormed(a)
    ensures SwapCount(a) == |Pixels(PanelRect(a))|
    ensures forall p :: p in Pixels(PanelRect(a)) <==> a.x1 <= p.0 <= a.x2 && a.y1 <= p.1 <= a.y2
  {
    PixelsLength(PanelRect(a));
    forall p ensures p in Pixels(PanelRect(a)) <==> a.x1 <= p.0 <= a.x2 && a.y1 <= p.1 <= a.y2 {
      PixelsMembers(PanelRect(a), p);
    }
  }
}
