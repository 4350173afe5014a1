/** Integer rectangles, as pygame's Rect stores them. */
module Geometry {

  /** An axis-aligned rectangle: top-left corner (x, y), width w and height h, all in pixels. */
  datatype Rect = Rect(x: int, y: int, w: int, h: int) {
    function Left(): int { x }
    function Top(): int { y }
    function Right(): int { x + w }
    function Bottom(): int { y + h }
    function CenterX(): int { x + w / 2 }
    function CenterY(): int { y + h / 2 }
  }

  /** A w x h rect placed so that its center is (cx, cy), as get_rect(center=...) places it. */
  function Centered(cx: int, cy: int, w: int, h: int): (r: Rect)
    ensures r.CenterX() == cx && r.CenterY() == cy
    ensures r.w == w && r.h == h
  {
    Rect(cx - w / 2, cy - h / 2, w, h)
  }

  /**
   * The test pygame applies to two rects when sprites collide. Its implementation
   * is not part of this model: every operation that needs it takes it as a parameter.
   */
  type Overlap = (Rect, Rect) -> bool
}
