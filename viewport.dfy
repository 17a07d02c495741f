/** `elementInViewport`: is an element's bounding box inside the visible window? */
module Viewport {

  /** The result of `getBoundingClientRect()`, in CSS pixels. */
  datatype Rect = Rect(top: real, left: real, bottom: real, right: real)

  /** The visible area, measured from the window's top-left corner. */
  datatype View = View(width: int, height: int)

  /**
   * `window.innerWidth || clientWidth` and `window.innerHeight || clientHeight`:
   * a window dimension of 0 falls back to the document element's.
   */
  function WindowView(innerWidth: int, innerHeight: int, clientWidth: int, clientHeight: int): View
  {
    View(if innerWidth != 0 then innerWidth else clientWidth,
         if innerHeight != 0 then innerHeight else clientHeight)
  }

  /** `elementInViewport`: the box's four edges lie within the view. */
  predicate InViewport(r: Rect, v: View)
  {
    && r.top >= 0.0
    && r.left >= 0.0
    && r.bottom <= v.height as real
    && r.right <= v.width as real
  }

  /** The point (x, y) lies within the box. */
  predicate InRect(r: Rect, x: real, y: real)
  {
    r.left <= x <= r.right && r.top <= y <= r.bottom
  }

  /** The point (x, y) lies within the view. */
  predicate Visible(v: View, x: real, y: real)
  {
    0.0 <= x <= v.width as real && 0.0 <= y <= v.height as real
  }

  /**
   * For a box whose edges are in order, the edge test agrees with the
   * reference definition "every point of the box is visible".
   */
  lemma InViewportIffAllPointsVisible(r: Rect, v: View)
    requires r.top <= r.bottom && r.left <= r.right
    ensures InViewport(r, v) <==> forall x, y :: InRect(r, x, y) ==> Visible(v, x, y)
  {
    if forall x, y :: InRect(r, x, y) ==> Visible(v, x, y) {
      assert InRect(r, r.left, r.top);
      assert InRect(r, r.right, r.bottom);
    }
  }
}
