/** The "scrolled to the bottom" test that all three components apply to their scroll container. */
module Scroll {

  /** How close (in pixels) to the bottom counts as "at the bottom". */
  const BottomThreshold: int := 20

  /** The three integer measurements of the scrolled element that the handlers read. */
  datatype ScrollMetrics = ScrollMetrics(scrollTop: int, clientHeight: int, scrollHeight: int)

  /** The remaining scrollable distance below the visible area. */
  function DistanceFromBottom(m: ScrollMetrics): int
  {
    m.scrollHeight - (m.scrollTop + m.clientHeight)
  }

  /**
   * The handlers' test: the bottom edge of the visible area is within the threshold of
   * the bottom of the content.
   */
  predicate BottomReached(m: ScrollMetrics)
    ensures BottomReached(m) <==> DistanceFromBottom(m) <= BottomThreshold
  {
    m.scrollTop + m.clientHeight >= m.scrollHeight - BottomThreshold
  }
}
