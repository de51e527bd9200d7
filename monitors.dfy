/**
 * `WindowArranger.get_window_monitor`: which logical monitor a window is on,
 * judged from the horizontal centre of its rectangle and the primary width.
 * Logical monitor 2 is the primary monitor, occupying x in [0, width);
 * logical monitor 1 is whatever lies to its left or to its right.
 */
module Monitors {
  import opened Common

  const MONITOR_1: int := 1
  const MONITOR_2: int := 2

  /** A window rectangle in screen coordinates. */
  datatype Rect = Rect(left: int, top: int, right: int, bottom: int) {
    function Width(): int { right - left }
    function Height(): int { bottom - top }
  }

  /** The two system metrics the engine reads: SM_CXSCREEN and SM_XVIRTUALSCREEN. */
  datatype Metrics = Metrics(primaryWidth: int, virtualLeft: int)

  /** `(left + right) // 2`: Python's floor division, which Dafny's `/` by 2 agrees with. */
  function CenterX(r: Rect): (c: int)
    ensures 2 * c <= r.left + r.right < 2 * c + 2
  {
    (r.left + r.right) / 2
  }

  /** The fixed threshold rule applied to a centre coordinate. */
  function MonitorAt(centerX: int, primaryWidth: int): (m: int)
    ensures m == MONITOR_1 || m == MONITOR_2
    ensures m == MONITOR_2 <==> 0 <= centerX < primaryWidth
  {
    if centerX < 0 then MONITOR_1        // left of the primary monitor
    else if centerX < primaryWidth then MONITOR_2
    else MONITOR_1                       // right extension
  }

  /**
   * The monitor a window is on, or `None` when querying the system metrics
   * raised (the handler at the end of `get_window_monitor`).
   */
  function GetWindowMonitor(r: Rect, metrics: Option<Metrics>): (m: Option<int>)
    ensures m.None? <==> metrics.None?
    ensures m.Some? ==> (m.value == MONITOR_1 || m.value == MONITOR_2)
    ensures m.Some? ==>
      (m.value == MONITOR_2 <==> 0 <= r.left + r.right && r.left + r.right < 2 * metrics.value.primaryWidth)
  {
    match metrics
    case None => None
    case Some(mt) => Some(MonitorAt(CenterX(r), mt.primaryWidth))
  }

  /** The threshold law, stated on the rectangle: a centre left of 0 or at or beyond the primary width is monitor 1. */
  lemma ThresholdLaw(r: Rect, mt: Metrics)
    ensures CenterX(r) < 0 ==> GetWindowMonitor(r, Some(mt)) == Some(MONITOR_1)
    ensures 0 <= CenterX(r) < mt.primaryWidth ==> GetWindowMonitor(r, Some(mt)) == Some(MONITOR_2)
    ensures CenterX(r) >= mt.primaryWidth ==> GetWindowMonitor(r, Some(mt)) == Some(MONITOR_1)
  {
  }
}
