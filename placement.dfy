/**
 * `WindowArranger.move_window_to_monitor` as a specification: for one window
 * snapshot, a target monitor and the answers the operating system gives,
 * which window commands are issued and whether the call reports success.
 */
module Placement {
  import opened Common
  import opened Monitors

  /** Distance of the new top-left corner from the target's origin. */
  const MARGIN: int := 100

  /** One entry of the window snapshot taken at the start of an arrangement pass. */
  datatype Window = Window(title: string, className: string, hwnd: int, rect: Rect)

  /**
   * The window-state commands, one per side-effecting OS call:
   * ShowWindow(SW_RESTORE), SetWindowPos(HWND_TOP, x, y, w, h, SWP_SHOWWINDOW)
   * and ShowWindow(SW_MAXIMIZE).
   */
  datatype Command =
    | Restore(hwnd: int)
    | SetPos(hwnd: int, x: int, y: int, width: int, height: int)
    | Maximize(hwnd: int)

  /** The show state GetWindowPlacement reports. */
  datatype ShowState = ShownMaximized | ShownOther

  /**
   * What the operating system answers. The system metrics are read twice
   * per call: `locateMetrics` by the location check and `metrics` just
   * before the move; each is None when GetSystemMetrics raises at that read. GetWindowPlacement raises for a handle missing
   * from `placement`; a command in `rejects` raises instead of taking effect.
   */
  datatype Env = Env(locateMetrics: Option<Metrics>, metrics: Option<Metrics>, placement: map<int, ShowState>, rejects: set<Command>)

  /** The result of one call: the reported success flag and the commands that took effect, in order. */
  datatype Outcome = Outcome(ok: bool, commands: seq<Command>)

  /** The new top-left corner for a target monitor. */
  function Origin(target: int, virtualLeft: int): (int, int) {
    if target == MONITOR_1 then (virtualLeft + MARGIN, MARGIN) else (MARGIN, MARGIN)
  }

  /** The positioning command for a window: the target origin with the snapshot's width and height. */
  function MoveCommand(w: Window, target: int, virtualLeft: int): Command {
    var (x, y) := Origin(target, virtualLeft);
    SetPos(w.hwnd, x, y, w.rect.Width(), w.rect.Height())
  }

  /** The window is already on the target monitor, so nothing is done. */
  predicate OnTarget(w: Window, target: int, env: Env) {
    GetWindowMonitor(w.rect, env.locateMetrics) == Some(target)
  }

  /** GetWindowPlacement succeeded and reported the window maximized. */
  predicate ReportedMaximized(w: Window, env: Env) {
    w.hwnd in env.placement && env.placement[w.hwnd] == ShownMaximized
  }

  /**
   * The window counts as maximized for the rest of the call: it was reported
   * maximized and the restore command did not raise (a raising restore is
   * caught by the same handler that sets `is_maximized = False`).
   */
  predicate TreatedAsMaximized(w: Window, env: Env) {
    ReportedMaximized(w, env) && Restore(w.hwnd) !in env.rejects
  }

  /**
   * The whole decision sequence of one call. It touches only the given
   * window, issues at most the three commands restore, move, maximize, and
   * a window already on the target gets none.
   */
  function Place(w: Window, target: int, env: Env): (r: Outcome)
    ensures |r.commands| <= 3
    ensures forall c :: c in r.commands ==> c.hwnd == w.hwnd
    ensures OnTarget(w, target, env) ==> r == Outcome(true, [])
  {
    if OnTarget(w, target, env) then Outcome(true, [])
    else
      var restored := if TreatedAsMaximized(w, env) then [Restore(w.hwnd)] else [];
      match env.metrics
      case None => Outcome(false, restored)
      case Some(mt) =>
        var move := MoveCommand(w, target, mt.virtualLeft);
        if move in env.rejects then Outcome(false, restored)
        else if !TreatedAsMaximized(w, env) then Outcome(true, restored + [move])
        else if Maximize(w.hwnd) in env.rejects then Outcome(false, restored + [move])
        else Outcome(true, restored + [move, Maximize(w.hwnd)])
  }

  /** No OS fault that stops a move: the second metrics read succeeds and no command raises. */
  predicate Healthy(env: Env) {
    env.metrics.Some? && env.rejects == {}
  }

  /** Idempotence check: a window already on the target gets no command and the call succeeds. */
  lemma SkipWhenOnTarget(w: Window, target: int, env: Env)
    requires OnTarget(w, target, env)
    ensures Place(w, target, env) == Outcome(true, [])
  {
  }

  /**
   * A failed location check counts as "not on the target", so the move goes
   * ahead: when the second metrics read succeeds, a window that is not
   * maximized gets its one positioning command.
   */
  lemma UnlocatedWindowStillMoves(w: Window, target: int, env: Env)
    requires env.locateMetrics.None? && env.metrics.Some? && !ReportedMaximized(w, env)
    requires MoveCommand(w, target, env.metrics.value.virtualLeft) !in env.rejects
    ensures Place(w, target, env) == Outcome(true, [MoveCommand(w, target, env.metrics.value.virtualLeft)])
  {
  }

  /** Every positioning command issued goes to the target's origin and keeps the snapshot's size. */
  lemma MovePreservesSize(w: Window, target: int, env: Env, c: Command)
    requires c in Place(w, target, env).commands && c.SetPos?
    ensures env.metrics.Some?
    ensures c.hwnd == w.hwnd
    ensures (c.x, c.y) == if target == MONITOR_1 then (env.metrics.value.virtualLeft + MARGIN, MARGIN) else (MARGIN, MARGIN)
    ensures c.width == w.rect.right - w.rect.left && c.height == w.rect.bottom - w.rect.top
  {
  }

  /** A maximized window off its target is restored, moved and maximized again, in that order. */
  lemma MaximizedRoundTrip(w: Window, target: int, env: Env)
    requires !OnTarget(w, target, env) && Healthy(env) && ReportedMaximized(w, env)
    ensures Place(w, target, env) ==
      Outcome(true, [Restore(w.hwnd), MoveCommand(w, target, env.metrics.value.virtualLeft), Maximize(w.hwnd)])
  {
  }

  /** A window that is not maximized, or whose placement query failed, gets exactly one positioning command. */
  lemma PlainMove(w: Window, target: int, env: Env)
    requires !OnTarget(w, target, env) && env.metrics.Some? && !ReportedMaximized(w, env)
    requires MoveCommand(w, target, env.metrics.value.virtualLeft) !in env.rejects
    ensures Place(w, target, env) == Outcome(true, [MoveCommand(w, target, env.metrics.value.virtualLeft)])
  {
  }

  /**
   * When the call reports success: either nothing was needed, or the window
   * was moved and, if it had been maximized, maximized again. A failure
   * means the metrics could not be read or a command after the restore raised.
   */
  lemma SuccessIff(w: Window, target: int, env: Env)
    ensures Place(w, target, env).ok <==>
      || OnTarget(w, target, env)
      || (&& env.metrics.Some?
          && MoveCommand(w, target, env.metrics.value.virtualLeft) !in env.rejects
          && (TreatedAsMaximized(w, env) ==> Maximize(w.hwnd) !in env.rejects))
  {
  }

  /** A failed call never rolls back: what it issued is a prefix of the full restore, move, maximize sequence. */
  lemma FailureLeavesPrefix(w: Window, target: int, env: Env)
    requires !Place(w, target, env).ok
    ensures env.metrics.Some? ==>
      Place(w, target, env).commands <= [Restore(w.hwnd), MoveCommand(w, target, env.metrics.value.virtualLeft), Maximize(w.hwnd)]
    ensures env.metrics.None? ==> Place(w, target, env).commands <= [Restore(w.hwnd)]
  {
  }

  /** The rectangle the window occupies after a move: the origin with the snapshot's size. */
  function PlacedRect(w: Window, target: int, virtualLeft: int): Rect {
    var (x, y) := Origin(target, virtualLeft);
    Rect(x, y, x + w.rect.Width(), y + w.rect.Height())
  }

  /**
   * Moving to the primary monitor lands on it, by the location rule,
   * exactly when the window is narrower than twice the primary width less the margin.
   */
  lemma PrimaryPlacementLocated(w: Window, mt: Metrics)
    requires w.rect.Width() >= 0
    ensures GetWindowMonitor(PlacedRect(w, MONITOR_2, mt.virtualLeft), Some(mt)) == Some(MONITOR_2)
      <==> 2 * MARGIN + w.rect.Width() < 2 * mt.primaryWidth
  {
  }

  /**
   * Moving to monitor 1 goes to the virtual screen's left edge. When the
   * secondary monitor lies to the right of the primary one, that edge is 0,
   * and a window narrower than the primary monitor is then placed on the
   * primary monitor, not on monitor 1.
   */
  lemma RightExtensionLandsOnPrimary(w: Window, mt: Metrics)
    requires mt.virtualLeft == 0 && 0 <= w.rect.Width() && 2 * MARGIN + w.rect.Width() < 2 * mt.primaryWidth
    ensures GetWindowMonitor(PlacedRect(w, MONITOR_1, mt.virtualLeft), Some(mt)) == Some(MONITOR_2)
  {
  }

  /** A left secondary monitor far enough left receives the window: it is located on monitor 1 after the move. */
  lemma LeftExtensionLocated(w: Window, mt: Metrics)
    requires 0 <= w.rect.Width() && 2 * (mt.virtualLeft + MARGIN) + w.rect.Width() < 0
    ensures GetWindowMonitor(PlacedRect(w, MONITOR_1, mt.virtualLeft), Some(mt)) == Some(MONITOR_1)
  {
  }
}
