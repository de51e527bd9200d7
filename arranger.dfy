/**
 * The `WindowArranger` object and the operating system it drives. The OS is
 * a recorder of the window commands that took effect; its answers (metrics,
 * show states, rejected commands) are fixed inputs.
 */
module Arranger {
  import opened Common
  import opened Config
  import opened Monitors
  import opened Placement
  import opened Classification

  /** The commands one placement pass issues for `ws`, all sent to `target`, window by window. */
  function TraceOf(ws: seq<Window>, target: int, env: Env): (r: seq<Command>)
    ensures |r| <= 3 * |ws|
    decreases |ws|
  {
    if ws == [] then [] else Place(ws[0], target, env).commands + TraceOf(ws[1..], target, env)
  }

  /** An arrangement pass: the monitor-1 windows go to monitor 1 first, then the rest to monitor 2. */
  function PassTrace(ws: seq<Window>, apps: seq<string>, env: Env): (r: seq<Command>)
    ensures ws == [] ==> r == []
  {
    TraceOf(Select(ws, apps, true), MONITOR_1, env) + TraceOf(Select(ws, apps, false), MONITOR_2, env)
  }

  lemma {:induction false} TraceOfAppend(a: seq<Window>, b: seq<Window>, target: int, env: Env)
    ensures TraceOf(a + b, target, env) == TraceOf(a, target, env) + TraceOf(b, target, env)
    decreases |a|
  {
    if a == [] {
      assert a + b == b;
    } else {
      assert (a + b)[1..] == a[1..] + b;
      TraceOfAppend(a[1..], b, target, env);
    }
  }

  lemma ConcatAssociative(a: seq<Command>, b: seq<Command>, c: seq<Command>)
    ensures (a + b) + c == a + (b + c)
  {
  }

  /** Extending the list by one window extends the trace by that window's placement. */
  lemma TraceOfSnoc(ws: seq<Window>, i: int, target: int, env: Env)
    requires 0 <= i < |ws|
    ensures TraceOf(ws[..i + 1], target, env) == TraceOf(ws[..i], target, env) + Place(ws[i], target, env).commands
  {
    TraceOfAppend(ws[..i], [ws[i]], target, env);
    assert ws[..i + 1] == ws[..i] + [ws[i]];
    assert TraceOf([ws[i]], target, env) == Place(ws[i], target, env).commands + TraceOf([], target, env);
  }

  /** The handles of the positioning commands, in order. */
  function MovedHandles(cs: seq<Command>): seq<int>
    decreases |cs|
  {
    if cs == [] then [] else (if cs[0].SetPos? then [cs[0].hwnd] else []) + MovedHandles(cs[1..])
  }

  lemma {:induction false} MovedHandlesAppend(a: seq<Command>, b: seq<Command>)
    ensures MovedHandles(a + b) == MovedHandles(a) + MovedHandles(b)
    decreases |a|
  {
    if a == [] {
      assert a + b == b;
    } else {
      var head := if a[0].SetPos? then [a[0].hwnd] else [];
      assert (a + b)[0] == a[0];
      assert (a + b)[1..] == a[1..] + b;
      assert MovedHandles(a + b) == head + MovedHandles(a[1..] + b);
      MovedHandlesAppend(a[1..], b);
      assert MovedHandles(a) == head + MovedHandles(a[1..]);
    }
  }

  /** The handles of the windows of `ws` that are not yet on `target`, in order. */
  function StrayHandles(ws: seq<Window>, target: int, env: Env): seq<int>
    decreases |ws|
  {
    if ws == [] then []
    else (if OnTarget(ws[0], target, env) then [] else [ws[0].hwnd]) + StrayHandles(ws[1..], target, env)
  }

  /**
   * Without OS faults a placement pass moves every window not yet on the
   * target exactly once, in list order, and no other window.
   */
  lemma {:induction false} EachStrayWindowMovedOnce(ws: seq<Window>, target: int, env: Env)
    requires Healthy(env)
    ensures MovedHandles(TraceOf(ws, target, env)) == StrayHandles(ws, target, env)
    decreases |ws|
  {
    if ws != [] {
      var w := ws[0];
      var here := Place(w, target, env).commands;
      MovedHandlesAppend(here, TraceOf(ws[1..], target, env));
      EachStrayWindowMovedOnce(ws[1..], target, env);
      MovedByOnePlacement(w, target, env);
    }
  }

  /** Without OS faults one placement issues one positioning command for a stray window and none otherwise. */
  lemma MovedByOnePlacement(w: Window, target: int, env: Env)
    requires Healthy(env)
    ensures MovedHandles(Place(w, target, env).commands) == if OnTarget(w, target, env) then [] else [w.hwnd]
  {
    var here := Place(w, target, env).commands;
    if !OnTarget(w, target, env) {
      var move := MoveCommand(w, target, env.metrics.value.virtualLeft);
      if ReportedMaximized(w, env) {
        assert here == [Restore(w.hwnd), move, Maximize(w.hwnd)];
        assert here[1..] == [move, Maximize(w.hwnd)];
        assert here[1..][1..] == [Maximize(w.hwnd)];
        assert MovedHandles(here[1..][1..]) == [];
      } else {
        assert here == [move];
      }
    }
  }

  /**
   * Without OS faults an arrangement pass moves the monitor-1 windows not on
   * monitor 1, in snapshot order, and only then the other windows not on
   * monitor 2, in snapshot order.
   */
  lemma PassOrder(ws: seq<Window>, apps: seq<string>, env: Env)
    requires Healthy(env)
    ensures MovedHandles(PassTrace(ws, apps, env)) ==
      StrayHandles(Select(ws, apps, true), MONITOR_1, env) + StrayHandles(Select(ws, apps, false), MONITOR_2, env)
  {
    MovedHandlesAppend(TraceOf(Select(ws, apps, true), MONITOR_1, env), TraceOf(Select(ws, apps, false), MONITOR_2, env));
    EachStrayWindowMovedOnce(Select(ws, apps, true), MONITOR_1, env);
    EachStrayWindowMovedOnce(Select(ws, apps, false), MONITOR_2, env);
  }

  /** The operating system as the engine sees it: fixed answers and the record of commands that took effect. */
  class WindowManager {
    const env: Env
    var trace: seq<Command>

    constructor (env: Env)
      ensures this.env == env && trace == []
    {
      this.env := env;
      trace := [];
    }

    /** Issues one command; a rejected command raises and takes no effect. */
    method Issue(c: Command) returns (ok: bool)
      modifies this
      ensures ok == (c !in env.rejects)
      ensures trace == if ok then old(trace) + [c] else old(trace)
    {
      ok := c !in env.rejects;
      if ok {
        trace := trace + [c];
      }
    }
  }

  /** The settings read once at construction and the OS the arranger drives. */
  class WindowArranger {
    const config: ConfigMap
    const monitorOneApps: seq<string>
    const monitorTwoApps: Json   // loaded but never consulted
    const hotkey: Json
    const os: WindowManager

    constructor (source: ConfigSource, os: WindowManager)
      requires AppPatterns(Get(LoadConfig(source), "monitor_1_apps", DEFAULT_MONITOR_1_APPS)).Some?
      ensures config == LoadConfig(source) && this.os == os
      ensures Some(monitorOneApps) == AppPatterns(Get(config, "monitor_1_apps", DEFAULT_MONITOR_1_APPS))
      ensures monitorTwoApps == Get(config, "monitor_2_apps", DEFAULT_MONITOR_2_APPS)
      ensures hotkey == Get(config, "hotkey", DEFAULT_HOTKEY)
    {
      config := LoadConfig(source);
      monitorOneApps := AppPatterns(Get(LoadConfig(source), "monitor_1_apps", DEFAULT_MONITOR_1_APPS)).value;
      monitorTwoApps := Get(LoadConfig(source), "monitor_2_apps", DEFAULT_MONITOR_2_APPS);
      hotkey := Get(LoadConfig(source), "hotkey", DEFAULT_HOTKEY);
      this.os := os;
    }

    /** `move_window_to_monitor`: the decision sequence, one OS call at a time. */
    method MoveWindowToMonitor(w: Window, target: int) returns (ok: bool)
      modifies os
      ensures os.trace == old(os.trace) + Place(w, target, os.env).commands
      ensures ok == Place(w, target, os.env).ok
    {
      var current := GetWindowMonitor(w.rect, os.env.locateMetrics);
      if current == Some(target) {
        return true;
      }

      var isMaximized := false;
      if w.hwnd in os.env.placement {
        isMaximized := os.env.placement[w.hwnd] == ShownMaximized;
        if isMaximized {
          var restored := os.Issue(Restore(w.hwnd));
          if !restored {
            isMaximized := false;
          }
        }
      }
      assert isMaximized == TreatedAsMaximized(w, os.env);

      if os.env.metrics.None? {
        return false;
      }
      var virtualLeft := os.env.metrics.value.virtualLeft;
      var newX, newY;
      if target == MONITOR_1 {
        newX, newY := virtualLeft + MARGIN, MARGIN;
      } else {
        newX, newY := MARGIN, MARGIN;
      }
      var width := w.rect.right - w.rect.left;
      var height := w.rect.bottom - w.rect.top;

      var moved := os.Issue(SetPos(w.hwnd, newX, newY, width, height));
      if !moved {
        return false;
      }
      if isMaximized {
        var maximized := os.Issue(Maximize(w.hwnd));
        if !maximized {
          return false;
        }
      }
      return true;
    }

    /** `arrange_windows`, given the snapshot of visible windows. */
    method ArrangeWindows(windows: seq<Window>)
      modifies os
      ensures os.trace == old(os.trace) + PassTrace(windows, monitorOneApps, os.env)
    {
      if windows == [] {
        return;
      }
      var monitorOne, monitorTwo := Classify(windows, monitorOneApps);
      ghost var env, before := os.env, os.trace;
      ghost var toOne, toTwo := TraceOf(monitorOne, MONITOR_1, env), TraceOf(monitorTwo, MONITOR_2, env);
      MoveAll(monitorOne, MONITOR_1);
      MoveAll(monitorTwo, MONITOR_2);
      ConcatAssociative(before, toOne, toTwo);
    }

    /** One of the two move loops of `arrange_windows`: each window in turn, all to `target`. */
    method MoveAll(ws: seq<Window>, target: int)
      modifies os
      ensures os.trace == old(os.trace) + TraceOf(ws, target, os.env)
    {
      var env := os.env;
      for i := 0 to |ws|
        invariant os.trace == old(os.trace) + TraceOf(ws[..i], target, env)
      {
        TraceOfSnoc(ws, i, target, env);
        ConcatAssociative(old(os.trace), TraceOf(ws[..i], target, env), Place(ws[i], target, env).commands);
        var _ := MoveWindowToMonitor(ws[i], target);
      }
      assert ws[..|ws|] == ws;
    }
  }
}
