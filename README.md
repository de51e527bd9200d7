# Window arranger placement engine, in Dafny

This project models the window-placement engine of `window_arranger.py`. A
hotkey triggers an arrangement pass. The pass takes a snapshot of the visible
windows and splits it into two lists. Windows whose title or class name
contains a configured "monitor 1" pattern go to the first list. All other
windows go to the second. The pass then moves every window of the first list
to logical monitor 1 and every window of the second to logical monitor 2 (the
primary monitor). A window that is already on its target is left alone. A
maximized window is restored, moved with its size unchanged, and maximized
again.

No OS call is made. The OS answers are a fixed input, `Placement.Env`. The
screen metrics (primary width and virtual-screen left edge) are read twice
per move. The first read is the location check, and the second comes just
before positioning. Each read is either a value or `None` when reading fails.
`Env` also holds the show state `GetWindowPlacement` reports for each handle,
and the set of commands that raise. The effect on the OS is a recorded trace of
commands: `Restore`, `SetPos(hwnd, x, y, width, height)` and `Maximize`.
`Arranger.WindowManager` records that trace, and the `Arranger.WindowArranger`
methods add to it one call at a time. Each method is proved equal to a pure
specification: `Placement.Place` for one window and `Arranger.PassTrace` for
a whole pass. The properties are proved about those functions.

Modules: `Common` (Option), `Text` (ASCII lower-casing and Python's
substring test `p in s`), `Config` (the configuration merge), `Monitors` (the
location rule), `Placement` (one window's decision sequence),
`Classification` (the partition loop), `Arranger` (the two classes and the
pass-level lemmas).

Notes on the code as written:
- `monitor_2_apps` is loaded but never read. Every window that matches no monitor-1 pattern goes to monitor 2. The pattern `"*"` is not a wildcard. It is an ordinary substring (`Classification.StarIsLiteral`).
- The rectangle used by `move_window_to_monitor` comes from the snapshot. So calling it twice with the same snapshot issues the same commands twice. It skips a window only when the snapshot it is given already places the window on the target (`Placement.SkipWhenOnTarget`).
- A failed location check gives `None`, which never equals the target, so the move goes ahead (`Placement.UnlocatedWindowStillMoves`).

One consequence of the code as written is proved. "Monitor 1" is placed at the virtual screen's left edge plus 100. When the second monitor lies to the right of the primary, that edge is 0. A window narrower than the primary is then placed on the primary monitor (`Placement.RightExtensionLandsOnPrimary`). The location rule, by contrast, treats the right-hand side as monitor 1.

## Model

| member | source | states |
|---|---|---|
| `Monitors.CenterX` | window_arranger.py:102 | the centre is the floor of (left + right) / 2: twice it is at most the sum and more than the sum minus 2, also for negative sums |
| `Monitors.MonitorAt` | window_arranger.py:116-121 | the result is 1 or 2, and it is 2 exactly when 0 <= centreX < primary width |
| `Monitors.GetWindowMonitor` | window_arranger.py:94-125 | None exactly when the metrics query fails; otherwise 1 or 2, with 2 exactly when 0 <= left + right < 2 * primary width |
| `Monitors.ThresholdLaw` | window_arranger.py:102-121 | centreX < 0 gives monitor 1, 0 <= centreX < width gives monitor 2, centreX >= width gives monitor 1 |
| `Text.LowerChar` | window_arranger.py:207-208 | the result is never an upper-case ASCII letter; A-Z map to a-z and every other character is unchanged |
| `Text.Lower` | window_arranger.py:207-208 | same length, each character lower-cased in place, no upper-case letter left |
| `Text.ContainsIffOccurs` | window_arranger.py:213 | the scan for `p in s` succeeds exactly when p occurs at some index of s (both directions) |
| `Text.Contains` | window_arranger.py:213 | Python's `p in s`: an empty pattern is always found, and a pattern is found only if it is no longer than the string |
| `Text.EmptyPatternMatches` | window_arranger.py:213 | an empty pattern is contained in every string |
| `Config.LoadConfig` | window_arranger.py:25-45 | the default keys are always present; with a JSON-object file every user key keeps the user's value and every other default key keeps its default; a missing file, a load error or a non-object document gives exactly the defaults |
| `Config.Get` | window_arranger.py:21-23 | `dict.get`: the stored value when the key is present, the fallback otherwise |
| `Config.SettingLookup` | window_arranger.py:21-45 | reading a default key from the merged configuration gives the user's value if the file has one and the default otherwise, whatever fallback is passed |
| `Config.AppPatterns` | window_arranger.py:21 | an array of strings gives those strings in order; a single string gives its characters one by one; an object gives each of its keys once, as Python loops over a `str` and a `dict` do |
| `Config.DefaultMonitorOnePatterns` | window_arranger.py:21-32 | without a user value the monitor-1 patterns are "opera" and "RD Tabs" |
| `Classification.Matches` | window_arranger.py:212-215 | `p.lower() in title or p.lower() in class_name`: the empty pattern matches every window, and a match needs a title or class name at least as long as the pattern |
| `Classification.IsMonitorOneApp` | window_arranger.py:211-215 | the `is_monitor_1` flag: false for an empty pattern list, true whenever the list holds an empty pattern |
| `Classification.PatternOrderIrrelevant` | window_arranger.py:212-215 | two pattern lists with the same members classify every window the same way, whatever their order or repetitions |
| `Classification.Select` | window_arranger.py:206-220 | a list is no longer than the snapshot, and every window in it has that list's classification |
| `Classification.StarAbsent` | window_arranger.py:213 | a string without '*' does not contain "*" after lower-casing |
| `Classification.StarIsLiteral` | window_arranger.py:212-213 | "*" does not match a window whose title and class name hold no '*' |
| `Classification.SelectAppend` | window_arranger.py:206-220 | selecting from a concatenation is the concatenation of the selections, so relative order is preserved |
| `Classification.SelectMembers` | window_arranger.py:206-220 | a window is in a list exactly when it is in the snapshot and its classification is that list's |
| `Classification.PartitionIsTotal` | window_arranger.py:203-220 | the two lists together are a permutation of the snapshot, and their lengths add up to its length |
| `Classification.ExactlyOneList` | window_arranger.py:206-220 | a snapshot window is in the monitor-1 list iff some pattern matches it, and in the monitor-2 list iff none does |
| `Classification.Classify` | window_arranger.py:203-220 | the nested loops with early `break` build exactly the monitor-1 and monitor-2 selections |
| `Placement.Place` | window_arranger.py:127-190 | one call issues at most three commands, all for the given window, and none for a window already on the target |
| `Placement.UnlocatedWindowStillMoves` | window_arranger.py:123-125 | when the location check fails, the move still goes ahead: a non-maximized window gets its one SetPos when the second metrics read succeeds |
| `Placement.SkipWhenOnTarget` | window_arranger.py:136-140 | a window already on the target gets no command, and the call reports success |
| `Placement.MovePreservesSize` | window_arranger.py:160-177 | every positioning command goes to (virtual left + 100, 100) for target 1 and to (100, 100) for any other target, with width right - left and height bottom - top of the snapshot |
| `Placement.MaximizedRoundTrip` | window_arranger.py:143-183 | without faults, a maximized window off its target gets exactly Restore, SetPos, Maximize, and the call succeeds |
| `Placement.PlainMove` | window_arranger.py:143-177 | a window that is not maximized, or whose placement query fails, gets exactly one SetPos when that command does not raise |
| `Placement.SuccessIff` | window_arranger.py:127-190 | success exactly when the window was on target, or the second metrics read succeeded, the move did not raise and, for a window still treated as maximized, the re-maximize did not raise |
| `Placement.FailureLeavesPrefix` | window_arranger.py:143-190 | a failed call rolls nothing back: what it issued is a prefix of Restore, SetPos, Maximize, and only a Restore at most when the second metrics read failed |
| `Placement.PrimaryPlacementLocated` | window_arranger.py:164-177 | after a move to monitor 2 the location rule reports monitor 2 exactly when 200 + width < 2 * primary width |
| `Placement.RightExtensionLandsOnPrimary` | window_arranger.py:160-163 | with the virtual left edge at 0, a move to monitor 1 puts a narrow window where the location rule reports monitor 2 |
| `Placement.LeftExtensionLocated` | window_arranger.py:160-163 | a move to a left monitor far enough left ends where the location rule reports monitor 1 |
| `Arranger.TraceOf` | window_arranger.py:231-238 | one move loop issues at most three commands per window |
| `Arranger.PassTrace` | window_arranger.py:198-200 | an arrangement pass over no windows issues no command |
| `Arranger.TraceOfSnoc` | window_arranger.py:231-238 | one more window in a move loop adds that window's placement commands at the end of the trace |
| `Arranger.MovedByOnePlacement` | window_arranger.py:136-183 | without faults, one placement positions the window once if it is off target and not at all otherwise |
| `Arranger.EachStrayWindowMovedOnce` | window_arranger.py:231-238 | without faults, a move loop positions exactly the windows not yet on the target, each once, in list order |
| `Arranger.PassOrder` | window_arranger.py:203-238 | without faults, the pass positions the stray monitor-1 windows in snapshot order, then the stray monitor-2 windows in snapshot order |
| `Arranger.WindowManager.Issue` | window_arranger.py:175-177 | a command that does not raise is appended to the trace; a raising one leaves the trace unchanged and reports failure |
| `Arranger.WindowArranger.constructor` | window_arranger.py:18-23 | the settings are the merged configuration's hotkey, monitor-1 patterns and monitor-2 value |
| `Arranger.WindowArranger.MoveWindowToMonitor` | window_arranger.py:127-190 | the calls issued, one at a time, are exactly `Place`'s commands, and the returned flag is `Place`'s success flag |
| `Arranger.WindowArranger.MoveAll` | window_arranger.py:230-238 | one move loop appends the placement commands of each window in turn |
| `Arranger.WindowArranger.ArrangeWindows` | window_arranger.py:192-240 | an empty snapshot changes nothing; otherwise the trace grows by the monitor-1 windows' placements toward 1, then the monitor-2 windows' placements toward 2 |

## Left out

- `get_monitor_info` and `get_window_list` wrap `win32api` and the pywinauto desktop enumeration. The window snapshot is an input to `ArrangeWindows`.
- `main` is left out: hotkey registration, the exit callback, the exit-flag polling loop and the virtual-environment messages. These are OS hooks and cross-thread state.
- `monitor_detector.py` only queries and prints system metrics.
- The settle delays (`time.sleep`) and all logging are left out. Only the order of the commands they separate is kept. The loop at window_arranger.py:226-228 only logs, so it is left out too.
- Opening `config.json` and parsing JSON are left out. The parsed result is the input `Config.ConfigSource`. JSON numbers are integers only.
- A failed `import` of pywin32 is left out. In the source, `move_window_to_monitor` would then return False without issuing anything.
- The trace records commands only. Window positions and show states after the commands are not modelled.
- Text.LowerChar and Text.Lower: lower-case ASCII A-Z only. Python's `str.lower()` also changes other Unicode letters.
- Config.AppPatterns: gives an object's keys in ascending order, not in file order. This changes only which pattern matches first, never the classification (`Classification.PatternOrderIrrelevant`).
- Arranger.WindowArranger.constructor: requires `monitor_1_apps` to be a JSON array of strings, a single string or an object. The source accepts any value at construction and fails only at the loop at window_arranger.py:212, and only when the snapshot is not empty. A number, a boolean or null raises TypeError for the first window. An array with a non-string element raises AttributeError at line 213 for the first window that reaches that element without matching an earlier pattern. Those failing passes are not modelled.
