/**
 * The partition loop of `WindowArranger.arrange_windows`: each window whose
 * lower-cased title or class name contains some lower-cased monitor-1
 * pattern goes to the monitor-1 list, every other window to the monitor-2
 * list. The monitor-2 patterns are not consulted, and "*" is an ordinary
 * substring like any other.
 */
module Classification {
  import opened Text
  import opened Placement

  /** Pattern `p` matches the window: `p.lower() in title or p.lower() in class_name`. */
  predicate Matches(p: string, w: Window): (b: bool)
    ensures p == "" ==> b
    ensures b ==> |p| <= |w.title| || |p| <= |w.className|
  {
    Contains(Lower(w.title), Lower(p)) || Contains(Lower(w.className), Lower(p))
  }

  /** Some monitor-1 pattern matches the window. */
  predicate IsMonitorOneApp(w: Window, apps: seq<string>): (b: bool)
    ensures apps == [] ==> !b
    ensures "" in apps ==> b
  {
    exists i :: 0 <= i < |apps| && Matches(apps[i], w)
  }

  /** "*" is no wildcard: it matches only a window whose lower-cased title or class name contains a literal '*'. */
  lemma StarIsLiteral(w: Window)
    requires '*' !in w.title && '*' !in w.className
    ensures !Matches("*", w)
  {
    StarAbsent(w.title);
    StarAbsent(w.className);
  }

  /** Lower-casing introduces no '*', so a string without one does not contain "*" after lower-casing. */
  lemma StarAbsent(s: string)
    requires '*' !in s
    ensures !Contains(Lower(s), Lower("*"))
  {
    assert Lower("*") == "*";
    ContainsIffOccurs(Lower(s), "*");
    forall i | OccursAt("*", Lower(s), i) ensures Lower(s)[i] == '*' {
      assert Lower(s)[i..i + 1][0] == Lower(s)[i];
    }
  }

  /** The classification depends only on which patterns there are, not on their order or repetition. */
  lemma PatternOrderIrrelevant(w: Window, apps: seq<string>, apps': seq<string>)
    requires forall p :: p in apps <==> p in apps'
    ensures IsMonitorOneApp(w, apps) == IsMonitorOneApp(w, apps')
  {
    if IsMonitorOneApp(w, apps) {
      var i :| 0 <= i < |apps| && Matches(apps[i], w);
      assert apps[i] in apps';
      var j :| 0 <= j < |apps'| && apps'[j] == apps[i];
    }
    if IsMonitorOneApp(w, apps') {
      var i :| 0 <= i < |apps'| && Matches(apps'[i], w);
      assert apps'[i] in apps;
      var j :| 0 <= j < |apps| && apps[j] == apps'[i];
    }
  }

  /** The windows of `ws` whose classification is `monitorOne`, in their original order. */
  function Select(ws: seq<Window>, apps: seq<string>, monitorOne: bool): (r: seq<Window>)
    ensures |r| <= |ws|
    ensures forall i :: 0 <= i < |r| ==> IsMonitorOneApp(r[i], apps) == monitorOne
    decreases |ws|
  {
    if ws == [] then []
    else
      var last := ws[|ws| - 1];
      Select(ws[..|ws| - 1], apps, monitorOne) + (if IsMonitorOneApp(last, apps) == monitorOne then [last] else [])
  }

  /** Selection distributes over concatenation, so relative order is kept. */
  lemma {:induction false} SelectAppend(a: seq<Window>, b: seq<Window>, apps: seq<string>, monitorOne: bool)
    ensures Select(a + b, apps, monitorOne) == Select(a, apps, monitorOne) + Select(b, apps, monitorOne)
    decreases |b|
  {
    if b == [] {
      assert a + b == a;
    } else {
      var b' := b[..|b| - 1];
      assert (a + b)[..|a + b| - 1] == a + b';
      SelectAppend(a, b', apps, monitorOne);
    }
  }

  /** A window is selected exactly when it is in the input and its classification is the one asked for. */
  lemma {:induction false} SelectMembers(ws: seq<Window>, apps: seq<string>, monitorOne: bool, w: Window)
    ensures w in Select(ws, apps, monitorOne) <==> w in ws && IsMonitorOneApp(w, apps) == monitorOne
    decreases |ws|
  {
    if ws != [] {
      var init := ws[..|ws| - 1];
      assert ws == init + [ws[|ws| - 1]];
      SelectMembers(init, apps, monitorOne, w);
    }
  }

  /**
   * The classification is a total partition: the two lists together hold
   * every window exactly as often as the input does, so their lengths add up.
   */
  lemma {:induction false} PartitionIsTotal(ws: seq<Window>, apps: seq<string>)
    ensures multiset(Select(ws, apps, true)) + multiset(Select(ws, apps, false)) == multiset(ws)
    ensures |Select(ws, apps, true)| + |Select(ws, apps, false)| == |ws|
    decreases |ws|
  {
    if ws != [] {
      var init := ws[..|ws| - 1];
      assert ws == init + [ws[|ws| - 1]];
      PartitionIsTotal(init, apps);
    }
  }

  /** Every window lands in exactly one of the two lists. */
  lemma ExactlyOneList(ws: seq<Window>, apps: seq<string>, w: Window)
    requires w in ws
    ensures w in Select(ws, apps, true) <==> IsMonitorOneApp(w, apps)
    ensures w in Select(ws, apps, false) <==> !IsMonitorOneApp(w, apps)
  {
    SelectMembers(ws, apps, true, w);
    SelectMembers(ws, apps, false, w);
  }

  /** The partition loop: both output lists are built by appending, window by window. */
  method Classify(windows: seq<Window>, apps: seq<string>) returns (monitorOne: seq<Window>, monitorTwo: seq<Window>)
    ensures monitorOne == Select(windows, apps, true)
    ensures monitorTwo == Select(windows, apps, false)
  {
    monitorOne, monitorTwo := [], [];
    for i := 0 to |windows|
      invariant monitorOne == Select(windows[..i], apps, true)
      invariant monitorTwo == Select(windows[..i], apps, false)
    {
      var w := windows[i];
      var title := Lower(w.title);
      var className := Lower(w.className);
      var isMonitorOne := false;
      var j := 0;
      while j < |apps|
        invariant 0 <= j <= |apps|
        invariant !isMonitorOne
        invariant forall k :: 0 <= k < j ==> !Matches(apps[k], w)
      {
        var app := Lower(apps[j]);
        if Contains(title, app) || Contains(className, app) {
          isMonitorOne := true;
          break;
        }
        j := j + 1;
      }
      assert windows[..i + 1][..i] == windows[..i];
      if isMonitorOne {
        monitorOne := monitorOne + [w];
      } else {
        monitorTwo := monitorTwo + [w];
      }
    }
    assert windows[..|windows|] == windows;
  }
}
