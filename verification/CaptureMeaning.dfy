/**
 What a captured session says (internal/capture/runner.go), in terms of the windows on the desktop
 and of the records of the history: which of them its directory and its place come from.
 */
module CaptureMeaning {
  import opened Wrappers
  import opened Texts
  import opened RecoveryCapture

  /** Record j of capture k knows the session's directory. */
  predicate KnowsCwd(history: seq<seq<Session>>, k: int, j: int, name: string) {
    && 0 <= k < |history| && 0 <= j < |history[k]|
    && history[k][j].name == name && history[k][j].cwd != ""
  }

  /** The newest record of a session that knows its directory. */
  ghost predicate NewestCwd(history: seq<seq<Session>>, k: int, j: int, name: string) {
    KnowsCwd(history, k, j, name) && forall l, i :: KnowsCwd(history, l, i, name) ==> l < k || (l == k && j <= i)
  }

  lemma {:induction false} FirstCwdIn(records: seq<Session>, name: string) returns (j: nat)
    ensures FirstCwd(records, name) == "" ==> forall i :: 0 <= i < |records| && records[i].name == name ==> records[i].cwd == ""
    ensures FirstCwd(records, name) != "" ==>
      && j < |records| && records[j].name == name && records[j].cwd == FirstCwd(records, name)
      && forall i :: 0 <= i < j && records[i].name == name ==> records[i].cwd == ""
  {
    j := 0;
    if records != [] && !(records[0].name == name && records[0].cwd != "") {
      var i := FirstCwdIn(records[1..], name);
      j := i + 1;
      assert forall l :: 0 < l < |records| ==> records[l] == records[1..][l - 1];
    }
  }

  lemma {:induction false} CwdOfHistory(history: seq<seq<Session>>, name: string) returns (k: int, j: int)
    ensures
      var cwd := FirstCwd(Newest(history), name);
      if cwd == "" then forall l, i :: !KnowsCwd(history, l, i, name)
      else NewestCwd(history, k, j, name) && cwd == history[k][j].cwd
    decreases |history|
  {
    k, j := 0, 0;
    if history != [] {
      var last := history[|history| - 1];
      var rest := history[..|history| - 1];
      FirstAppend(last, Newest(rest), name);
      var i := FirstCwdIn(last, name);
      if FirstCwd(last, name) != "" {
        k, j := |history| - 1, i;
      } else {
        k, j := CwdOfHistory(rest, name);
        forall l, i | KnowsCwd(history, l, i, name) ensures KnowsCwd(rest, l, i, name) {
        }
      }
    }
  }

  /** Window i certainly shows the session. */
  predicate ShowsAt(windows: seq<Window>, i: int, name: string) {
    && 0 <= i < |windows| && windows[i].terminal.Some?
    && windows[i].terminal.value.exact && windows[i].terminal.value.tag == name
  }

  /** Window i is the only one that does. */
  ghost predicate Alone(windows: seq<Window>, i: int, name: string) {
    ShowsAt(windows, i, name) && forall j :: ShowsAt(windows, j, name) ==> j == i
  }

  lemma {:induction false} ShowingNone(windows: seq<Window>, name: string)
    ensures |Showing(windows, name)| == 0 <==> forall i :: !ShowsAt(windows, i, name)
  {
    if windows != [] {
      ShowingNone(windows[1..], name);
      forall i | ShowsAt(windows, i, name) ensures i == 0 || ShowsAt(windows[1..], i - 1, name) {
      }
      forall i | ShowsAt(windows[1..], i, name) ensures ShowsAt(windows, i + 1, name) {
      }
      assert Shows(windows[0], name) <==> ShowsAt(windows, 0, name);
    }
  }

  lemma {:induction false} ShowingAlone(windows: seq<Window>, name: string)
    ensures |Showing(windows, name)| == 1 ==>
      exists i :: Alone(windows, i, name) && Showing(windows, name)[0] == windows[i]
    ensures (exists i :: Alone(windows, i, name)) ==> |Showing(windows, name)| == 1
  {
    if windows != [] {
      var rest := windows[1..];
      ShowingAlone(rest, name);
      ShowingNone(rest, name);
      assert Shows(windows[0], name) <==> ShowsAt(windows, 0, name);
      assert forall i :: ShowsAt(rest, i, name) ==> ShowsAt(windows, i + 1, name);
      assert forall i :: ShowsAt(windows, i, name) ==> i == 0 || ShowsAt(rest, i - 1, name);
      if ShowsAt(windows, 0, name) {
        if |Showing(windows, name)| == 1 {
          assert Alone(windows, 0, name);
        }
        if i :| Alone(windows, i, name) {
          assert i == 0;
          forall j ensures !ShowsAt(rest, j, name) {
            assert ShowsAt(rest, j, name) ==> ShowsAt(windows, j + 1, name);
          }
        }
      } else {
        if |Showing(windows, name)| == 1 {
          var i :| Alone(rest, i, name) && Showing(rest, name)[0] == rest[i];
          assert Alone(windows, i + 1, name) && windows[i + 1] == rest[i];
        }
        if i :| Alone(windows, i, name) {
          assert Alone(rest, i - 1, name) by {
            assert forall j :: ShowsAt(rest, j, name) ==> ShowsAt(windows, j + 1, name);
          }
        }
      }
    }
  }

  /** A directory known from the history: the newest record that knows one, or none. */
  ghost predicate PastCwd(history: seq<seq<Session>>, name: string, cwd: string) {
    if cwd == "" then forall k, j :: !KnowsCwd(history, k, j, name)
    else exists k, j :: NewestCwd(history, k, j, name) && history[k][j].cwd == cwd
  }

  /** A place known from the history: all of it from the newest record that knows one, or nothing. */
  ghost predicate PastPlace(history: seq<seq<Session>>, s: Session) {
    if s.observedAt.None? then PlaceOf(s) == NOWHERE && forall k, j :: !PlacedRecord(history, k, j, s.name)
    else exists k, j :: NewestPlaced(history, k, j, s.name) && PlaceOf(s) == PlaceOf(history[k][j])
  }

  /** All of the session's place is what this window shows now. */
  ghost predicate FromWindow(d: Desktop, s: Session, w: Window, now: Time) {
    PlaceOf(s) == Place(w.workspaceRef, w.placement, Some(now), Occupied(d, w))
  }

  lemma RememberedTells(history: seq<seq<Session>>, name: string)
    ensures
      var s := Remembered(Newest(history), name);
      s.name == name && PastCwd(history, name, s.cwd) && PastPlace(history, s)
  {
    var k, j := CwdOfHistory(history, name);
    var l, i := NewestIsFirst(history, name);
    hide Newest;
    hide KnowsCwd;
    hide PlacedRecord;
    hide FirstCwd;
    hide FirstPlaced;
  }

  /** A directory that is blank says nothing. */
  function Preferred(cwd: string, otherwise: string): string {
    if Trim(cwd) != "" then Trim(cwd) else otherwise
  }

  /**
   A captured session is visible exactly when some window certainly shows it.  A window that is the
   only one to show it gives the directory, unless blank, and, if it shows a workspace and floats or
   stands in a column and a row, the whole place; otherwise the directory is looked up.  What neither gives comes from the newest record
   of the history that knows it.
   */
  lemma CaptureTells(d: Desktop, history: seq<seq<Session>>, name: string, now: Time, located: map<string, string>)
    ensures
      var s := Captured(d, Newest(history), name, now, located);
      && s.name == name && (s.visible <==> exists i :: ShowsAt(d.windows, i, name))
      && (forall i :: Alone(d.windows, i, name) ==>
            var w := d.windows[i];
            && (exists past :: PastCwd(history, name, past) && s.cwd == Preferred(w.terminal.value.cwd, past))
            && (if w.workspaceRef.Some? && w.placement.Some?
                   && (w.placement.value.floating == Some(true)
                       || (w.placement.value.column.Some? && w.placement.value.row.Some?))
                then FromWindow(d, s, w, now) else PastPlace(history, s)))
      && ((forall i :: !Alone(d.windows, i, name)) ==>
            && (exists past :: PastCwd(history, name, past)
                  && s.cwd == (if name in located then Preferred(located[name], past) else past))
            && PastPlace(history, s))
  {
    RememberedTells(history, name);
    ShowingNone(d.windows, name);
    ShowingAlone(d.windows, name);
    hide Remembered;
    hide Newest;
    hide Occupied;
    hide PastCwd;
    hide Trim;
    hide ShowsAt;
    hide Showing;
    assert PastCwd(history, name, Remembered(Newest(history), name).cwd);
  }
}
