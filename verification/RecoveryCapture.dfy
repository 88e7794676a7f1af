/**
 What a capture records about the active sessions (internal/capture/runner.go): which are
 active, and for each where it was last seen, as one indivisible observation.
 */
module RecoveryCapture {
  import opened Wrappers
  import opened Texts

  type Time = int

  const ZERO_TIME: Time := 0

  // ---------------------------------------------------------------- the active sessions

  datatype Status = Active | DeadResurrectable | Duplicate | SocketInvalid | Missing | PrefixOnly | Unknown

  datatype Record = Record(name: string, status: Status)

  datatype Catalog = Catalog(names: seq<string>, sessions: map<string, Record>)

  ghost predicate Distinct(names: seq<string>) {
    forall i, j :: 0 <= i < j < |names| ==> names[i] != names[j]
  }

  /** A record under its own name, whose status is one the catalog is sure about. */
  predicate Authoritative(name: string, r: Record) {
    r.name == name && (r.status == Active || r.status == DeadResurrectable)
  }

  ghost predicate AuthoritativeCatalog(c: Catalog) {
    && Distinct(c.names) && (forall n <- c.names :: Named(n))
    && (forall n :: n in c.names <==> n in c.sessions)
    && (forall n <- c.sessions :: Authoritative(n, c.sessions[n]))
  }

  /** The active sessions in order, or an error for any catalog that leaves doubt. */
  method AuthoritativeActiveSessions(c: Catalog) returns (r: Result<seq<string>, string>)
    ensures r.Ok? <==> AuthoritativeCatalog(c)
    ensures r.Ok? ==>
      Ascending(r.value) && forall n :: n in r.value <==> n in c.sessions && c.sessions[n].status == Active
  {
    var seen: set<string> := {};
    for i := 0 to |c.names|
      invariant forall n :: n in seen <==> n in c.names[..i]
      invariant Distinct(c.names[..i])
      invariant forall n <- c.names[..i] :: Named(n) && n in c.sessions
    {
      var name := c.names[i];
      assert c.names[..i + 1] == c.names[..i] + [name];
      if !Named(name) || name in seen {
        return Err("ambiguous catalog name");
      }
      seen := seen + {name};
      if name !in c.sessions {
        return Err("catalog name has no session record");
      }
    }
    assert c.names[..|c.names|] == c.names;
    var active: seq<string> := [];
    var rest := c.sessions.Keys;
    while rest != {}
      invariant rest <= c.sessions.Keys && Ascending(active)
      invariant forall n <- c.sessions.Keys - rest :: n in seen && Authoritative(n, c.sessions[n])
      invariant forall n :: n in active <==> n in c.sessions && n !in rest && c.sessions[n].status == Active
    {
      var name :| name in rest;
      rest := rest - {name};
      var session := c.sessions[name];
      if name !in seen || session.name != name {
        return Err("ambiguous catalog record");
      }
      if session.status == Active {
        active := Insert(active, name);
      } else if session.status != DeadResurrectable {
        return Err("session has no authoritative status");
      }
    }
    return Ok(active);
  }

  // ---------------------------------------------------------------- windows and their places

  datatype WorkspaceRef = WorkspaceRef(name: string, output: string, index: int)

  /** The sizes are carried along untouched. */
  datatype Placement = Placement(column: Option<int>, row: Option<int>, floating: Option<bool>, sizes: seq<int>)

  datatype Terminal = Terminal(cwd: string, tag: string, exact: bool)

  datatype Window = Window(
    key: string, workspaceID: string, workspaceRef: Option<WorkspaceRef>,
    placement: Option<Placement>, terminal: Option<Terminal>)

  datatype Workspace = Workspace(id: string, name: string, output: string, index: int)

  datatype Desktop = Desktop(workspaces: seq<Workspace>, windows: seq<Window>)

  datatype Session = Session(
    name: string, cwd: string, workspaceRef: Option<WorkspaceRef>, placement: Option<Placement>,
    observedAt: Option<Time>, occupied: bool, visible: bool)

  datatype Inventory = Inventory(active: seq<string>, sessions: seq<Session>)

  function Names(sessions: seq<Session>): (r: seq<string>)
    ensures |r| == |sessions| && forall i :: 0 <= i < |r| ==> r[i] == sessions[i].name
  {
    seq(|sessions|, i requires 0 <= i < |sessions| => sessions[i].name)
  }

  predicate Complete(w: Window) {
    && w.workspaceRef.Some? && w.placement.Some?
    && (w.placement.value.floating == Some(true) || (w.placement.value.column.Some? && w.placement.value.row.Some?))
  }

  function Lookup(workspaces: seq<Workspace>, id: string): Option<WorkspaceRef> {
    if workspaces == [] then None
    else if id != "" && workspaces[0].id == id
    then Some(WorkspaceRef(workspaces[0].name, workspaces[0].output, workspaces[0].index))
    else Lookup(workspaces[1..], id)
  }

  function RefOf(w: Window, workspaces: seq<Workspace>): Option<WorkspaceRef> {
    if w.workspaceRef.Some?
       && (w.workspaceRef.value.name != "" || w.workspaceRef.value.output != "" || w.workspaceRef.value.index > 0)
    then w.workspaceRef
    else Lookup(workspaces, w.workspaceID)
  }

  predicate SameWorkspace(workspaces: seq<Workspace>, left: Window, right: Window) {
    if left.workspaceID != "" && right.workspaceID != "" then left.workspaceID == right.workspaceID
    else
      var l, r := RefOf(left, workspaces), RefOf(right, workspaces);
      if l.None? || r.None? then false
      else if l.value.name != "" && r.value.name != "" then l.value.name == r.value.name
      else if l.value.output != "" && r.value.output != "" && l.value.index > 0 && r.value.index > 0
      then l.value.output == r.value.output && l.value.index == r.value.index
      else l.value.index > 0 && l.value.index == r.value.index
  }

  predicate InColumn(w: Window, column: int) {
    w.placement.None? || w.placement.value.column.None? || w.placement.value.column.value == column
  }

  predicate RowOne(p: Option<Placement>) {
    p.Some? && p.value.column.Some? && p.value.row == Some(1)
  }

  /** Another window of the workspace shares, or may share, the target's column. */
  predicate Occupied(d: Desktop, target: Window) {
    && RowOne(target.placement)
    && exists w <- d.windows ::
         w.key != target.key && SameWorkspace(d.workspaces, target, w) && InColumn(w, target.placement.value.column.value)
  }

  method ColumnOccupied(d: Desktop, target: Window) returns (occupied: bool)
    ensures occupied == Occupied(d, target)
  {
    hide SameWorkspace;
    hide InColumn;
    if !RowOne(target.placement) {
      return false;
    }
    var column := target.placement.value.column.value;
    for i := 0 to |d.windows|
      invariant forall w <- d.windows[..i] ::
        !(w.key != target.key && SameWorkspace(d.workspaces, target, w) && InColumn(w, column))
    {
      var other := d.windows[i];
      assert d.windows[..i + 1] == d.windows[..i] + [other];
      if other.key != target.key && SameWorkspace(d.workspaces, target, other) && InColumn(other, column) {
        return true;
      }
    }
    assert d.windows[..|d.windows|] == d.windows;
    return false;
  }

  /** The windows that certainly show a session. */
  predicate Shows(w: Window, name: string) {
    w.terminal.Some? && w.terminal.value.exact && w.terminal.value.tag == name
  }

  function Showing(windows: seq<Window>, name: string): (r: seq<Window>)
    ensures forall w :: w in r <==> w in windows && Shows(w, name)
  {
    if windows == [] then []
    else (if Shows(windows[0], name) then [windows[0]] else []) + Showing(windows[1..], name)
  }

  // ---------------------------------------------------------------- what history says

  /** The records of a history, newest checkpoint first. */
  function Newest(history: seq<seq<Session>>): seq<Session> {
    if history == [] then [] else history[|history| - 1] + Newest(history[..|history| - 1])
  }

  function FirstPlaced(records: seq<Session>, name: string): (r: Option<Session>)
    ensures r.Some? ==> r.value in records && r.value.name == name && r.value.observedAt.Some?
    ensures r.None? ==> forall s <- records :: s.name == name ==> s.observedAt.None?
  {
    if records == [] then None
    else if records[0].name == name && records[0].observedAt.Some? then Some(records[0])
    else FirstPlaced(records[1..], name)
  }

  function FirstCwd(records: seq<Session>, name: string): string {
    if records == [] then ""
    else if records[0].name == name && records[0].cwd != "" then records[0].cwd
    else FirstCwd(records[1..], name)
  }

  /** A session as history knows it; directory and place may come from different captures. */
  function Remembered(records: seq<Session>, name: string): Session {
    var placed := FirstPlaced(records, name);
    var cwd := FirstCwd(records, name);
    if placed.None? then Session(name, cwd, None, None, None, false, false)
    else
      var p := placed.value;
      Session(name, cwd, p.workspaceRef, p.placement, p.observedAt, p.occupied, false)
  }

  function Seen(d: Desktop, s: Session, w: Window, now: Time): Session
    requires w.terminal.Some?
  {
    var cwd := Trim(w.terminal.value.cwd);
    var t := if cwd != "" then s.(cwd := cwd) else s;
    if !Complete(w) then t
    else t.(workspaceRef := w.workspaceRef, placement := w.placement, occupied := Occupied(d, w), observedAt := Some(now))
  }

  /** The recorded session; `located` holds what a directory lookup finds, when one is configured. */
  function Captured(d: Desktop, records: seq<Session>, name: string, now: Time, located: map<string, string>): Session {
    var matches := Showing(d.windows, name);
    var s := Remembered(records, name).(visible := |matches| > 0);
    assert |matches| == 1 ==> matches[0] in matches;
    if |matches| == 1 then Seen(d, s, matches[0], now)
    else if name in located && Trim(located[name]) != "" then s.(cwd := Trim(located[name]))
    else s
  }

  // ---------------------------------------------------------------- building the inventory

  /** A record adds what is still unknown. */
  function Learn(s: Session, prior: Session): Session {
    var t := if s.cwd == "" && prior.cwd != "" then s.(cwd := prior.cwd) else s;
    if t.observedAt.None? && prior.observedAt.Some?
    then t.(workspaceRef := prior.workspaceRef, placement := prior.placement,
            observedAt := prior.observedAt, occupied := prior.occupied)
    else t
  }

  lemma {:induction false} FirstAppend(a: seq<Session>, b: seq<Session>, name: string)
    ensures FirstPlaced(a + b, name) == if FirstPlaced(a, name).Some? then FirstPlaced(a, name) else FirstPlaced(b, name)
    ensures FirstCwd(a + b, name) == if FirstCwd(a, name) != "" then FirstCwd(a, name) else FirstCwd(b, name)
  {
    if a == [] {
      assert a + b == b;
    } else {
      assert (a + b)[1..] == a[1..] + b;
      FirstAppend(a[1..], b, name);
    }
  }

  lemma RememberOneMore(records: seq<Session>, prior: Session, name: string)
    ensures
      Remembered(records + [prior], name) ==
        if prior.name == name then Learn(Remembered(records, name), prior) else Remembered(records, name)
  {
    FirstAppend(records, [prior], name);
    assert [prior][1..] == [];
  }

  lemma {:induction false} ShowingOneMore(windows: seq<Window>, w: Window, name: string)
    ensures Showing(windows + [w], name) == Showing(windows, name) + (if Shows(w, name) then [w] else [])
  {
    if windows == [] {
      assert [w][1..] == [];
      assert [] + [w] == [w];
    } else {
      assert (windows + [w])[1..] == windows[1..] + [w];
      ShowingOneMore(windows[1..], w, name);
    }
  }

  /** What has been read of the history so far. */
  ghost predicate Recalled(byName: map<string, Session>, active: seq<string>, records: seq<Session>) {
    && (forall n :: n in byName <==> n in active)
    && (forall n <- byName :: byName[n] == Remembered(records, n))
  }

  lemma RecalledOneMore(byName: map<string, Session>, active: seq<string>, records: seq<Session>, prior: Session)
    requires Recalled(byName, active, records)
    ensures
      Recalled(
        if prior.name in byName then byName[prior.name := Learn(byName[prior.name], prior)] else byName,
        active, records + [prior])
  {
    hide Learn;
    forall n <- byName ensures
      Remembered(records + [prior], n) == if prior.name == n then Learn(byName[n], prior) else byName[n]
    {
      RememberOneMore(records, prior, n);
    }
    hide Remembered;
  }

  method Recall(active: seq<string>, history: seq<seq<Session>>) returns (byName: map<string, Session>)
    ensures Recalled(byName, active, Newest(history))
  {
    byName := map[];
    for k := 0 to |active|
      invariant Recalled(byName, active[..k], [])
    {
      assert active[..k + 1] == active[..k] + [active[k]];
      byName := byName[active[k] := Session(active[k], "", None, None, None, false, false)];
    }
    assert active[..|active|] == active;
    hide *;
    ghost var records: seq<Session> := [];
    var i := |history|;
    NothingLeft(history);
    while i > 0
      invariant 0 <= i <= |history| && Recalled(byName, active, records)
      invariant records + Newest(history[..i]) == Newest(history)
    {
      i := i - 1;
      var sessions := history[i];
      NewestStep(history, i);
      ghost var start := records;
      for j := 0 to |sessions|
        invariant Recalled(byName, active, records) && records == start + sessions[..j]
      {
        var prior := sessions[j];
        RecalledOneMore(byName, active, records, prior);
        if prior.name in byName {
          byName := byName[prior.name := Learn(byName[prior.name], prior)];
        }
        records := records + [prior];
        assert start + sessions[..j] + [prior] == start + sessions[..j + 1] by {
          assert sessions[..j + 1] == sessions[..j] + [prior];
        }
      }
      assert records + Newest(history[..i]) == start + (sessions + Newest(history[..i])) by {
        assert sessions[..|sessions|] == sessions;
      }
    }
    NewestOfNone(history, records);
  }

  lemma NothingLeft(history: seq<seq<Session>>)
    ensures [] + Newest(history[..|history|]) == Newest(history)
  {
    assert history[..|history|] == history;
  }

  lemma NewestStep(history: seq<seq<Session>>, i: nat)
    requires i < |history|
    ensures Newest(history[..i + 1]) == history[i] + Newest(history[..i])
  {
    assert history[..i + 1][..i] == history[..i];
  }

  lemma NewestOfNone(history: seq<seq<Session>>, records: seq<Session>)
    ensures records + Newest(history[..0]) == records
  {
  }

  method Visible(active: seq<string>, windows: seq<Window>) returns (visible: map<string, seq<Window>>)
    ensures forall n <- active :: (if n in visible then visible[n] else []) == Showing(windows, n)
  {
    visible := map[];
    NoneShow();
    hide Showing;
    hide Shows;
    for i := 0 to |windows|
      invariant forall n <- active :: (if n in visible then visible[n] else []) == Showing(windows[..i], n)
    {
      var w := windows[i];
      assert windows[..i + 1] == windows[..i] + [w];
      forall n <- active ensures
        Showing(windows[..i + 1], n) == Showing(windows[..i], n) + (if Shows(w, n) then [w] else [])
      {
        ShowingOneMore(windows[..i], w, n);
      }
      ShowsIs(w);
      if w.terminal.Some? && w.terminal.value.exact && w.terminal.value.tag in active {
        var name := w.terminal.value.tag;
        visible := visible[name := (if name in visible then visible[name] else []) + [w]];
      }
    }
    assert windows[..|windows|] == windows;
  }

  lemma NoneShow()
    ensures forall n :: Showing([], n) == []
  {
  }

  lemma ShowsIs(w: Window)
    ensures forall n :: Shows(w, n) <==> w.terminal.Some? && w.terminal.value.exact && w.terminal.value.tag == n
  {
  }

  method CaptureSession(d: Desktop, remembered: Session, matches: seq<Window>, now: Time, located: map<string, string>)
    returns (s: Session)
    requires forall w <- matches :: w.terminal.Some?
    ensures s ==
      var t := remembered.(visible := |matches| > 0);
      if |matches| == 1 then Seen(d, t, matches[0], now)
      else if remembered.name in located && Trim(located[remembered.name]) != ""
      then t.(cwd := Trim(located[remembered.name])) else t
  {
    s := remembered.(visible := |matches| > 0);
    if |matches| == 1 {
      var window := matches[0];
      var cwd := Trim(window.terminal.value.cwd);
      if cwd != "" {
        s := s.(cwd := cwd);
      }
      if Complete(window) {
        s := s.(workspaceRef := window.workspaceRef);
        s := s.(placement := window.placement);
        var occupied := ColumnOccupied(d, window);
        s := s.(occupied := occupied);
        s := s.(observedAt := Some(now));
      }
    }
    if |matches| != 1 && s.name in located && Trim(located[s.name]) != "" {
      s := s.(cwd := Trim(located[s.name]));
    }
  }

  /** Every session of a list, captured from the desktop and the history. */
  ghost predicate AllCaptured(
    sessions: seq<Session>, names: seq<string>, d: Desktop, records: seq<Session>, now: Time, located: map<string, string>)
  {
    |sessions| == |names| && forall i :: 0 <= i < |names| ==> sessions[i] == Captured(d, records, names[i], now, located)
  }

  method CaptureAll(
    d: Desktop, active: seq<string>, history: seq<seq<Session>>, now: Time, located: map<string, string>)
    returns (sessions: seq<Session>)
    ensures AllCaptured(sessions, active, d, Newest(history), now, located)
  {
    var byName := Recall(active, history);
    var visible := Visible(active, d.windows);
    sessions := [];
    hide *;
    NoneCaptured(d, Newest(history), now, located);
    for i := 0 to |active|
      invariant AllCaptured(sessions, active[..i], d, Newest(history), now, located)
    {
      var name := active[i];
      assert name in active;
      RecalledIs(byName, active, Newest(history), name);
      CapturedIs(d, Newest(history), name, now, located);
      ShowingIs(d.windows, name);
      var matches := if name in visible then visible[name] else [];
      var s := CaptureSession(d, byName[name], matches, now, located);
      OneMoreCaptured(sessions, active, i, s, d, Newest(history), now, located);
      sessions := sessions + [s];
    }
    assert active[..|active|] == active;
  }

  lemma NoneCaptured(d: Desktop, records: seq<Session>, now: Time, located: map<string, string>)
    ensures forall names: seq<string> :: AllCaptured([], names[..0], d, records, now, located)
  {
  }

  lemma RecalledIs(byName: map<string, Session>, active: seq<string>, records: seq<Session>, name: string)
    requires Recalled(byName, active, records) && name in active
    ensures name in byName && byName[name] == Remembered(records, name)
  {
    hide Remembered;
  }

  lemma ShowingIs(windows: seq<Window>, name: string)
    ensures forall w <- Showing(windows, name) :: w.terminal.Some?
  {
  }

  lemma OneMoreCaptured(
    sessions: seq<Session>, names: seq<string>, i: nat, s: Session,
    d: Desktop, records: seq<Session>, now: Time, located: map<string, string>)
    requires i < |names| && AllCaptured(sessions, names[..i], d, records, now, located)
    requires s == Captured(d, records, names[i], now, located)
    ensures AllCaptured(sessions + [s], names[..i + 1], d, records, now, located)
  {
    hide Captured;
    assert names[..i + 1] == names[..i] + [names[i]];
  }

  /** Puts session records in the order of their names. */
  method SortSessions(sessions: seq<Session>) returns (r: seq<Session>)
    ensures Ordered(Names(r)) && multiset(r) == multiset(sessions)
    ensures multiset(Names(r)) == multiset(Names(sessions))
  {
    r := [];
    for i := 0 to |sessions|
      invariant Ordered(Names(r)) && multiset(r) == multiset(sessions[..i])
      invariant multiset(Names(r)) == multiset(Names(sessions[..i]))
    {
      r := InsertSession(r, sessions[i]);
      assert sessions[..i + 1] == sessions[..i] + [sessions[i]];
      NamesJoin(sessions[..i], [sessions[i]]);
      assert Names([sessions[i]]) == [sessions[i].name];
    }
    assert sessions[..|sessions|] == sessions;
  }

  method InsertSession(sessions: seq<Session>, s: Session) returns (r: seq<Session>)
    requires Ordered(Names(sessions))
    ensures Ordered(Names(r)) && multiset(r) == multiset(sessions) + multiset{s}
    ensures multiset(Names(r)) == multiset(Names(sessions)) + multiset{s.name}
  {
    hide Less;
    var i := |sessions|;
    while i > 0 && Less(s.name, sessions[i - 1].name)
      invariant 0 <= i <= |sessions| && forall j :: i <= j < |sessions| ==> Less(s.name, sessions[j].name)
    {
      i := i - 1;
    }
    r := sessions[..i] + [s] + sessions[i..];
    Placed(Names(sessions), s.name, i);
    hide Ordered;
    assert sessions == sessions[..i] + sessions[i..];
    NamesPlaced(sessions, s, i);
  }

  lemma NamesPlaced(sessions: seq<Session>, s: Session, i: nat)
    requires i <= |sessions|
    ensures
      var names := Names(sessions[..i] + [s] + sessions[i..]);
      && names == Names(sessions)[..i] + [s.name] + Names(sessions)[i..]
      && multiset(names) == multiset(Names(sessions)) + multiset{s.name}
  {
    assert Names(sessions) == Names(sessions)[..i] + Names(sessions)[i..];
  }

  lemma NamesJoin(a: seq<Session>, b: seq<Session>)
    ensures Names(a + b) == Names(a) + Names(b)
  {
  }

  /**
   The recovery inventory of a capture: the active names in order, and for each the session as
   captured.  A name that is given twice is listed twice, with the same record.
   */
  method BuildRecoveryInventory(
    d: Desktop, active: seq<string>, history: seq<seq<Session>>, now: Time, located: map<string, string>)
    returns (inventory: Inventory)
    ensures Ordered(inventory.active) && multiset(inventory.active) == multiset(active)
    ensures AllCaptured(inventory.sessions, inventory.active, d, Newest(history), now, located)
  {
    hide *;
    var sessions := CaptureAll(d, active, history, now, located);
    var names := Sort(active);
    var sorted := SortSessions(sessions);
    CapturedNames(sessions, active, d, Newest(history), now, located);
    OrderedIsUnique(Names(sorted), names);
    SortedIsCaptured(sorted, sessions, active, d, Newest(history), now, located);
    return Inventory(names, sorted);
  }

  lemma CapturedNames(
    sessions: seq<Session>, names: seq<string>, d: Desktop, records: seq<Session>, now: Time, located: map<string, string>)
    requires AllCaptured(sessions, names, d, records, now, located)
    ensures Names(sessions) == names
  {
    forall i | 0 <= i < |names| ensures sessions[i].name == names[i] {
      CapturedIs(d, records, names[i], now, located);
      CapturedName(d, records, names[i], now, located);
    }
    hide Captured;
  }

  lemma CapturedName(d: Desktop, records: seq<Session>, name: string, now: Time, located: map<string, string>)
    ensures Captured(d, records, name, now, located).name == name
  {
    CapturedIs(d, records, name, now, located);
    hide Captured;
    hide Remembered;
    hide Complete;
    hide Occupied;
  }

  lemma SortedIsCaptured(
    sorted: seq<Session>, sessions: seq<Session>, names: seq<string>,
    d: Desktop, records: seq<Session>, now: Time, located: map<string, string>)
    requires AllCaptured(sessions, names, d, records, now, located) && multiset(sorted) == multiset(sessions)
    ensures AllCaptured(sorted, Names(sorted), d, records, now, located)
  {
    hide Captured;
    forall i | 0 <= i < |sorted| ensures sorted[i] == Captured(d, records, sorted[i].name, now, located) {
      assert sorted[i] in multiset(sessions);
      var k :| 0 <= k < |sessions| && sessions[k] == sorted[i];
      CapturedName(d, records, names[k], now, located);
    }
  }

  /** The names a capture is made of come in order, so ordering the inventory leaves them alone. */
  lemma OrderIsKept(active: seq<string>, listed: seq<string>)
    requires Ascending(active) && Ordered(listed) && multiset(listed) == multiset(active)
    ensures listed == active
  {
    AscendingIsOrdered(active);
    OrderedIsUnique(listed, active);
  }

  lemma CapturedIs(d: Desktop, records: seq<Session>, name: string, now: Time, located: map<string, string>)
    ensures Remembered(records, name).name == name
    ensures
      var matches := Showing(d.windows, name);
      var t := Remembered(records, name).(visible := |matches| > 0);
      && (|matches| == 1 ==> matches[0].terminal.Some?)
      && Captured(d, records, name, now, located) ==
           if |matches| == 1 then Seen(d, t, matches[0], now)
           else if name in located && Trim(located[name]) != "" then t.(cwd := Trim(located[name])) else t
  {
    assert |Showing(d.windows, name)| == 1 ==> Showing(d.windows, name)[0] in Showing(d.windows, name);
  }

  // ---------------------------------------------------------------- one observation at a time

  /** Workspace, place, time and occupancy: one observation. */
  datatype Place = Place(
    workspaceRef: Option<WorkspaceRef>, placement: Option<Placement>, observedAt: Option<Time>, occupied: bool)

  function PlaceOf(s: Session): Place { Place(s.workspaceRef, s.placement, s.observedAt, s.occupied) }

  const NOWHERE := Place(None, None, None, false)

  ghost predicate PlacedRecord(history: seq<seq<Session>>, i: int, j: int, name: string) {
    && 0 <= i < |history| && 0 <= j < |history[i]|
    && history[i][j].name == name && history[i][j].observedAt.Some?
  }

  /** The newest record of a session that has a placement observation. */
  ghost predicate NewestPlaced(history: seq<seq<Session>>, i: int, j: int, name: string) {
    && PlacedRecord(history, i, j, name)
    && (forall k, l :: PlacedRecord(history, k, l, name) ==> k < i || (k == i && j <= l))
  }

  lemma {:induction false} FirstPlacedAt(records: seq<Session>, name: string) returns (j: int)
    ensures FirstPlaced(records, name).Some? ==>
      0 <= j < |records| && records[j] == FirstPlaced(records, name).value
      && forall l :: 0 <= l < j ==> !(records[l].name == name && records[l].observedAt.Some?)
  {
    j := 0;
    if records != [] && !(records[0].name == name && records[0].observedAt.Some?) {
      j := FirstPlacedAt(records[1..], name);
      j := j + 1;
    }
  }

  lemma {:induction false} NewestIsFirst(history: seq<seq<Session>>, name: string) returns (i: int, j: int)
    ensures
      var p := FirstPlaced(Newest(history), name);
      if p.Some? then NewestPlaced(history, i, j, name) && history[i][j] == p.value
      else forall k, l :: !PlacedRecord(history, k, l, name)
    decreases |history|
  {
    i, j := 0, 0;
    if history != [] {
      var n := |history| - 1;
      var last, before := history[n], history[..n];
      FirstAppend(last, Newest(before), name);
      j := FirstPlacedAt(last, name);
      if FirstPlaced(last, name).Some? {
        i := n;
      } else {
        i, j := NewestIsFirst(before, name);
        forall l ensures !PlacedRecord(history, n, l, name) {
          if 0 <= l < |last| {
            assert last[l] in last;
          }
        }
        assert forall k, l :: PlacedRecord(history, k, l, name) <==> PlacedRecord(before, k, l, name);
      }
    }
  }

  /**
   Sticky placement is atomic: where a session is recorded to be, when that was seen and whether
   its column was shared all come from one source.  That is the session's only exact window when
   its placement is complete, else the newest record of any earlier capture that has an
   observation, else nothing.
   */
  lemma PlacementIsOneObservation(
    d: Desktop, history: seq<seq<Session>>, name: string, now: Time, located: map<string, string>)
    returns (i: int, j: int)
    ensures
      var s := Captured(d, Newest(history), name, now, located);
      var matches := Showing(d.windows, name);
      if |matches| == 1 && Complete(matches[0]) then
        PlaceOf(s) == Place(matches[0].workspaceRef, matches[0].placement, Some(now), Occupied(d, matches[0]))
      else if exists k, l :: PlacedRecord(history, k, l, name) then
        NewestPlaced(history, i, j, name) && PlaceOf(s) == PlaceOf(history[i][j])
      else PlaceOf(s) == NOWHERE
  {
    i, j := NewestIsFirst(history, name);
    CapturedIs(d, Newest(history), name, now, located);
    hide Complete;
    hide Occupied;
    hide Captured;
    hide NewestPlaced;
    hide Newest;
    hide FirstPlaced;
    hide FirstCwd;
    if FirstPlaced(Newest(history), name).Some? {
      NewestIsPlaced(history, i, j, name);
    }
  }

  lemma NewestIsPlaced(history: seq<seq<Session>>, i: int, j: int, name: string)
    requires NewestPlaced(history, i, j, name)
    ensures PlacedRecord(history, i, j, name)
  {
  }

  // ---------------------------------------------------------------- what is written is valid

  /** internal/checkpoints/store.go accepts a session record. */
  predicate ValidSession(s: Session) {
    && s.observedAt != Some(ZERO_TIME)
    && (s.occupied ==> s.observedAt.Some? && s.workspaceRef.Some? && RowOne(s.placement))
  }

  ghost predicate ValidInventory(v: Inventory) {
    && |v.active| == |v.sessions|
    && Distinct(v.active) && (forall n <- v.active :: Named(n))
    && Distinct(Names(v.sessions)) && (forall s <- v.sessions :: s.name in v.active && ValidSession(s))
  }

  method ValidateRecovery(v: Inventory) returns (valid: bool)
    ensures valid <==> ValidInventory(v)
  {
    hide ValidSession;
    hide Named;
    if |v.active| != |v.sessions| {
      return false;
    }
    var active: set<string> := {};
    for i := 0 to |v.active|
      invariant forall n :: n in active <==> n in v.active[..i]
      invariant Distinct(v.active[..i]) && forall n <- v.active[..i] :: Named(n)
    {
      var name := v.active[i];
      assert v.active[..i + 1] == v.active[..i] + [name];
      if !Named(name) || name in active {
        assert name in v.active;
        return false;
      }
      active := active + {name};
    }
    assert v.active[..|v.active|] == v.active;
    var names := Names(v.sessions);
    var seen: set<string> := {};
    for i := 0 to |v.sessions|
      invariant forall n :: n in seen <==> n in names[..i]
      invariant Distinct(names[..i]) && forall s <- v.sessions[..i] :: s.name in v.active && ValidSession(s)
    {
      var s := v.sessions[i];
      assert names[..i + 1] == names[..i] + [s.name];
      assert v.sessions[..i + 1] == v.sessions[..i] + [s];
      if s.name !in active || s.name in seen || !ValidSession(s) {
        assert s in v.sessions;
        return false;
      }
      seen := seen + {s.name};
    }
    assert names[..|names|] == names && v.sessions[..|v.sessions|] == v.sessions;
    return true;
  }

  ghost predicate ValidHistory(history: seq<seq<Session>>) {
    forall i :: 0 <= i < |history| ==> forall s <- history[i] :: ValidSession(s)
  }

  lemma CapturedIsValid(d: Desktop, history: seq<seq<Session>>, name: string, now: Time, located: map<string, string>)
    requires ValidHistory(history) && now != ZERO_TIME
    ensures
      var s := Captured(d, Newest(history), name, now, located);
      s.name == name && ValidSession(s)
  {
    var i, j := PlacementIsOneObservation(d, history, name, now, located);
    CapturedIs(d, Newest(history), name, now, located);
    if exists k, l :: PlacedRecord(history, k, l, name) {
      PlacedIsValid(history, i, j, name);
    }
    hide Remembered;
    hide NewestPlaced;
    hide Newest;
    hide Captured;
  }

  lemma PlacedIsValid(history: seq<seq<Session>>, i: int, j: int, name: string)
    requires ValidHistory(history)
    ensures PlacedRecord(history, i, j, name) ==> ValidSession(history[i][j])
    ensures NewestPlaced(history, i, j, name) ==> PlacedRecord(history, i, j, name)
  {
    if PlacedRecord(history, i, j, name) {
      assert history[i][j] in history[i];
    }
  }

  /**
   A capture of distinct, well-named sessions from valid history, made at a real time, passes
   the store's validation.
   */
  lemma CaptureIsValid(
    d: Desktop, history: seq<seq<Session>>, now: Time, located: map<string, string>, v: Inventory)
    requires Distinct(v.active) && (forall n <- v.active :: Named(n)) && ValidHistory(history) && now != ZERO_TIME
    requires AllCaptured(v.sessions, v.active, d, Newest(history), now, located)
    ensures ValidInventory(v)
  {
    CapturedNames(v.sessions, v.active, d, Newest(history), now, located);
    hide ValidSession;
    hide Captured;
    hide Named;
    forall s <- v.sessions ensures s.name in v.active && ValidSession(s) {
      var i :| 0 <= i < |v.sessions| && v.sessions[i] == s;
      CapturedIsValid(d, history, v.active[i], now, located);
    }
  }
}
