/**
 The relay between a terminal's session client and the real server
 (internal/mirror/session_relay.go): what it lets pass, what it adds, and what it remembers.
 */
module AttachmentRelay {
  import opened Wrappers
  import opened Bytes
  import F = AttachmentFrames
  import M = MarkerStream

  const RENDER: nat := 1
  const EXIT: nat := 3
  const SWITCH: nat := 7
  const ATTACH: nat := 8
  const STATUS: nat := 13

  /** The two ways an exit says that the client detached. */
  const DETACHED_BODY: Bytes := [8, 1]
  const SWITCHED_BODY: Bytes := [8, 2]

  /** A render whose one field is the ready marker. */
  function ReadyFrame(attempt: Bytes): Bytes
    requires M.ValidAttempt(attempt)
  {
    F.Frame(RENDER, F.Payload(RENDER, M.Marker(attempt, M.Ready)))
  }

  /** What the client is sent: the relay's own marker, or a frame that says a message. */
  datatype Sent = Mark | Passed(message: F.Message, frame: Bytes)

  datatype State = State(attached: bool, ready: bool, detached: bool)

  datatype Pumped = Pumped(state: State, log: seq<Sent>)

  /** A switch to another session becomes an exit. */
  function Convert(r: F.Read): (sent: Sent)
    ensures sent.Passed? && sent.message.kind != SWITCH
  {
    if r.message.kind == SWITCH then Passed(F.Message(EXIT, SWITCHED_BODY), F.Frame(EXIT, SWITCHED_BODY))
    else Passed(r.message, r.frame)
  }

  predicate Render(e: Sent) { e.Passed? && e.message.kind == RENDER }

  predicate Detaches(m: F.Message) {
    m.kind == EXIT && (m.body == DETACHED_BODY || m.body == SWITCHED_BODY)
  }

  function Noted(s: State, m: F.Message): State {
    if Detaches(m) then s.(detached := s.ready) else s
  }

  /** One frame from the server: what is sent, and how many writes are left if relaying goes on. */
  datatype Turned = Turned(state: State, log: seq<Sent>, left: Option<nat>)

  predicate First(s: State, sent: Sent) {
    Render(sent) && !s.ready
  }

  /** `writes` writes to the client succeed, the next one fails. */
  function Turn(s: State, r: F.Read, writes: nat): Turned {
    var sent := Convert(r);
    if First(s, sent) && writes == 0 then Turned(s.(ready := true), [], None)
    else
      var marks := if First(s, sent) then [Mark] else [];
      var t := Noted(if First(s, sent) then s.(ready := true) else s, sent.message);
      if writes == |marks| then Turned(t, marks, None)
      else Turned(t, marks + [sent], if sent.message.kind == EXIT then None else Some(writes - |marks| - 1))
  }

  /** Relays the server's stream until it cannot be read, a write fails or an exit was passed on. */
  function Pump(s: State, stream: Bytes, writes: nat): Pumped
    decreases |stream|
  {
    var read := F.ReadFrame(stream);
    if read.None? then Pumped(s, [])
    else
      var turn := Turn(s, read.value, writes);
      if turn.left.None? then Pumped(turn.state, turn.log)
      else
        var rest := Pump(turn.state, read.value.rest, turn.left.value);
        rest.(log := turn.log + rest.log)
  }

  /** All frames a stream holds, up to the first that cannot be read. */
  function Frames(stream: Bytes): seq<F.Read>
    decreases |stream|
  {
    var read := F.ReadFrame(stream);
    if read.None? then [] else [read.value] + Frames(read.value.rest)
  }

  // ---------------------------------------------------------------- what the client sees

  ghost predicate NoMark(log: seq<Sent>) { forall e <- log :: e.Passed? }

  ghost predicate NoRender(log: seq<Sent>) { forall e <- log :: !Render(e) }

  /** No marker, and nothing rendered; or one marker, before anything rendered and directly before the first. */
  ghost predicate MarkedOnce(log: seq<Sent>) {
    || (NoMark(log) && NoRender(log))
    || exists k: nat :: MarkedAt(log, k)
  }

  ghost predicate MarkedAt(log: seq<Sent>, k: nat) {
    && k < |log| && log[k] == Mark
    && NoMark(log[..k]) && NoRender(log[..k]) && NoMark(log[k + 1..])
    && (k + 1 < |log| ==> Render(log[k + 1]))
  }

  /** What one turn can add to the log. */
  lemma TurnShape(s: State, r: F.Read, writes: nat)
    ensures
      var sent := Convert(r);
      var t := Turn(s, r, writes);
      && t.log in (if First(s, sent) then {[], [Mark], [Mark] + [sent]} else {[], [sent]})
      && (t.state.ready <==> s.ready || Render(sent)) && t.state.attached == s.attached
      && (t.state.detached ==> s.detached || t.state.ready)
      && (t.left.Some? ==>
            && sent.message.kind != EXIT && t.left.value + |t.log| == writes
            && t.log == (if First(s, sent) then [Mark] + [sent] else [sent]))
      && (writes >= 2 ==> t.log == (if First(s, sent) then [Mark] + [sent] else [sent]))
      && (writes >= 1 && !First(s, sent) ==> t.log == [sent])
      && (writes >= 2 && sent.message.kind != EXIT ==> t.left.Some?)
      && (writes >= 1 && !First(s, sent) && sent.message.kind != EXIT ==> t.left.Some?)
      && (Detaches(sent.message) ==> t.state.detached == t.state.ready)
      && (!s.ready && !s.detached ==> !t.state.detached)
  {
    assert [] + [Convert(r)] == [Convert(r)];
  }

  lemma {:induction false} ReadyStaysUnmarked(s: State, stream: Bytes, writes: nat)
    requires s.ready
    ensures NoMark(Pump(s, stream, writes).log) && Pump(s, stream, writes).state.ready
    decreases |stream|
  {
    hide Turn;
    hide F.ReadFrame;
    var read := F.ReadFrame(stream);
    if read.Some? {
      TurnShape(s, read.value, writes);
      var t := Turn(s, read.value, writes);
      if t.left.Some? {
        ReadyStaysUnmarked(t.state, read.value.rest, t.left.value);
      }
    }
  }

  lemma MarkedNow(sent: Sent, rest: seq<Sent>)
    requires Render(sent) && NoMark(rest)
    ensures MarkedAt([Mark] + [sent] + rest, 0)
  {
    var log := [Mark] + [sent] + rest;
    assert log[..0] == [];
    assert log[1..] == [sent] + rest;
  }

  lemma MarkedLater(sent: Sent, rest: seq<Sent>)
    requires sent.Passed? && !Render(sent) && MarkedOnce(rest)
    ensures MarkedOnce([sent] + rest)
  {
    var log := [sent] + rest;
    if exists k: nat :: MarkedAt(rest, k) {
      var k: nat :| MarkedAt(rest, k);
      assert log[..k + 1] == [sent] + rest[..k];
      assert log[k + 2..] == rest[k + 1..];
      assert MarkedAt(log, k + 1);
    }
  }

  lemma MarkedAlone(sent: Sent)
    requires sent.Passed?
    ensures MarkedOnce([]) && MarkedOnce([Mark])
    ensures Render(sent) ==> MarkedOnce([Mark] + [sent])
    ensures !Render(sent) ==> MarkedOnce([sent])
  {
    assert MarkedAt([Mark], 0);
    if Render(sent) {
      MarkedNow(sent, []);
      assert [Mark] + [sent] + [] == [Mark] + [sent];
    }
  }

  /** The ready marker goes out at most once, directly before the first render the client gets. */
  lemma {:induction false} MarkerOnce(s: State, stream: Bytes, writes: nat)
    requires !s.ready
    ensures MarkedOnce(Pump(s, stream, writes).log)
    decreases |stream|
  {
    hide Turn;
    hide MarkedOnce;
    hide MarkedAt;
    hide NoMark;
    hide F.ReadFrame;
    var read := F.ReadFrame(stream);
    if read.None? {
      MarkedAlone(Passed(F.Message(0, []), []));
    } else {
      var sent := Convert(read.value);
      TurnShape(s, read.value, writes);
      MarkedAlone(sent);
      var t := Turn(s, read.value, writes);
      if t.left.Some? {
        var rest := Pump(t.state, read.value.rest, t.left.value).log;
        if Render(sent) {
          ReadyStaysUnmarked(t.state, read.value.rest, t.left.value);
          MarkedNow(sent, rest);
          MarkedWhere([Mark] + [sent] + rest, 0);
        } else {
          MarkerOnce(t.state, read.value.rest, t.left.value);
          MarkedLater(sent, rest);
        }
      }
    }
  }

  lemma MarkedWhere(log: seq<Sent>, k: nat)
    requires MarkedAt(log, k)
    ensures MarkedOnce(log)
  {
  }

  /** Detached is only ever remembered of an attachment that became ready. */
  ghost predicate Honest(s: State) { (s.detached ==> s.ready) && (s.ready ==> s.attached) }

  lemma {:induction false} DetachedWasReady(s: State, stream: Bytes, writes: nat)
    requires Honest(s) && s.attached
    ensures Honest(Pump(s, stream, writes).state) && Pump(s, stream, writes).state.attached
    decreases |stream|
  {
    hide Turn;
    hide F.ReadFrame;
    var read := F.ReadFrame(stream);
    if read.Some? {
      TurnShape(s, read.value, writes);
      var t := Turn(s, read.value, writes);
      if t.left.Some? {
        DetachedWasReady(t.state, read.value.rest, t.left.value);
      }
    }
  }

  /** A detach is only remembered once the client was sent the ready marker. */
  lemma {:induction false} DetachedWasAnnounced(s: State, stream: Bytes, writes: nat)
    requires !s.ready && !s.detached && Pump(s, stream, writes).state.detached
    ensures Mark in Pump(s, stream, writes).log
    decreases |stream|
  {
    hide Turn;
    hide F.ReadFrame;
    var read := F.ReadFrame(stream);
    TurnShape(s, read.value, writes);
    var t := Turn(s, read.value, writes);
    if First(s, Convert(read.value)) {
      assert t.log[0] == Mark;
    } else {
      DetachedWasAnnounced(t.state, read.value.rest, t.left.value);
    }
  }

  /** What one frame of the server makes of a remembered detach, whatever can still be written. */
  lemma TurnDetach(s: State, r: F.Read, writes: nat)
    ensures
      var t := Turn(s, r, writes).state;
      && (t.ready <==> s.ready || r.message.kind == RENDER)
      && t.detached ==
           if r.message.kind == SWITCH || (r.message.kind == EXIT && r.message.body in {[8, 1], [8, 2]}) then s.ready
           else s.detached
  {
  }

  /** The first exit or switch among the frames says the client detached, and comes after a render. */
  ghost predicate Detaching(frames: seq<F.Read>, ready: bool) {
    exists n :: DetachAt(frames, ready, n)
  }

  ghost predicate DetachAt(frames: seq<F.Read>, ready: bool, n: int) {
    && 0 <= n < |frames|
    && (frames[n].message.kind == SWITCH
        || (frames[n].message.kind == EXIT && frames[n].message.body in {[8, 1], [8, 2]}))
    && (forall i :: 0 <= i < n ==> frames[i].message.kind !in {SWITCH, EXIT})
    && (ready || exists i :: 0 <= i < n && frames[i].message.kind == RENDER)
  }

  lemma DetachingStep(first: F.Read, rest: seq<F.Read>, ready: bool)
    ensures
      var kind := first.message.kind;
      Detaching([first] + rest, ready) <==>
        if kind == SWITCH then ready
        else if kind == EXIT then ready && first.message.body in {[8, 1], [8, 2]}
        else Detaching(rest, ready || kind == RENDER)
  {
    var all, later := [first] + rest, ready || first.message.kind == RENDER;
    if first.message.kind !in {SWITCH, EXIT} {
      forall n ensures DetachAt(all, ready, n) ==> DetachAt(rest, later, n - 1) {
        if DetachAt(all, ready, n) {
          assert n != 0 && all[n] == rest[n - 1];
          assert forall i :: 0 <= i < n - 1 ==> rest[i] == all[i + 1];
        }
      }
      forall n ensures DetachAt(rest, later, n) ==> DetachAt(all, ready, n + 1) {
        if DetachAt(rest, later, n) {
          LaterDetach(first, rest, ready, n);
        }
      }
    } else if DetachAt(all, ready, 0) {
    } else {
      forall n ensures !DetachAt(all, ready, n) {
        if n > 0 {
          assert all[0].message.kind in {SWITCH, EXIT};
        }
      }
    }
  }

  lemma LaterDetach(first: F.Read, rest: seq<F.Read>, ready: bool, n: int)
    requires first.message.kind !in {SWITCH, EXIT}
    requires DetachAt(rest, ready || first.message.kind == RENDER, n)
    ensures DetachAt([first] + rest, ready, n + 1)
  {
    var all := [first] + rest;
    assert forall i :: 0 < i <= n + 1 ==> all[i] == rest[i - 1];
    if !ready {
      if first.message.kind == RENDER {
        assert all[0].message.kind == RENDER;
      } else {
        var i :| 0 <= i < n && rest[i].message.kind == RENDER;
        assert all[i + 1].message.kind == RENDER;
      }
    }
  }

  /**
   A detach is remembered if and only if the server's first exit says so, as the user's own
   detach or as a switch, after a render; no other frame and no end of the stream does it.
   One write for every frame and one for the marker are enough.
   */
  lemma {:induction false} DetachIsExact(s: State, stream: Bytes, writes: nat)
    requires !s.detached && writes >= |Frames(stream)| + (if s.ready then 0 else 1)
    ensures Pump(s, stream, writes).state.detached <==> Detaching(Frames(stream), s.ready)
    decreases |stream|
  {
    hide Turn;
    hide Detaching;
    hide F.ReadFrame;
    var read := F.ReadFrame(stream);
    if read.None? {
      NothingDetaches(s.ready);
    } else {
      var rest := Frames(read.value.rest);
      assert Frames(stream) == [read.value] + rest;
      TurnDetach(s, read.value, writes);
      TurnShape(s, read.value, writes);
      DetachingStep(read.value, rest, s.ready);
      ConvertedKind(read.value);
      var t := Turn(s, read.value, writes);
      if t.left.Some? {
        DetachIsExact(t.state, read.value.rest, t.left.value);
      }
    }
  }

  lemma NothingDetaches(ready: bool)
    ensures !Detaching([], ready)
  {
  }

  lemma ConvertedKind(r: F.Read)
    ensures Convert(r).message.kind == EXIT <==> r.message.kind in {SWITCH, EXIT}
    ensures Render(Convert(r)) <==> r.message.kind == RENDER
  {
  }

  /** The frames the client was passed. */
  function PassedOf(log: seq<Sent>): seq<Sent> {
    if log == [] then []
    else (if log[0].Passed? then [log[0]] else []) + PassedOf(log[1..])
  }

  function ConvertAll(frames: seq<F.Read>): (r: seq<Sent>)
    ensures |r| == |frames| && forall i :: 0 <= i < |r| ==> r[i] == Convert(frames[i])
  {
    seq(|frames|, i requires 0 <= i < |frames| => Convert(frames[i]))
  }

  lemma PassedCons(sent: Sent, rest: seq<Sent>)
    requires sent.Passed?
    ensures PassedOf([Mark] + [sent] + rest) == [sent] + PassedOf(rest) == PassedOf([sent] + rest)
    ensures PassedOf([Mark]) == PassedOf([]) == [] && PassedOf([Mark] + [sent]) == PassedOf([sent]) == [sent]
  {
    assert ([sent] + rest)[1..] == rest && ([Mark] + [sent] + rest)[1..] == [sent] + rest;
    assert [Mark][1..] == [] && [sent][1..] == [] && ([Mark] + [sent])[1..] == [sent];
  }

  lemma ConvertCons(first: F.Read, rest: seq<F.Read>)
    ensures ConvertAll([first] + rest) == [Convert(first)] + ConvertAll(rest)
  {
  }

  /**
   Besides the marker the client gets the server's frames in order and byte for byte, except
   that a switch is an exit; nothing is added and nothing is skipped.
   */
  lemma {:induction false} FramesPassInOrder(s: State, stream: Bytes, writes: nat)
    ensures PassedOf(Pump(s, stream, writes).log) <= ConvertAll(Frames(stream))
    decreases |stream|
  {
    hide Turn;
    hide Convert;
    hide PassedOf;
    hide F.ReadFrame;
    var read := F.ReadFrame(stream);
    if read.None? {
      PassedCons(Passed(F.Message(0, []), []), []);
    } else {
      var sent := Convert(read.value);
      TurnShape(s, read.value, writes);
      ConvertCons(read.value, Frames(read.value.rest));
      PassedCons(sent, []);
      var t := Turn(s, read.value, writes);
      if t.left.Some? {
        FramesPassInOrder(t.state, read.value.rest, t.left.value);
        PassedCons(sent, Pump(t.state, read.value.rest, t.left.value).log);
      }
    }
  }

  ghost predicate ExitIsLast(log: seq<Sent>) {
    && (forall e <- log :: e.Passed? ==> e.message.kind != SWITCH)
    && (forall i :: 0 <= i < |log| - 1 && log[i].Passed? ==> log[i].message.kind != EXIT)
  }

  lemma ExitIsLastCons(sent: Sent, rest: seq<Sent>)
    requires sent.Passed? && sent.message.kind != SWITCH && (sent.message.kind == EXIT ==> rest == [])
    requires ExitIsLast(rest)
    ensures ExitIsLast([Mark] + [sent] + rest) && ExitIsLast([sent] + rest)
  {
    var log := [Mark] + [sent] + rest;
    forall i | 0 <= i < |log| - 1 && log[i].Passed? ensures log[i].message.kind != EXIT {
      if i > 1 {
        assert log[i] == rest[i - 2];
      }
    }
    log := [sent] + rest;
    forall i | 0 <= i < |log| - 1 && log[i].Passed? ensures log[i].message.kind != EXIT {
      if i > 0 {
        assert log[i] == rest[i - 1];
      }
    }
  }

  lemma ExitIsLastAlone(sent: Sent)
    requires sent.Passed? && sent.message.kind != SWITCH
    ensures ExitIsLast([]) && ExitIsLast([Mark]) && ExitIsLast([sent]) && ExitIsLast([Mark] + [sent])
  {
  }

  /** No switch ever reaches the client, and an exit ends the relaying. */
  lemma {:induction false} SwitchNeverPasses(s: State, stream: Bytes, writes: nat)
    ensures ExitIsLast(Pump(s, stream, writes).log)
    decreases |stream|
  {
    hide Turn;
    hide ExitIsLast;
    hide F.ReadFrame;
    var read := F.ReadFrame(stream);
    if read.None? {
      ExitIsLastAlone(Passed(F.Message(0, []), []));
    } else {
      var sent := Convert(read.value);
      TurnShape(s, read.value, writes);
      ExitIsLastAlone(sent);
      var t := Turn(s, read.value, writes);
      if t.left.Some? {
        SwitchNeverPasses(t.state, read.value.rest, t.left.value);
        ExitIsLastCons(sent, Pump(t.state, read.value.rest, t.left.value).log);
      }
    }
  }

  /** The exit a switch becomes. */
  function SwitchedExit(): Sent { Passed(F.Message(EXIT, SWITCHED_BODY), F.Frame(EXIT, SWITCHED_BODY)) }

  ghost predicate EndsSwitched(p: Pumped) {
    p.log != [] && p.log[|p.log| - 1] == SwitchedExit() && p.state.detached == p.state.ready
  }

  /** The n-th frame is a session switch, and nothing before it ends the relaying. */
  ghost predicate SwitchAt(frames: seq<F.Read>, n: nat) {
    && n < |frames| && frames[n].message.kind == SWITCH
    && forall i :: 0 <= i < n ==> frames[i].message.kind != SWITCH && frames[i].message.kind != EXIT
  }

  lemma SwitchConverts(r: F.Read)
    ensures r.message.kind == SWITCH ==> Convert(r) == SwitchedExit() && Detaches(Convert(r).message)
    ensures r.message.kind !in {SWITCH, EXIT} ==> Convert(r).message.kind != EXIT
  {
  }

  lemma EndsLater(log: seq<Sent>, p: Pumped)
    requires EndsSwitched(p)
    ensures EndsSwitched(p.(log := log + p.log))
  {
  }

  lemma SwitchLater(stream: Bytes, n: nat)
    requires SwitchAt(Frames(stream), n)
    ensures F.ReadFrame(stream).Some?
    ensures
      var r := F.ReadFrame(stream).value;
      && (n == 0 ==> r.message.kind == SWITCH)
      && (n > 0 ==> r.message.kind !in {SWITCH, EXIT} && SwitchAt(Frames(r.rest), n - 1))
  {
    hide F.ReadFrame;
    var r := F.ReadFrame(stream).value;
    assert Frames(stream)[0] == r && Frames(stream)[1..] == Frames(r.rest);
  }

  /**
   A session switch always reaches the client, as an exit that says the client was switched, and
   counts as a detach once ready.  `n + 1` writes are enough, and one more while no marker was sent.
   */
  lemma {:induction false} SwitchArrivesAsExit(s: State, stream: Bytes, writes: nat, n: nat)
    requires SwitchAt(Frames(stream), n) && writes >= n + (if s.ready then 1 else 2)
    ensures EndsSwitched(Pump(s, stream, writes))
    decreases |stream|
  {
    hide *;
    SwitchLater(stream, n);
    var read := F.ReadFrame(stream).value;
    PumpStep(s, stream, writes);
    var t := Turn(s, read, writes);
    if n == 0 {
      SwitchTurn(s, read, writes);
    } else {
      EnoughLeft(s, read, writes, n);
      SwitchArrivesAsExit(t.state, read.rest, t.left.value, n - 1);
      EndsLater(t.log, Pump(t.state, read.rest, t.left.value));
    }
  }

  lemma PumpStep(s: State, stream: Bytes, writes: nat)
    requires F.ReadFrame(stream).Some?
    ensures
      var r := F.ReadFrame(stream).value;
      var t := Turn(s, r, writes);
      Pump(s, stream, writes) ==
        if t.left.None? then Pumped(t.state, t.log)
        else
          var rest := Pump(t.state, r.rest, t.left.value);
          rest.(log := t.log + rest.log)
  {
    hide Turn;
    hide F.ReadFrame;
  }

  lemma SwitchTurn(s: State, r: F.Read, writes: nat)
    requires r.message.kind == SWITCH && writes >= 1
    ensures
      var t := Turn(s, r, writes);
      t.left.None? && EndsSwitched(Pumped(t.state, t.log))
  {
    SwitchConverts(r);
  }

  lemma EnoughLeft(s: State, r: F.Read, writes: nat, n: nat)
    requires 0 < n && r.message.kind !in {SWITCH, EXIT} && writes >= n + (if s.ready then 1 else 2)
    ensures
      var t := Turn(s, r, writes);
      t.left.Some? && t.left.value >= n - 1 + (if t.state.ready then 1 else 2)
  {
  }

  // ---------------------------------------------------------------- the marker is a render

  lemma SmallMarker(attempt: Bytes)
    requires M.ValidAttempt(attempt)
    ensures
      var marker := M.Marker(attempt, M.Ready);
      |marker| < 128 && |F.Payload(RENDER, marker)| < 128 && |F.Payload(RENDER, F.Payload(RENDER, marker))| < 256
  {
    var marker := M.Marker(attempt, M.Ready);
    M.MarkerShape(attempt, M.Ready);
    assert |F.Varint(F.Tag(RENDER))| == 1;
    assert |F.Varint(|marker|)| == 1;
    assert |F.Varint(|F.Payload(RENDER, marker)|)| == 1;
  }

  /** The client reads the marker as a render of exactly the announcement of this attempt. */
  lemma MarkerIsARender(attempt: Bytes, rest: Bytes)
    requires M.ValidAttempt(attempt)
    ensures
      var marker := M.Marker(attempt, M.Ready);
      var body := F.Payload(RENDER, marker);
      && F.ReadFrame(ReadyFrame(attempt) + rest) == Some(F.Read(F.Message(RENDER, body), ReadyFrame(attempt), rest))
      && F.Open(body) == Some(F.Message(RENDER, marker))
      && M.ParseMarker(marker) == Some(M.Lifecycle(attempt, M.Ready))
  {
    SmallMarker(attempt);
    M.ParseMarkerRoundTrip(attempt, M.Ready);
    var marker := M.Marker(attempt, M.Ready);
    hide M.Marker;
    hide M.ParseMarker;
    F.FrameRoundTrip(RENDER, F.Payload(RENDER, marker), rest);
    F.OpenPayload(RENDER, marker);
    hide F.Payload;
    hide F.ReadFrame;
    hide F.Open;
  }

  // ---------------------------------------------------------------- what the server sees

  /** Messages that would attach again, act for another client or are unknown. */
  predicate Refused(kind: nat) {
    kind in {0, 7, 8, 12, 13, 16, 25} || kind > 27
  }

  datatype Filtered = Filtered(passed: seq<F.Read>, failed: bool)

  /** Relays an attached client's stream to the server until something is refused. */
  function Filter(stream: Bytes, writes: nat): Filtered
    decreases |stream|
  {
    var read := F.ReadFrame(stream);
    if read.None? then Filtered([], false)
    else if Refused(read.value.message.kind) then Filtered([], true)
    else if writes == 0 then Filtered([], false)
    else
      var rest := Filter(read.value.rest, writes - 1);
      rest.(passed := [read.value] + rest.passed)
  }

  /**
   The server gets the client's frames in order and unchanged, none of them refused, and the
   relay fails exactly when the frame after those passed is a refused one.
   */
  lemma {:induction false} FilterIsExact(stream: Bytes, writes: nat)
    ensures
      var f := Filter(stream, writes);
      var all := Frames(stream);
      && f.passed <= all && |f.passed| <= writes
      && (forall r <- f.passed :: !Refused(r.message.kind))
      && (f.failed <==> |f.passed| < |all| && Refused(all[|f.passed|].message.kind))
      && (!f.failed ==> |f.passed| == |all| || |f.passed| == writes)
    decreases |stream|
  {
    hide F.ReadFrame;
    hide Refused;
    var read := F.ReadFrame(stream);
    if read.Some? {
      var all := Frames(stream);
      assert all == [read.value] + Frames(read.value.rest);
      if writes > 0 && !Refused(read.value.message.kind) {
        FilterIsExact(read.value.rest, writes - 1);
      }
    }
  }

  /** A connection starts with one frame; only a status probe or the first attachment goes on. */
  datatype Greeting = Unreadable | RefusedFirst | RefusedSecond | Probe | Interactive

  function Greet(s: State, first: Option<F.Read>): (State, Greeting) {
    if first.None? then (s, Unreadable)
    else if first.value.message.kind == STATUS then (s, Probe)
    else if first.value.message.kind != ATTACH then (s, RefusedFirst)
    else if s.attached then (s, RefusedSecond)
    else (s.(attached := true), Interactive)
  }

  /** One connection after another, in the order their first frames arrive. */
  function Greetings(s: State, firsts: seq<Option<F.Read>>): seq<Greeting>
    decreases |firsts|
  {
    if firsts == [] then []
    else
      var (t, g) := Greet(s, firsts[0]);
      [g] + Greetings(t, firsts[1..])
  }

  lemma {:induction false} OneAttachment(s: State, firsts: seq<Option<F.Read>>)
    ensures
      var gs := Greetings(s, firsts);
      && |gs| == |firsts|
      && (forall i, j :: 0 <= i < j < |gs| && gs[i] == Interactive ==> gs[j] != Interactive)
      && (s.attached ==> Interactive !in gs)
      && (forall i :: 0 <= i < |gs| && gs[i] in {Probe, Interactive} ==>
            firsts[i].Some? && firsts[i].value.message.kind in {ATTACH, STATUS})
    decreases |firsts|
  {
    if firsts != [] {
      OneAttachment(Greet(s, firsts[0]).0, firsts[1..]);
    }
  }

  // ---------------------------------------------------------------- the relay object

  class Relay {
    var attached: bool
    var ready: bool
    var detached: bool

    constructor ()
      ensures View() == State(false, false, false)
    {
      attached, ready, detached := false, false, false;
    }

    function View(): State
      reads this
    {
      State(attached, ready, detached)
    }

    method Meet(first: Option<F.Read>) returns (greeting: Greeting)
      modifies this
      ensures (View(), greeting) == Greet(old(View()), first)
    {
      if first.None? {
        return Unreadable;
      }
      var kind := first.value.message.kind;
      if kind != ATTACH && kind != STATUS {
        return RefusedFirst;
      }
      if kind == STATUS {
        return Probe;
      }
      var duplicate := attached;
      attached := true;
      return if duplicate then RefusedSecond else Interactive;
    }

    /** One frame from the server; tells how many writes are left, if relaying goes on. */
    method RelayOne(read: F.Read, writes: nat) returns (log: seq<Sent>, left: Option<nat>)
      modifies this
      ensures Turned(View(), log, left) == Turn(old(View()), read, writes)
    {
      hide Detaches;
      var message, frame := read.message, read.frame;
      if message.kind == SWITCH {
        frame := F.Frame(EXIT, SWITCHED_BODY);
        message := F.Message(EXIT, SWITCHED_BODY);
      }
      log := [];
      var more := writes;
      if message.kind == RENDER && !ready {
        ready := true;
        if more == 0 {
          return log, None;
        }
        log, more := [Mark], more - 1;
      }
      if Detaches(message) {
        detached := ready;
      }
      if more == 0 {
        return log, None;
      }
      log, more := log + [Passed(message, frame)], more - 1;
      left := if message.kind == EXIT then None else Some(more);
    }

    /** Relays the server's stream to the client, whose first `writes` writes succeed. */
    method ServeClient(stream: Bytes, writes: nat) returns (log: seq<Sent>)
      modifies this
      ensures Pumped(View(), log) == Pump(old(View()), stream, writes)
    {
      hide F.ReadFrame;
      hide Turn;
      hide After;
      var rest, left := stream, writes;
      ghost var goal := Pump(View(), stream, writes);
      log := [];
      ReadsNothing(log, goal);
      while true
        invariant goal == After(log, Pump(View(), rest, left))
        decreases |rest|
      {
        var read := F.ReadFrame(rest);
        if read.None? {
          AfterIs(log, Pumped(View(), []));
          return;
        }
        var sent, more := RelayOne(read.value, left);
        if more.None? {
          AfterIs(log, Pumped(View(), sent));
          log := log + sent;
          return;
        }
        AfterTwice(log, sent, Pump(View(), read.value.rest, more.value));
        AfterIs(sent, Pump(View(), read.value.rest, more.value));
        log, rest, left := log + sent, read.value.rest, more.value;
      }
    }

    /** Relays the attached client's stream to the server until something is refused. */
    method ServeServer(stream: Bytes, writes: nat) returns (passed: seq<F.Read>, failed: bool)
      ensures Filtered(passed, failed) == Filter(stream, writes)
    {
      hide F.ReadFrame;
      hide Refused;
      var rest, left := stream, writes;
      passed, failed := [], false;
      while true
        invariant Filter(stream, writes) == Filter(rest, left).(passed := passed + Filter(rest, left).passed)
        decreases |rest|
      {
        var read := F.ReadFrame(rest);
        if read.None? {
          return;
        }
        if Refused(read.value.message.kind) {
          failed := true;
          return;
        }
        if left == 0 {
          return;
        }
        ghost var more := Filter(read.value.rest, left - 1).passed;
        assert passed + ([read.value] + more) == passed + [read.value] + more;
        passed, rest, left := passed + [read.value], read.value.rest, left - 1;
      }
    }
  }

  ghost function After(log: seq<Sent>, more: Pumped): Pumped {
    more.(log := log + more.log)
  }

  lemma AfterIs(log: seq<Sent>, more: Pumped)
    ensures After(log, more) == Pumped(more.state, log + more.log)
    ensures log + [] == log
  {
  }

  lemma AfterTwice(a: seq<Sent>, b: seq<Sent>, more: Pumped)
    ensures After(a, After(b, more)) == After(a + b, more)
  {
    assert a + (b + more.log) == a + b + more.log;
  }

  lemma ReadsNothing(log: seq<Sent>, more: Pumped)
    requires log == []
    ensures After(log, more) == more
  {
    assert log + more.log == more.log;
  }
}
