/**
 A run of the recovery service in which a broken connection's slot is freed: the helper's
 process lives on, but a probe finds that the host no longer has the session.
 */
module LostSession {
  import opened Wrappers
  import R = Recovery
  import S = RecoveryServer
  import RP = RecoveryProbes

  const CLIENT: string := seq(32, _ => 'a')
  const SESSION_ID: string := "ses_" + seq(43, _ => 'A')
  const SECOND := R.SECOND

  /** A helper that asks for an attachment to the session "s". */
  const ASKED := R.Request(CLIENT, CLIENT, "s", SESSION_ID, CLIENT, R.NoEvent, R.Offline, false, true)

  /** The host shows the session, and later shows nothing. */
  const SHOWN := R.Inventory(1, Some(["s"]), Some(map["s" := SESSION_ID]), true)
  const NOTHING := R.Inventory(1, Some([]), Some(map[]), true)

  const LIVE: set<nat> := {9}

  const ACCEPTED := S.Event(S.AcceptOp(0, 7, 9), LIVE)
  const FRAME := S.Event(S.FrameOp(0, S.Frame(true, Some(ASKED), false), SECOND), LIVE)
  const TICK := S.Event(S.TickOp([], SECOND), LIVE)
  const OBSERVED := S.Event(S.ProbeOp(1, 2 * SECOND, Ok(SHOWN)), LIVE)
  const BROKEN := S.Event(S.CloseOp(0, false), LIVE)
  const LATER := S.Event(S.TickOp([], 32 * SECOND), LIVE)
  const GONE := S.Event(S.ProbeOp(2, 33 * SECOND, Ok(NOTHING)), LIVE)

  const SETUP := [ACCEPTED, FRAME, TICK, OBSERVED, BROKEN]
  const OUTAGE := [LATER, GONE]

  lemma Asked()
    ensures R.ValidRequest(ASKED) && CLIENT != "" && SESSION_ID != ""
  {
    assert SESSION_ID[46] == 'A';
  }

  // ---------------------------------------------------------------- the coordinator's part

  const MEMBER := R.Member(CLIENT, "s", SESSION_ID, 0, CLIENT, "", "", R.ZERO_TIME, false, false, false)

  const WAITING := R.NEW_STATE.(
    members := map[CLIENT := MEMBER], order := [CLIENT],
    sessions := map[SESSION_ID := R.Retry(0, R.ZERO_TIME)], wanted := true, nextProbe := SECOND, births := 1)

  const PROBING := WAITING.(
    checking := true, wanted := false, lastProbe := SECOND, sequence := 1, observing := map[CLIENT := 0])

  const SEEN := PROBING.(
    checking := false, available := true, reason := "Waiting for attachment admission",
    inventory := map["s" := SESSION_ID], nextProbe := 32 * SECOND, observing := map[])

  const GRANTED := SEEN.(members := map[CLIENT := MEMBER.(active := CLIENT, deadline := 17 * SECOND)])

  const OVERDUE := GRANTED.(
    members := map[CLIENT := MEMBER.(active := CLIENT, deadline := 17 * SECOND, reset := true)])

  const PROBING_AGAIN := OVERDUE.(
    checking := true, lastProbe := 32 * SECOND, sequence := 2, observing := map[CLIENT := 0])

  lemma Registers()
    ensures R.Registered(R.NEW_STATE) && R.Known(R.NEW_STATE, ASKED, SECOND) == WAITING
  {
    hide R.ValidRequest;
    assert R.NewMember(R.NEW_STATE, ASKED) == MEMBER;
    var t := R.Register(R.NEW_STATE, ASKED, SECOND);
    assert t == WAITING;
    assert R.Expire(WAITING, SECOND).members == WAITING.members;
  }

  lemma Exchanges()
    ensures R.Registered(R.NEW_STATE)
    ensures R.Exchange(R.NEW_STATE, ASKED, SECOND).0 == WAITING && R.Exchange(R.NEW_STATE, ASKED, SECOND).1.Ok?
  {
    Asked();
    Registers();
    hide R.ValidRequest;
    hide R.Known;
    hide R.MakeReply;
    hide R.AdmitScan;
    assert WAITING.members[CLIENT := MEMBER] == WAITING.members;
    assert R.ApplyEvent(WAITING, ASKED, SECOND) == R.Proceed(WAITING);
    assert R.Expire(WAITING, SECOND).members == WAITING.members;
  }

  lemma Probes()
    ensures R.Registered(WAITING) && R.BeginProbe(R.Admit(WAITING, SECOND).state, SECOND).0 == PROBING
  {
    hide R.AdmitScan;
    assert R.Expire(WAITING, SECOND).members == WAITING.members;
    assert R.Births(WAITING.members) == map[CLIENT := 0];
    assert CLIENT in WAITING.members;
    assert !R.Settled(WAITING.members);
  }

  lemma Observes()
    ensures R.Registered(PROBING) && R.Observed(PROBING, 1, 2 * SECOND, Ok(SHOWN)) == Some(SEEN)
  {
    Asked();
    assert R.ValidInventory(SHOWN);
    hide R.ValidInventory;
    hide R.ValidRequest;
    assert R.EndAbsent(PROBING, map["s" := SESSION_ID]) == PROBING.members;
    hide R.EndAbsent;
    assert !R.Missing(PROBING.members, map["s" := SESSION_ID]);
  }

  lemma Grants()
    ensures R.Registered(PROBING) && R.FinishProbe(PROBING, 1, 2 * SECOND, Ok(SHOWN)).state == GRANTED
  {
    Observes();
    Admits();
    assert R.Observed(PROBING, 1, 2 * SECOND, Ok(SHOWN)).Some?;
    hide R.Observed;
    hide R.Admit;
    hide R.ValidInventory;
    RP.FinishKinds(PROBING, 1, 2 * SECOND, Ok(SHOWN));
  }

  lemma Admits()
    ensures R.Registered(SEEN) && R.Admit(SEEN, 2 * SECOND).state == GRANTED
  {
    Asked();
    hide R.ValidRequest;
    var e := R.Expire(SEEN, 2 * SECOND);
    assert e.members == SEEN.members;
    assert e == SEEN;
    assert R.PendingClients(SEEN) == {} && R.BusySessions(SEEN) == {};
    var turn := R.ScanTurn(SEEN, {}, 2 * SECOND);
    assert !R.Blocked(SEEN, MEMBER, {}, 2 * SECOND);
    assert SEEN.order[1..] + [SEEN.order[0]] == [CLIENT];
    assert turn.state.members == GRANTED.members;
    assert turn.state == GRANTED;
    assert R.AdmitScan(GRANTED, 0, 1, {SESSION_ID}, 2 * SECOND) == R.Admission(GRANTED, []);
  }

  lemma Overdue()
    ensures R.Registered(GRANTED) && R.Admit(GRANTED, 32 * SECOND).state == OVERDUE
  {
    var e := R.Expire(GRANTED, 32 * SECOND);
    assert e.members == OVERDUE.members;
    assert e == OVERDUE;
    var turn := R.ScanTurn(OVERDUE, R.BusySessions(OVERDUE), 32 * SECOND);
    assert R.Blocked(OVERDUE, OVERDUE.members[CLIENT], R.BusySessions(OVERDUE), 32 * SECOND);
    assert OVERDUE.order[1..] + [OVERDUE.order[0]] == [CLIENT];
    assert turn.state == OVERDUE;
  }

  lemma ProbesAgain()
    ensures R.BeginProbe(OVERDUE, 32 * SECOND).0 == PROBING_AGAIN
  {
    assert R.Births(OVERDUE.members) == map[CLIENT := 0];
    assert CLIENT in OVERDUE.members;
    assert !R.Settled(OVERDUE.members);
  }

  // ---------------------------------------------------------------- the service's part

  const PEER := S.Peer(7, 9, true, "")

  const CONNECTED := S.NEW_SERVER.(peers := map[0 := PEER], connections := {0})
  const OWNED := S.State(WAITING, map[0 := PEER.(client := CLIENT)], {0}, map[CLIENT := 0])
  const AWAY := S.State(GRANTED, map[0 := PEER.(client := CLIENT, connected := false)], {}, map[CLIENT := 0])

  /** What one event of a run does, given that the invariant holds before. */
  ghost predicate Leads(s: S.State, e: S.Event, t: S.State) {
    S.Inv(s) && S.Step(s, e.op, e.live) == t
  }

  lemma StepLeads(s: S.State, e: S.Event, t: S.State)
    requires Leads(s, e, t)
    ensures S.Inv(t)
  {
    S.StepKeeps(s, e.op, e.live);
    hide S.Inv;
    hide S.Step;
  }

  lemma Connects()
    ensures Leads(S.NEW_SERVER, ACCEPTED, CONNECTED)
  {
    S.NewServerIsSound();
    S.SoundServer(S.NEW_SERVER);
    S.StepIs(S.NEW_SERVER, ACCEPTED.op, LIVE);
    hide S.Inv;
    hide S.Step;
  }

  lemma FrameLeads(s: S.State, e: S.Event, t: S.State)
    requires S.Inv(s) && S.Known(s) && R.Registered(s.model)
    requires e.op.FrameOp? && e.op.id in s.connections && e.op.id in s.peers && S.Alive(s, e.op.id, e.live)
    requires S.Handle(s, e.op.id, e.op.frame, e.op.now, e.live).0 == t
    ensures Leads(s, e, t)
  {
    S.StepIs(s, e.op, e.live);
    hide S.Inv;
    hide S.Step;
    hide S.Handle;
  }

  lemma CloseLeads(s: S.State, e: S.Event, t: S.State)
    requires S.Inv(s) && e.op.CloseOp? && e.op.id in s.connections && e.op.id in s.peers
    requires S.Disconnect(s, e.op.id, e.live, e.op.stopping) == t
    ensures Leads(s, e, t)
  {
    S.SoundServer(s);
    S.StepIs(s, e.op, e.live);
    hide S.Inv;
    hide S.Step;
    hide S.Disconnect;
  }

  lemma Owns()
    requires S.Inv(CONNECTED)
    ensures Leads(CONNECTED, FRAME, OWNED)
  {
    Handles();
    hide S.Inv;
    hide S.Handle;
    hide R.Registered;
    FrameLeads(CONNECTED, FRAME, OWNED);
  }

  lemma Handles()
    ensures S.Known(CONNECTED) && R.Registered(CONNECTED.model)
    ensures S.Handle(CONNECTED, 0, FRAME.op.frame, SECOND, LIVE).0 == OWNED
  {
    Asked();
    Exchanges();
    hide R.Exchange;
    hide R.ValidRequest;
    hide R.Registered;
    assert S.Refusal(CONNECTED, 0, ASKED, LIVE).None?;
    hide S.Refusal;
    assert S.TakeOver(CONNECTED, 0, CLIENT) == CONNECTED;
    assert S.Own(CONNECTED.(model := WAITING), 0, CLIENT) == OWNED;
  }

  lemma Ticks()
    requires S.Inv(OWNED)
    ensures Leads(OWNED, TICK, OWNED.(model := PROBING))
  {
    S.SoundServer(OWNED);
    S.StepIs(OWNED, TICK.op, LIVE);
    Probes();
    hide S.Inv;
    hide S.Step;
    hide R.Admit;
    hide R.BeginProbe;
    hide R.Registered;
    assert S.Bury(OWNED, [], LIVE) == OWNED;
  }

  lemma Sees()
    requires S.Inv(OWNED.(model := PROBING))
    ensures Leads(OWNED.(model := PROBING), OBSERVED, OWNED.(model := GRANTED))
  {
    S.SoundServer(OWNED.(model := PROBING));
    S.StepIs(OWNED.(model := PROBING), OBSERVED.op, LIVE);
    Grants();
    hide S.Inv;
    hide S.Step;
    hide R.FinishProbe;
    hide R.Registered;
  }

  lemma Breaks()
    requires S.Inv(OWNED.(model := GRANTED))
    ensures Leads(OWNED.(model := GRANTED), BROKEN, AWAY)
  {
    Disconnects();
    hide S.Inv;
    hide S.Disconnect;
    CloseLeads(OWNED.(model := GRANTED), BROKEN, AWAY);
  }

  lemma Disconnects()
    ensures S.Disconnect(OWNED.(model := GRANTED), 0, LIVE, false) == AWAY
  {
    Asked();
    hide R.ValidRequest;
    hide R.Remove;
    assert S.Waiting(OWNED.(model := GRANTED), CLIENT);
    assert {0} - {0} == {};
  }

  lemma TicksAgain()
    requires S.Inv(AWAY)
    ensures Leads(AWAY, LATER, AWAY.(model := PROBING_AGAIN))
  {
    S.SoundServer(AWAY);
    S.StepIs(AWAY, LATER.op, LIVE);
    Overdue();
    ProbesAgain();
    hide S.Inv;
    hide S.Step;
    hide R.Admit;
    hide R.BeginProbe;
    hide R.Registered;
    assert S.Bury(AWAY, [], LIVE) == AWAY;
  }

  lemma ShowsNothing()
    ensures S.SeenGone(AWAY.(model := PROBING_AGAIN), GONE.op, CLIENT)
  {
    Asked();
    assert R.ValidInventory(NOTHING);
    hide R.ValidRequest;
  }

  lemma {:induction false} RunOne(s: S.State, e: S.Event, rest: seq<S.Event>, t: S.State)
    requires Leads(s, e, t)
    ensures S.Inv(t) && S.Run(s, [e] + rest) == S.Run(t, rest)
  {
    StepLeads(s, e, t);
    assert ([e] + rest)[0] == e && ([e] + rest)[1..] == rest;
    hide S.Inv;
    hide S.Step;
  }

  lemma SetsUp()
    ensures S.Inv(S.NEW_SERVER) && S.Inv(AWAY) && S.Run(S.NEW_SERVER, SETUP) == AWAY
  {
    assert SETUP == [ACCEPTED] + ([FRAME] + ([TICK] + ([OBSERVED] + ([BROKEN] + []))));
    hide *;
    Connects();
    RunOne(S.NEW_SERVER, ACCEPTED, [FRAME] + ([TICK] + ([OBSERVED] + ([BROKEN] + []))), CONNECTED);
    Owns();
    RunOne(CONNECTED, FRAME, [TICK] + ([OBSERVED] + ([BROKEN] + [])), OWNED);
    Ticks();
    RunOne(OWNED, TICK, [OBSERVED] + ([BROKEN] + []), OWNED.(model := PROBING));
    Sees();
    RunOne(OWNED.(model := PROBING), OBSERVED, [BROKEN] + [], OWNED.(model := GRANTED));
    Breaks();
    RunOne(OWNED.(model := GRANTED), BROKEN, [], AWAY);
    RunNone(AWAY);
    S.NewServerIsSound();
  }

  lemma RunNone(s: S.State)
    requires S.Inv(s)
    ensures S.Run(s, []) == s
  {
  }

  lemma Outage()
    requires S.Inv(AWAY)
    ensures S.UndisturbedRun(AWAY, OUTAGE, 0) && S.SeenGoneDuring(AWAY, OUTAGE, CLIENT)
  {
    assert OUTAGE[0] == LATER && OUTAGE[1..] == [GONE];
    assert LATER.live == GONE.live == LIVE;
    NobodySpeaks();
    hide *;
    TicksAgain();
    StepLeads(AWAY, LATER, AWAY.(model := PROBING_AGAIN));
    ShowsNothing();
    LastEvent(AWAY.(model := PROBING_AGAIN), GONE);
    FirstEvent(AWAY, OUTAGE, AWAY.(model := PROBING_AGAIN));
  }

  lemma NobodySpeaks()
    ensures S.Undisturbed(AWAY, LATER.op, LIVE, 0) && S.Undisturbed(AWAY.(model := PROBING_AGAIN), GONE.op, LIVE, 0)
  {
    assert LATER.op.TickOp? && GONE.op.ProbeOp?;
    assert AWAY.peers[0].process == 9;
  }

  lemma LastEvent(s: S.State, e: S.Event)
    requires S.Inv(s)
    ensures S.SeenGone(s, e.op, CLIENT) ==> S.SeenGoneDuring(s, [e], CLIENT)
    ensures S.Undisturbed(s, e.op, e.live, 0) ==> S.UndisturbedRun(s, [e], 0)
  {
    S.StepKeeps(s, e.op, e.live);
    hide S.Inv;
    hide S.Step;
    hide S.SeenGone;
    hide S.Undisturbed;
    assert [e][1..] == [];
  }

  lemma FirstEvent(s: S.State, events: seq<S.Event>, t: S.State)
    requires events != [] && Leads(s, events[0], t) && S.Inv(t)
    ensures S.SeenGoneDuring(t, events[1..], CLIENT) ==> S.SeenGoneDuring(s, events, CLIENT)
    ensures
      S.Undisturbed(s, events[0].op, events[0].live, 0) && S.UndisturbedRun(t, events[1..], 0)
      ==> S.UndisturbedRun(s, events, 0)
  {
    hide S.Inv;
    hide S.Step;
    hide S.SeenGone;
    hide S.Undisturbed;
  }

  /**
   A slot can be freed while its helper's process lives: in this reachable state a pending
   member's connection is broken, and an outage of the session on the host ends the member.
   */
  lemma BrokenConnectionCanLoseItsSlot()
    ensures S.Inv(S.NEW_SERVER)
    ensures
      var s := S.Run(S.NEW_SERVER, SETUP);
      && S.Away(s, CLIENT, 0) && R.Pending(s.model.members[CLIENT]) && S.UndisturbedRun(s, OUTAGE, 0)
      && S.Away(S.Run(s, OUTAGE), CLIENT, 0)
      && S.Run(s, OUTAGE).model.members[CLIENT].ended && !R.Pending(S.Run(s, OUTAGE).model.members[CLIENT])
  {
    SetsUp();
    Asked();
    assert S.Away(AWAY, CLIENT, 0) && R.Pending(AWAY.model.members[CLIENT]);
    Outage();
    hide *;
    S.BrokenConnectionKeepsSlot(AWAY, OUTAGE, CLIENT, 0);
  }
}
