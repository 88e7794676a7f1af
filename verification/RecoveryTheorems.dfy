/**
 What the reconnect coordinator keeps and promises over whole runs: its invariant, the
 soundness of grants, work-conserving and fair admission, and the discipline of probes.
 */
module RecoveryTheorems {
  import opened Wrappers
  import opened Recovery

  datatype Op =
    | ExchangeOp(r: Request, now: Time)
    | LeaveOp(client: string)
    | TickOp(now: Time)
    | BeginOp(now: Time)
    | FinishOp(sequence: nat, now: Time, observation: Result<Inventory, string>)

  function Step(s: State, op: Op): State
    requires Registered(s)
  {
    match op
    case ExchangeOp(r, now) => Exchange(s, r, now).0
    case LeaveOp(c) => Remove(s, c)
    case TickOp(now) => Admit(s, now).state
    case BeginOp(now) => BeginProbe(s, now).0
    case FinishOp(sequence, now, observation) => FinishProbe(s, sequence, now, observation).state
  }

  ghost function Run(s: State, ops: seq<Op>): (t: State)
    requires Inv(s)
    ensures Inv(t)
    decreases |ops|
  {
    if ops == [] then s
    else
      StepKeeps(s, ops[0]);
      Run(Step(s, ops[0]), ops[1..])
  }

  // ---------------------------------------------------------------- the invariant

  lemma KnownKeeps(s: State, r: Request, now: Time)
    requires Inv(s) && Registered(s) && ValidRequest(r)
    requires r.client !in s.members ==> !TokenTaken(s, r.token)
    ensures Inv(Known(s, r, now))
  {
    hide Inv;
    hide Register;
    hide RequestProbe;
    hide Expire;
    hide TokenTaken;
    var known := if r.client in s.members then s else Register(s, r, now);
    if r.client !in s.members {
      RegisterKeeps(s, r, now);
    }
    RequestProbeKeeps(known, now);
    ExpireKeeps(if r.retry then RequestProbe(known, now) else known, now);
  }

  lemma EventAndNoteKeep(t: State, r: Request, now: Time)
    requires Inv(t) && r.client in t.members && t.members[r.client].sessionID in t.sessions && r.attempt != ""
    requires t.members[r.client].active == "" || r.attempt == t.members[r.client].active
    ensures
      var e := ApplyEvent(t, r, now);
      && Inv(e.state) && (e.Proceed? ==> Inv(NoteConnecting(e.state, r)))
  {
    hide Inv;
    hide Evolves;
    hide NoteConnecting;
    ApplyEventKeeps(t, r, now);
    ActiveAfterEvent(t, r, now);
    hide ApplyEvent;
    var e := ApplyEvent(t, r, now);
    if e.Proceed? {
      NoteConnectingKeeps(e.state, r);
    }
  }

  /** What a report does to the caller's own member; None when it is answered with a resync. */
  function MemberAfterEvent(m: Member, r: Request, now: Time): Option<Member> {
    if r.event == NoEvent then
      Some(if m.active == "" && !m.reset && r.attempt != m.retired then m.(proposed := r.attempt) else m)
    else if r.event == LostEvent && r.attempt == m.retired then
      Some(if m.active == "" then m.(reset := false) else m)
    else if r.attempt != m.active || m.active == "" then None
    else if r.event == ReadyEvent then
      if !m.ready && (m.reset || now >= m.deadline) then None else Some(m.(ready := true))
    else Some(m.(retired := m.active, active := "", ready := false, reset := false))
  }

  lemma EventMember(t: State, r: Request, now: Time)
    requires r.client in t.members && t.members[r.client].sessionID in t.sessions
    ensures
      var e := ApplyEvent(t, r, now);
      var n := MemberAfterEvent(t.members[r.client], r, now);
      && e.state.members.Keys == t.members.Keys
      && (e.Proceed? <==> n.Some?) && (e.Resync? ==> e.state == t)
      && (n.Some? ==> e.state.members == t.members[r.client := n.value])
  {
    hide Registered;
    hide RecoveryDelay;
    hide SetMember;
    hide SetRetry;
    hide RequestProbe;
    assert t.members[r.client := t.members[r.client]] == t.members;
  }

  lemma ActiveAfterEvent(t: State, r: Request, now: Time)
    requires r.client in t.members && t.members[r.client].sessionID in t.sessions
    requires t.members[r.client].active == "" || r.attempt == t.members[r.client].active
    ensures
      var m := ApplyEvent(t, r, now).state.members[r.client];
      m.active == "" || r.attempt == m.active
  {
    EventMember(t, r, now);
    hide ApplyEvent;
  }

  lemma BeforeAdmissionKeeps(s: State, r: Request, now: Time)
    requires Inv(s) && Registered(s)
    ensures
      var e := BeforeAdmission(s, r, now);
      !e.Refused? ==> Inv(e.state)
  {
    hide Inv;
    hide Known;
    hide ApplyEvent;
    hide NoteConnecting;
    hide SameIdentity;
    hide Registered;
    if !BeforeAdmission(s, r, now).Refused? {
      KnownKeeps(s, r, now);
      var t := Known(s, r, now);
      InvMember(t, r.client);
      if t.members[r.client].active == "" || r.attempt == t.members[r.client].active {
        EventAndNoteKeep(t, r, now);
      }
    }
  }

  lemma ExchangeKeeps(s: State, r: Request, now: Time)
    requires Inv(s) && Registered(s)
    ensures Inv(Exchange(s, r, now).0)
  {
    hide Inv;
    hide BeforeAdmission;
    hide MakeReply;
    hide Admit;
    hide Registered;
    BeforeAdmissionKeeps(s, r, now);
    var e := BeforeAdmission(s, r, now);
    if e.Proceed? {
      AdmitKeeps(e.state, now);
    }
  }

  lemma FinishProbeKeeps(s: State, sequence: nat, now: Time, observation: Result<Inventory, string>)
    requires Inv(s) && Registered(s)
    ensures Inv(FinishProbe(s, sequence, now, observation).state)
  {
    hide Inv;
    hide Evolves;
    hide FailedProbe;
    hide Registered;
    hide Admit;
    hide ValidInventory;
    if observation.Err? {
      FailedProbeKeeps(s, now, observation.error);
    } else {
      FailedProbeKeeps(s, now, INVALID_INVENTORY);
      if Observed(s, sequence, now, observation).Some? {
        ObservedKeeps(s, sequence, now, observation);
        AdmitKeeps(Observed(s, sequence, now, observation).value, now);
      }
    }
  }

  lemma StepIs(s: State, op: Op)
    requires Registered(s)
    ensures Step(s, op) ==
      match op
      case ExchangeOp(r, now) => Exchange(s, r, now).0
      case LeaveOp(c) => Remove(s, c)
      case TickOp(now) => Admit(s, now).state
      case BeginOp(now) => BeginProbe(s, now).0
      case FinishOp(sequence, now, observation) => FinishProbe(s, sequence, now, observation).state
  {
    hide Registered;
    hide Exchange;
    hide FinishProbe;
    hide Admit;
    hide BeginProbe;
    hide Remove;
  }

  /** The coordinator's invariant holds initially and is kept by every operation. */
  lemma StepKeeps(s: State, op: Op)
    requires Inv(s)
    ensures Registered(s) && Inv(Step(s, op))
  {
    InvFacts(s);
    StepIs(s, op);
    hide *;
    match op
    case ExchangeOp(r, now) => ExchangeKeeps(s, r, now);
    case LeaveOp(c) => RemoveKeeps(s, c);
    case TickOp(now) => AdmitKeeps(s, now);
    case BeginOp(now) => BeginProbeKeeps(s, now);
    case FinishOp(sequence, now, observation) => FinishProbeKeeps(s, sequence, now, observation);
  }

  lemma InitialState()
    ensures Inv(NEW_STATE)
  {
    assert PendingClients(NEW_STATE) == {};
  }

  /**
   In every reachable state at most two members are pending and at most one per session, the
   queue lists exactly the members, retry entries are exactly their sessions, tokens are
   distinct, ready members are active and not reset, ended members have no attempt, and no
   active attempt is the retired one.
   */
  lemma ReachableStatesAreSound(ops: seq<Op>)
    ensures Inv(NEW_STATE) && Inv(Run(NEW_STATE, ops))
  {
    InitialState();
  }

  // ---------------------------------------------------------------- what admission does

  /** An admission either leaves a member alone or grants its proposal until 15 seconds from now. */
  ghost predicate MaybeActivated(m: Member, n: Member, now: Time) {
    || n == m
    || (m.active == "" && !m.ended && !m.reset && m.proposed != m.retired
        && n == m.(active := m.proposed, deadline := now + 15 * SECOND))
  }

  lemma TurnMember(s: State, busy: set<string>, now: Time, c: string)
    requires Registered(s) && s.order != [] && c in s.members
    ensures
      var t := ScanTurn(s, busy, now).state;
      t == s.(members := t.members, order := t.order) && MaybeActivated(s.members[c], t.members[c], now)
  {
  }

  lemma ActivatedOnce(m: Member, n: Member, k: Member, now: Time)
    requires MaybeActivated(m, n, now) && MaybeActivated(n, k, now) && m.proposed != ""
    ensures MaybeActivated(m, k, now) && n.proposed == m.proposed
  {
  }

  lemma {:induction false} ScanMember(s: State, fuel: nat, pending: nat, busy: set<string>, now: Time, c: string)
    requires Registered(s) && fuel <= |s.order| && c in s.members && s.members[c].proposed != ""
    ensures
      var t := AdmitScan(s, fuel, pending, busy, now).state;
      && t == s.(members := t.members, order := t.order)
      && c in t.members && MaybeActivated(s.members[c], t.members[c], now)
    decreases fuel
  {
    hide Registered;
    hide ScanTurn;
    hide BusyAfter;
    if fuel > 0 && pending < 2 {
      var turn := ScanTurn(s, busy, now);
      TurnMember(s, busy, now, c);
      var m, n := s.members[c], turn.state.members[c];
      ActivatedOnce(m, n, n, now);
      hide MaybeActivated;
      ScanMember(turn.state, fuel - 1, pending + |turn.admitted|, BusyAfter(s, busy, turn), now, c);
      ActivatedOnce(m, n, AdmitScan(s, fuel, pending, busy, now).state.members[c], now);
    }
  }

  lemma AdmitMember(s: State, now: Time, c: string)
    requires Registered(s) && c in s.members && s.members[c].proposed != ""
    ensures
      var t := Admit(s, now).state;
      && t == s.(members := t.members, order := t.order)
      && c in t.members && MaybeActivated(ExpireMember(s.members[c], now), t.members[c], now)
  {
    var e := Expire(s, now);
    hide AdmitScan;
    hide Registered;
    if e.available {
      ScanMember(e, |e.order|, |PendingClients(e)|, BusySessions(e), now, c);
    }
  }

  // ---------------------------------------------------------------- grants

  /** The caller's own member before admission, when nothing forces a resync. */
  lemma ProceedMember(s: State, r: Request, now: Time)
    requires Inv(s) && Registered(s) && BeforeAdmission(s, r, now).Proceed?
    ensures
      var m := BeforeAdmission(s, r, now).state.members[r.client];
      && MemberInv(m)
      && (Pending(m) && !m.reset && r.attempt != m.retired ==> m.active == r.attempt && r.event == NoEvent)
      && (m.active == "" && !m.reset && r.attempt != m.retired ==> m.proposed == r.attempt && r.event == NoEvent)
  {
    hide Inv;
    hide Known;
    hide Registered;
    hide SameIdentity;
    hide TokenTaken;
    BeforeAdmissionKeeps(s, r, now);
    InvMember(BeforeAdmission(s, r, now).state, r.client);
    KnownKeeps(s, r, now);
    var t := Known(s, r, now);
    InvMember(t, r.client);
    EventMember(t, r, now);
    hide ApplyEvent;
  }

  /**
   Grant soundness: a grant names the caller's own attempt, its deadline is still ahead, its
   member is neither ended nor reset and did not retire that attempt, and it really occupies a
   pending slot; a request that reports an event is never answered with a grant.
   */
  lemma GrantsAreSound(s: State, r: Request, now: Time)
    requires Inv(s) && Registered(s)
    ensures
      var (t, reply) := Exchange(s, r, now);
      reply.Ok? && reply.value.grant.Some? ==>
        var g := reply.value.grant.value;
        && r.event == NoEvent && g.attempt == r.attempt && now < g.deadline
        && r.client in t.members
        && var m := t.members[r.client];
           !m.ended && !m.reset && m.retired != r.attempt && m.active == r.attempt && !m.ready
           && m.deadline == g.deadline && !reply.value.reset && reply.value.cancelAttempt == ""
  {
    hide Inv;
    hide Registered;
    hide BeforeAdmission;
    hide Admit;
    var e := BeforeAdmission(s, r, now);
    if e.Proceed? {
      ProceedMember(s, r, now);
      AdmitMember(e.state, now, r.client);
    }
  }

  // ---------------------------------------------------------------- ended is permanent

  /**
   A member of the next state is either newly registered, under a new identity, or it is a
   member of the previous state that has not come back from being ended.
   */
  ghost predicate Persists(s: State, t: State) {
    && s.births <= t.births
    && forall c <- t.members ::
         || s.births <= t.members[c].birth < t.births
         || (c in s.members && t.members[c].birth == s.members[c].birth
             && t.members[c].sessionID == s.members[c].sessionID && t.members[c].session == s.members[c].session
             && (s.members[c].ended ==> t.members[c].ended))
  }

  lemma EvolvesPersists(s: State, t: State)
    requires Evolves(s, t)
    ensures Persists(s, t)
  {
    hide Pending;
  }

  lemma PersistsTransitive(s: State, t: State, u: State)
    requires Persists(s, t) && Persists(t, u)
    ensures Persists(s, u)
  {
  }

  lemma AdmitPersists(s: State, now: Time)
    requires Inv(s) && Registered(s)
    ensures Persists(s, Admit(s, now).state)
  {
    hide Admit;
    hide Registered;
    AdmitKeys(s, now);
    AdmitFrame(s, now);
    var t := Admit(s, now).state;
    forall c <- t.members ensures PersistentMember(s.members[c], t.members[c]) {
      AdmitKeepsMember(s, now, c);
    }
  }

  ghost predicate PersistentMember(m: Member, n: Member) {
    n.birth == m.birth && n.sessionID == m.sessionID && n.session == m.session && (m.ended ==> n.ended)
  }

  lemma AdmitKeepsMember(s: State, now: Time, c: string)
    requires Inv(s) && Registered(s) && c in s.members
    ensures c in Admit(s, now).state.members && PersistentMember(s.members[c], Admit(s, now).state.members[c])
  {
    hide *;
    InvMember(s, c);
    ProposedNotEmpty(s.members[c]);
    AdmitMember(s, now, c);
    ActivatedPersists(s.members[c], Admit(s, now).state.members[c], now);
  }

  lemma ProposedNotEmpty(m: Member)
    requires MemberInv(m)
    ensures m.proposed != ""
  {
  }

  lemma ActivatedPersists(m: Member, n: Member, now: Time)
    requires MaybeActivated(ExpireMember(m, now), n, now)
    ensures PersistentMember(m, n)
  {
  }

  lemma AdmitKeys(s: State, now: Time)
    requires Registered(s)
    ensures Admit(s, now).state.members.Keys == s.members.Keys
  {
    var e := Expire(s, now);
    AdmitScanKeepsMembers(e, |e.order|, |PendingClients(e)|, BusySessions(e), now);
  }

  lemma TurnFrame(s: State, busy: set<string>, now: Time)
    requires Registered(s) && s.order != []
    ensures
      var t := ScanTurn(s, busy, now).state;
      t == s.(members := t.members, order := t.order)
  {
    var c := s.order[0];
    assert c in s.members;
    ActivateFrame(s.(order := Rotate(s.order)), c, now);
    hide Blocked;
    hide Rotate;
    hide Registered;
    hide Activate;
  }

  lemma ActivateFrame(s: State, c: string, now: Time)
    requires c in s.members
    ensures Activate(s, c, now) == s.(members := Activate(s, c, now).members)
  {
  }

  lemma {:induction false} ScanFrame(s: State, fuel: nat, pending: nat, busy: set<string>, now: Time)
    requires Registered(s) && fuel <= |s.order|
    ensures
      var t := AdmitScan(s, fuel, pending, busy, now).state;
      t == s.(members := t.members, order := t.order)
    decreases fuel
  {
    hide Registered;
    hide ScanTurn;
    hide BusyAfter;
    if fuel > 0 && pending < 2 {
      var turn := ScanTurn(s, busy, now);
      TurnFrame(s, busy, now);
      ScanFrame(turn.state, fuel - 1, pending + |turn.admitted|, BusyAfter(s, busy, turn), now);
    }
  }

  /** Admission touches nothing but the members and the queue. */
  lemma AdmitFrame(s: State, now: Time)
    requires Registered(s)
    ensures
      var t := Admit(s, now).state;
      t == s.(members := t.members, order := t.order)
  {
    var e := Expire(s, now);
    hide AdmitScan;
    hide Registered;
    if e.available {
      ScanFrame(e, |e.order|, |PendingClients(e)|, BusySessions(e), now);
    }
  }

  lemma RegisterPersists(s: State, r: Request, now: Time)
    requires r.client !in s.members
    ensures Persists(s, Register(s, r, now))
  {
    NewMemberIdentity(s, r);
    hide NewMember;
    hide Registered;
  }

  lemma KnownPersists(s: State, r: Request, now: Time)
    requires Inv(s) && Registered(s) && ValidRequest(r)
    requires r.client !in s.members ==> !TokenTaken(s, r.token)
    ensures Persists(s, Known(s, r, now))
  {
    hide Inv;
    hide Register;
    hide RequestProbe;
    hide Expire;
    hide TokenTaken;
    hide Persists;
    hide Evolves;
    hide Registered;
    var known := if r.client in s.members then s else Register(s, r, now);
    if r.client !in s.members {
      RegisterKeeps(s, r, now);
      RegisterPersists(s, r, now);
    } else {
      Reflexive(s);
      EvolvesPersists(s, s);
    }
    var asked := if r.retry then RequestProbe(known, now) else known;
    RequestProbeKeeps(known, now);
    Reflexive(known);
    EvolvesPersists(known, asked);
    ExpireKeeps(asked, now);
    EvolvesPersists(asked, Expire(asked, now));
    PersistsTransitive(s, known, asked);
    PersistsTransitive(s, asked, Expire(asked, now));
  }

  lemma EventAndNotePersist(t: State, r: Request, now: Time)
    requires Inv(t) && r.client in t.members && t.members[r.client].sessionID in t.sessions && r.attempt != ""
    requires t.members[r.client].active == "" || r.attempt == t.members[r.client].active
    ensures
      var e := ApplyEvent(t, r, now);
      && Persists(t, e.state) && (e.Proceed? ==> Persists(t, NoteConnecting(e.state, r)))
  {
    hide Inv;
    hide Evolves;
    hide NoteConnecting;
    hide Persists;
    hide Registered;
    ApplyEventKeeps(t, r, now);
    ActiveAfterEvent(t, r, now);
    hide ApplyEvent;
    var e := ApplyEvent(t, r, now);
    EvolvesPersists(t, e.state);
    if e.Proceed? {
      NoteConnectingKeeps(e.state, r);
      EvolvesTransitive(t, e.state, NoteConnecting(e.state, r));
      EvolvesPersists(t, NoteConnecting(e.state, r));
    }
  }

  lemma BeforeAdmissionPersists(s: State, r: Request, now: Time)
    requires Inv(s) && Registered(s) && !BeforeAdmission(s, r, now).Refused?
    ensures Persists(s, BeforeAdmission(s, r, now).state)
  {
    hide Inv;
    hide Known;
    hide ApplyEvent;
    hide NoteConnecting;
    hide SameIdentity;
    hide Registered;
    hide Persists;
    hide TokenTaken;
    KnownKeeps(s, r, now);
    KnownPersists(s, r, now);
    var t := Known(s, r, now);
    InvMember(t, r.client);
    if t.members[r.client].active == "" || r.attempt == t.members[r.client].active {
      EventAndNotePersist(t, r, now);
      var e := ApplyEvent(t, r, now);
      PersistsTransitive(s, t, if e.Proceed? then NoteConnecting(e.state, r) else e.state);
    }
  }

  lemma ExchangePersists(s: State, r: Request, now: Time)
    requires Inv(s) && Registered(s)
    ensures Persists(s, Exchange(s, r, now).0)
  {
    hide Inv;
    hide BeforeAdmission;
    hide MakeReply;
    hide Admit;
    hide Registered;
    hide Persists;
    hide Evolves;
    var e := BeforeAdmission(s, r, now);
    if e.Refused? {
      Reflexive(s);
      EvolvesPersists(s, s);
    } else {
      BeforeAdmissionKeeps(s, r, now);
      BeforeAdmissionPersists(s, r, now);
      if e.Proceed? {
        AdmitPersists(e.state, now);
        PersistsTransitive(s, e.state, Admit(e.state, now).state);
      }
    }
  }

  lemma FinishProbePersists(s: State, sequence: nat, now: Time, observation: Result<Inventory, string>)
    requires Inv(s) && Registered(s)
    ensures Persists(s, FinishProbe(s, sequence, now, observation).state)
  {
    hide Inv;
    hide Evolves;
    hide FailedProbe;
    hide Registered;
    hide Admit;
    hide ValidInventory;
    hide Persists;
    Reflexive(s);
    EvolvesPersists(s, s);
    if observation.Err? {
      FailedProbeKeeps(s, now, observation.error);
      EvolvesPersists(s, FailedProbe(s, now, observation.error));
    } else {
      FailedProbeKeeps(s, now, INVALID_INVENTORY);
      EvolvesPersists(s, FailedProbe(s, now, INVALID_INVENTORY));
      if Observed(s, sequence, now, observation).Some? {
        var t := Observed(s, sequence, now, observation).value;
        ObservedKeeps(s, sequence, now, observation);
        EvolvesPersists(s, t);
        AdmitPersists(t, now);
        PersistsTransitive(s, t, Admit(t, now).state);
      }
    }
  }

  lemma StepPersists(s: State, op: Op)
    requires Inv(s) && Registered(s)
    ensures Persists(s, Step(s, op))
  {
    StepIs(s, op);
    hide *;
    match op
    case ExchangeOp(r, now) => ExchangePersists(s, r, now);
    case LeaveOp(c) => RemovePersists(s, c);
    case TickOp(now) => AdmitPersists(s, now);
    case BeginOp(now) =>
      BeginProbeKeeps(s, now);
      EvolvesPersists(s, BeginProbe(s, now).0);
    case FinishOp(sequence, now, observation) => FinishProbePersists(s, sequence, now, observation);
  }

  lemma RemovePersists(s: State, c: string)
    ensures Persists(s, Remove(s, c))
  {
  }

  lemma {:induction false} RunPersists(s: State, ops: seq<Op>)
    requires Inv(s)
    ensures Persists(s, Run(s, ops))
    decreases |ops|
  {
    hide Inv;
    hide Persists;
    hide Step;
    if ops == [] {
      Reflexive(s);
      EvolvesPersists(s, s);
    } else {
      StepKeeps(s, ops[0]);
      StepPersists(s, ops[0]);
      RunPersists(Step(s, ops[0]), ops[1..]);
      PersistsTransitive(s, Step(s, ops[0]), Run(Step(s, ops[0]), ops[1..]));
    }
  }

  /** Ended is permanent: whatever happens, that registration never comes back to life. */
  lemma EndedForever(s: State, ops: seq<Op>, c: string)
    requires Inv(s) && c in s.members && s.members[c].ended
    ensures
      var t := Run(s, ops);
      c in t.members && t.members[c].birth == s.members[c].birth ==>
        t.members[c].ended && t.members[c].active == ""
  {
    RunPersists(s, ops);
    var t := Run(s, ops);
    hide Run;
    assert s.members[c].birth < s.births;
    if c in t.members {
      InvMember(t, c);
    }
  }

  // ---------------------------------------------------------------- admission is work-conserving

  ghost predicate BlockedFrom(s: State, from: nat, busy: set<string>, now: Time)
    requires Registered(s)
  {
    forall i :: from <= i < |s.order| ==> Blocked(s, s.members[s.order[i]], busy, now)
  }

  lemma ActivatedIsBlocked(s: State, c: string, busy: set<string>, now: Time)
    requires c in s.members && s.members[c].sessionID in s.sessions && s.members[c].proposed != ""
    ensures
      var t := Activate(s, c, now);
      t.members[c].sessionID in t.sessions && Blocked(t, t.members[c], busy, now)
  {
  }

  lemma TurnBlocks(s: State, from: nat, busy: set<string>, now: Time)
    requires Registered(s) && 0 < from <= |s.order| && NoDuplicates(s.order)
    requires s.members[s.order[0]].proposed != ""
    requires BlockedFrom(s, from, busy, now)
    ensures
      var turn := ScanTurn(s, busy, now);
      BlockedFrom(turn.state, from - 1, BusyAfter(s, busy, turn), now)
  {
    var turn := ScanTurn(s, busy, now);
    var after := BusyAfter(s, busy, turn);
    var c := s.order[0];
    ActivatedIsBlocked(s.(order := Rotate(s.order)), c, after, now);
    forall i | from - 1 <= i < |turn.state.order|
      ensures Blocked(turn.state, turn.state.members[turn.state.order[i]], after, now)
    {
      if i + 1 < |s.order| {
        assert turn.state.order[i] == s.order[i + 1];
        assert Blocked(s, s.members[s.order[i + 1]], busy, now);
      } else {
        assert turn.state.order[i] == c;
      }
    }
  }

  lemma {:induction false} ScanConserves(s: State, fuel: nat, now: Time)
    requires Inv(s) && Registered(s) && fuel <= |s.order|
    requires BlockedFrom(s, fuel, BusySessions(s), now)
    ensures
      var t := AdmitScan(s, fuel, |PendingClients(s)|, BusySessions(s), now).state;
      && Inv(t) && Registered(t)
      && (|PendingClients(t)| >= 2 || BlockedFrom(t, 0, BusySessions(t), now))
    decreases fuel
  {
    hide Inv;
    hide Registered;
    hide ScanTurn;
    hide BusyAfter;
    hide PendingClients;
    hide BusySessions;
    hide BlockedFrom;
    if fuel > 0 && |PendingClients(s)| < 2 {
      HeadProposes(s);
      TurnBlocks(s, fuel, BusySessions(s), now);
      ScanTurnKeeps(s, now);
      ScanConserves(ScanTurn(s, BusySessions(s), now).state, fuel - 1, now);
    }
  }

  lemma HeadProposes(s: State)
    requires Inv(s) && Registered(s) && s.order != []
    ensures s.members[s.order[0]].proposed != "" && NoDuplicates(s.order)
  {
    InvMember(s, s.order[0]);
  }

  lemma NothingBlockedBeyond(s: State, busy: set<string>, now: Time)
    requires Registered(s)
    ensures BlockedFrom(s, |s.order|, busy, now)
  {
  }

  lemma EveryMemberQueued(s: State, busy: set<string>, now: Time, c: string)
    requires Inv(s) && Registered(s) && BlockedFrom(s, 0, busy, now) && c in s.members
    ensures Blocked(s, s.members[c], busy, now)
  {
    hide Blocked;
    var i :| 0 <= i < |s.order| && s.order[i] == c;
  }

  /** After an admission either both slots are taken or nobody is eligible. */
  lemma AdmissionIsWorkConserving(s: State, now: Time, c: string)
    requires Inv(s) && Registered(s)
    ensures
      var t := Admit(s, now).state;
      && Inv(t) && Registered(t)
      && (t.available && c in t.members ==>
            |PendingClients(t)| == 2 || Blocked(t, t.members[c], BusySessions(t), now))
  {
    AdmitKeeps(s, now);
    ExpireKeeps(s, now);
    AdmitFrame(s, now);
    var e := Expire(s, now);
    var t := Admit(s, now).state;
    InvFacts(e);
    InvFacts(t);
    SlotsBound(t);
    hide Inv;
    hide Registered;
    hide AdmitScan;
    hide PendingClients;
    hide BusySessions;
    hide BlockedFrom;
    if t.available && c in t.members {
      NothingBlockedBeyond(e, BusySessions(e), now);
      ScanConserves(e, |e.order|, now);
      if |PendingClients(t)| < 2 {
        EveryMemberQueued(t, BusySessions(t), now, c);
      }
    }
  }

  lemma SlotsBound(s: State)
    requires Inv(s)
    ensures |PendingClients(s)| <= 2
  {
  }

  // ---------------------------------------------------------------- admission is fair

  function Position(q: seq<string>, c: string): nat {
    if q == [] || q[0] == c then 0 else 1 + Position(q[1..], c)
  }

  /** Eligible in itself, and alone on its session. */
  ghost predicate Waiting(s: State, c: string, now: Time) {
    && c in s.members && s.members[c].sessionID in s.sessions
    && !Blocked(s, s.members[c], {}, now)
    && forall d <- s.members :: d != c ==> s.members[d].sessionID != s.members[c].sessionID
  }

  lemma {:induction false} PositionAppend(q: seq<string>, more: seq<string>, c: string)
    requires c in q
    ensures Position(q + more, c) == Position(q, c) < |q|
  {
    if q[0] != c {
      assert (q + more)[1..] == q[1..] + more;
      PositionAppend(q[1..], more, c);
    }
  }

  lemma PositionRotate(q: seq<string>, c: string)
    requires q != [] && c in q && q[0] != c
    ensures Position(Rotate(q), c) == Position(q, c) - 1
  {
    PositionAppend(q[1..], [q[0]], c);
  }

  lemma {:induction false} PositionWithout(q: seq<string>, d: string, c: string)
    requires c in q && d != c
    ensures c in Without(q, d) && Position(Without(q, d), c) <= Position(q, c)
  {
    if q[0] == c {
      assert Without(q, d)[0] == c;
    } else if q[0] == d {
    } else {
      PositionWithout(q[1..], d, c);
      assert Without(q, d)[1..] == Without(q[1..], d);
    }
  }

  /** A turn brings a waiting member one place closer, at the price of at most one admission. */
  lemma TurnFair(s: State, now: Time, c: string)
    requires Registered(s) && s.order != [] && Waiting(s, c, now) && c in s.order
    ensures
      var turn := ScanTurn(s, BusySessions(s), now);
      if s.order[0] == c then turn.admitted == [c]
      else
        && c !in turn.admitted && |turn.admitted| <= 1
        && Waiting(turn.state, c, now) && c in turn.state.order
        && Position(turn.state.order, c) == Position(s.order, c) - 1
  {
    hide Registered;
    if s.order[0] == c {
      NotBusy(s, c, now);
      hide *;
      TurnAdmits(s, BusySessions(s), now);
    } else {
      hide *;
      PositionRotate(s.order, c);
      TurnOrder(s, BusySessions(s), now, c);
      TurnKeepsWaiting(s, BusySessions(s), now, c);
    }
  }

  lemma TurnAdmits(s: State, busy: set<string>, now: Time)
    requires Registered(s) && s.order != [] && !Blocked(s, s.members[s.order[0]], busy, now)
    ensures ScanTurn(s, busy, now).admitted == [s.order[0]]
  {
  }

  lemma TurnKeepsWaiting(s: State, busy: set<string>, now: Time, c: string)
    requires Registered(s) && s.order != [] && Waiting(s, c, now) && s.order[0] != c
    ensures
      var turn := ScanTurn(s, busy, now);
      && c !in turn.admitted && |turn.admitted| <= 1 && turn.state.order == Rotate(s.order)
      && Waiting(turn.state, c, now)
  {
  }

  lemma NotBusy(s: State, c: string, now: Time)
    requires Waiting(s, c, now)
    ensures !Blocked(s, s.members[c], BusySessions(s), now)
  {
  }

  lemma {:induction false} ScanFair(s: State, fuel: nat, now: Time, c: string)
    requires Inv(s) && Registered(s) && fuel <= |s.order| && c in s.order
    requires Waiting(s, c, now) && Position(s.order, c) < fuel
    ensures
      var r := AdmitScan(s, fuel, |PendingClients(s)|, BusySessions(s), now);
      && c in r.state.order
      && if c in r.admitted then Position(r.admitted, c) <= Position(s.order, c)
         else |r.admitted| + Position(r.state.order, c) <= Position(s.order, c)
    decreases fuel
  {
    hide Inv;
    hide Registered;
    hide ScanTurn;
    hide BusyAfter;
    hide PendingClients;
    hide BusySessions;
    hide Waiting;
    if |PendingClients(s)| < 2 {
      TurnFair(s, now, c);
      ScanTurnKeeps(s, now);
      var turn := ScanTurn(s, BusySessions(s), now);
      var rest := AdmitScan(turn.state, fuel - 1, |PendingClients(turn.state)|, BusySessions(turn.state), now);
      if s.order[0] != c {
        ScanFair(turn.state, fuel - 1, now, c);
        AppendPosition(turn.admitted, rest.admitted, c);
      } else {
        ScanOrder(s, fuel, |PendingClients(s)|, BusySessions(s), now, c);
        assert Position(turn.admitted + rest.admitted, c) == 0;
      }
    }
  }

  lemma {:induction false} AppendPosition(a: seq<string>, b: seq<string>, c: string)
    requires c !in a
    ensures Position(a + b, c) == |a| + Position(b, c)
  {
    if a == [] {
      assert a + b == b;
    } else {
      assert (a + b)[1..] == a[1..] + b;
      AppendPosition(a[1..], b, c);
    }
  }

  lemma TurnOrder(s: State, busy: set<string>, now: Time, c: string)
    requires Registered(s) && s.order != [] && c in s.order
    ensures c in ScanTurn(s, busy, now).state.order
  {
    assert s.order == [s.order[0]] + s.order[1..];
  }

  lemma {:induction false} ScanOrder(s: State, fuel: nat, pending: nat, busy: set<string>, now: Time, c: string)
    requires Registered(s) && fuel <= |s.order| && c in s.order
    ensures c in AdmitScan(s, fuel, pending, busy, now).state.order
    decreases fuel
  {
    hide Registered;
    hide ScanTurn;
    hide BusyAfter;
    if fuel > 0 && pending < 2 {
      var turn := ScanTurn(s, busy, now);
      TurnOrder(s, busy, now, c);
      ScanOrder(turn.state, fuel - 1, pending + |turn.admitted|, BusyAfter(s, busy, turn), now, c);
    }
  }

  /** The state in which an operation turns to admission, if it does. */
  function AdmissionPoint(s: State, op: Op): (p: Option<(State, Time)>)
    requires Registered(s)
    ensures p.Some? ==> Registered(p.value.0)
  {
    match op
    case ExchangeOp(r, now) =>
      var e := BeforeAdmission(s, r, now);
      if e.Proceed? then Some((e.state, now)) else None
    case TickOp(now) => Some((s, now))
    case FinishOp(sequence, now, observation) =>
      var o := Observed(s, sequence, now, observation);
      if o.Some? then Some((o.value, now)) else None
    case _ => None
  }

  function AdmittedBy(s: State, op: Op): seq<string>
    requires Registered(s)
  {
    var p := AdmissionPoint(s, op);
    if p.None? then [] else Admit(p.value.0, p.value.1).admitted
  }

  /** From now on, until it is admitted, c stays registered and is eligible whenever members are admitted. */
  ghost predicate StaysEligible(s: State, ops: seq<Op>, c: string)
    requires Inv(s)
    decreases |ops|
  {
    ops == [] ||
    (StepKeeps(s, ops[0]);
     var p := AdmissionPoint(s, ops[0]);
     && c in Step(s, ops[0]).members
     && (p.Some? && p.value.0.available ==> Waiting(Expire(p.value.0, p.value.1), c, p.value.1))
     && (c in AdmittedBy(s, ops[0]) || StaysEligible(Step(s, ops[0]), ops[1..], c)))
  }

  /** How many others are admitted before c is. */
  ghost function Overtakers(s: State, ops: seq<Op>, c: string): nat
    requires Inv(s)
    decreases |ops|
  {
    if ops == [] then 0
    else
      StepKeeps(s, ops[0]);
      var admitted := AdmittedBy(s, ops[0]);
      if c in admitted then Position(admitted, c)
      else |admitted| + Overtakers(Step(s, ops[0]), ops[1..], c)
  }

  /** One admission, from the caller's queue position. */
  lemma AdmitFair(s: State, now: Time, c: string)
    requires Inv(s) && Registered(s) && c in s.order
    requires s.available ==> Waiting(Expire(s, now), c, now)
    ensures
      var r := Admit(s, now);
      && c in r.state.order
      && if c in r.admitted then Position(r.admitted, c) <= Position(s.order, c)
         else |r.admitted| + Position(r.state.order, c) <= Position(s.order, c)
  {
    hide Inv;
    hide Registered;
    hide Waiting;
    hide PendingClients;
    hide BusySessions;
    ExpireKeeps(s, now);
    PositionAppend(s.order, [], c);
    if s.available {
      ScanFair(Expire(s, now), |s.order|, now, c);
    }
  }

  /** Nothing but an admission moves a registered member back in the queue. */
  lemma BeforeAdmissionOrder(s: State, r: Request, now: Time, c: string)
    requires Registered(s) && c in s.order && !BeforeAdmission(s, r, now).Refused?
    ensures
      var t := BeforeAdmission(s, r, now).state;
      c in t.order && Position(t.order, c) == Position(s.order, c)
  {
    var e := BeforeAdmission(s, r, now);
    OrderOfExchange(s, r, now);
    hide BeforeAdmission;
    if e.state.order == s.order + [r.client] {
      PositionAppend(s.order, [r.client], c);
    }
  }

  lemma OrderOfExchange(s: State, r: Request, now: Time)
    requires Registered(s) && !BeforeAdmission(s, r, now).Refused?
    ensures BeforeAdmission(s, r, now).state.order in {s.order, s.order + [r.client]}
  {
    hide RecoveryDelay;
    hide SameIdentity;
    hide TokenTaken;
    hide ValidRequest;
    hide Known;
    hide ApplyEvent;
    hide NoteConnecting;
    hide Registered;
    var t := Known(s, r, now);
    RegisteredSession(t, r.client);
    OrderOfKnown(s, r, now);
    OrderOfEvent(t, r, now);
  }

  lemma RegisteredSession(s: State, c: string)
    requires Registered(s) && c in s.members
    ensures s.members[c].sessionID in s.sessions
  {
  }

  lemma OrderOfKnown(s: State, r: Request, now: Time)
    requires Registered(s)
    ensures Known(s, r, now).order in {s.order, s.order + [r.client]}
  {
    hide NewMember;
    hide Registered;
  }

  lemma OrderOfEvent(t: State, r: Request, now: Time)
    requires r.client in t.members && t.members[r.client].sessionID in t.sessions
    ensures
      var e := ApplyEvent(t, r, now);
      e.state.order == t.order && (e.Proceed? ==> NoteConnecting(e.state, r).order == t.order)
  {
    hide Registered;
    hide RecoveryDelay;
  }

  /** After one operation c is as many places further as others were admitted before it. */
  ghost predicate FairStep(before: seq<string>, admitted: seq<string>, after: seq<string>, c: string) {
    && c in after
    && if c in admitted then Position(admitted, c) <= Position(before, c)
       else |admitted| + Position(after, c) <= Position(before, c)
  }

  lemma SamePositionIsFair(before: seq<string>, after: seq<string>, c: string)
    requires c in after && Position(after, c) <= Position(before, c)
    ensures FairStep(before, [], after, c)
  {
  }

  lemma SoonerIsFair(before: seq<string>, middle: seq<string>, admitted: seq<string>, after: seq<string>, c: string)
    requires Position(middle, c) <= Position(before, c) && FairStep(middle, admitted, after, c)
    ensures FairStep(before, admitted, after, c)
  {
  }

  lemma AdmitIsFair(s: State, now: Time, c: string)
    requires Inv(s) && Registered(s) && c in s.order
    requires s.available ==> Waiting(Expire(s, now), c, now)
    ensures FairStep(s.order, Admit(s, now).admitted, Admit(s, now).state.order, c)
  {
    hide Inv;
    hide Registered;
    hide Waiting;
    hide Admit;
    hide Expire;
    hide Position;
    AdmitFair(s, now, c);
  }

  lemma ExchangeFair(s: State, r: Request, now: Time, c: string)
    requires Inv(s) && Registered(s) && c in s.order
    requires
      var e := BeforeAdmission(s, r, now);
      e.Proceed? && e.state.available ==> Waiting(Expire(e.state, now), c, now)
    ensures FairStep(s.order, AdmittedBy(s, ExchangeOp(r, now)), Exchange(s, r, now).0.order, c)
  {
    hide Inv;
    hide Registered;
    hide Waiting;
    hide BeforeAdmission;
    hide FairStep;
    hide Admit;
    hide Expire;
    hide MakeReply;
    BeforeAdmissionKeeps(s, r, now);
    var e := BeforeAdmission(s, r, now);
    if !e.Refused? {
      BeforeAdmissionOrder(s, r, now, c);
      if e.Proceed? {
        AdmitIsFair(e.state, now, c);
        SoonerIsFair(s.order, e.state.order, Admit(e.state, now).admitted, Admit(e.state, now).state.order, c);
      }
    }
    SamePositionIsFair(s.order, if e.Refused? then s.order else e.state.order, c);
  }

  lemma ObservedOrder(s: State, sequence: nat, now: Time, observation: Result<Inventory, string>)
    ensures
      var o := Observed(s, sequence, now, observation);
      o.Some? ==> o.value.order == s.order && FinishProbePasses(s, sequence, observation)
  {
    hide ValidInventory;
    hide EndAbsent;
    hide Absent;
    hide Registered;
  }

  predicate FinishProbePasses(s: State, sequence: nat, observation: Result<Inventory, string>) {
    s.checking && sequence == s.sequence && observation.Ok? && ValidInventory(observation.value)
  }

  lemma FinishFair(s: State, sequence: nat, now: Time, observation: Result<Inventory, string>, c: string)
    requires Inv(s) && Registered(s) && c in s.order
    requires
      var o := Observed(s, sequence, now, observation);
      o.Some? && o.value.available ==> Waiting(Expire(o.value, now), c, now)
    ensures
      FairStep(s.order, AdmittedBy(s, FinishOp(sequence, now, observation)),
               FinishProbe(s, sequence, now, observation).state.order, c)
  {
    hide *;
    var o := Observed(s, sequence, now, observation);
    FinishByObservation(s, sequence, now, observation);
    FinishAdmits(s, sequence, now, observation);
    if o.Some? {
      ObservedKeeps(s, sequence, now, observation);
      ObservedOrder(s, sequence, now, observation);
      AdmitIsFair(o.value, now, c);
    } else {
      SamePositionIsFair(s.order, s.order, c);
    }
  }

  lemma FinishAdmits(s: State, sequence: nat, now: Time, observation: Result<Inventory, string>)
    requires Registered(s)
    ensures
      var o := Observed(s, sequence, now, observation);
      AdmittedBy(s, FinishOp(sequence, now, observation)) == if o.Some? then Admit(o.value, now).admitted else []
  {
    hide Admit;
    hide Observed;
    hide Registered;
  }

  /** A finished probe admits exactly when the observation counts; otherwise the queue is untouched. */
  lemma FinishByObservation(s: State, sequence: nat, now: Time, observation: Result<Inventory, string>)
    requires Registered(s)
    ensures
      var o := Observed(s, sequence, now, observation);
      var f := FinishProbe(s, sequence, now, observation);
      if o.Some? then f == Admit(o.value, now) else f.state.order == s.order && f.admitted == []
  {
    hide ValidInventory;
    hide Absent;
    hide EndAbsent;
    hide Admit;
    hide Registered;
    hide RecoveryDelay;
  }

  lemma LeaveFair(s: State, d: string, c: string)
    requires c in s.order && d != c
    ensures FairStep(s.order, [], Remove(s, d).order, c)
  {
    hide FairStep;
    PositionWithout(s.order, d, c);
    SamePositionIsFair(s.order, s.order, c);
    SamePositionIsFair(s.order, Without(s.order, d), c);
  }

  lemma BeginFair(s: State, now: Time, c: string)
    requires Inv(s) && c in s.order
    ensures FairStep(s.order, [], BeginProbe(s, now).0.order, c)
  {
    BeginProbeFrame(s, now);
    SamePositionIsFair(s.order, s.order, c);
  }

  lemma StepFair(s: State, op: Op, c: string)
    requires Inv(s) && Registered(s) && c in s.order && c in Step(s, op).members
    requires
      var p := AdmissionPoint(s, op);
      p.Some? && p.value.0.available ==> Waiting(Expire(p.value.0, p.value.1), c, p.value.1)
    ensures FairStep(s.order, AdmittedBy(s, op), Step(s, op).order, c)
  {
    hide Inv;
    hide Registered;
    hide Waiting;
    hide Admit;
    hide Expire;
    hide Position;
    hide FairStep;
    hide Observed;
    hide FinishProbe;
    hide BeforeAdmission;
    hide BeginProbe;
    hide Remove;
    hide Exchange;
    match op
    case ExchangeOp(r, now) => ExchangeFair(s, r, now, c);
    case LeaveOp(d) =>
      RemoveForgets(s, d);
      LeaveFair(s, d, c);
    case TickOp(now) => AdmitIsFair(s, now, c);
    case BeginOp(now) => BeginFair(s, now, c);
    case FinishOp(sequence, now, observation) => FinishFair(s, sequence, now, observation, c);
  }

  lemma RemoveForgets(s: State, d: string)
    ensures d !in Remove(s, d).members
  {
  }

  lemma MemberIsQueued(s: State, c: string)
    requires Inv(s) && c in s.members
    ensures c in s.order
  {
  }

  /**
   Fairness: a member at queue position p that is alone on its session and stays eligible is
   overtaken by at most p others, however many operations follow.
   */
  lemma {:induction false} AdmissionIsFair(s: State, ops: seq<Op>, c: string)
    requires Inv(s) && c in s.members && StaysEligible(s, ops, c)
    ensures Overtakers(s, ops, c) <= Position(s.order, c)
    decreases |ops|
  {
    hide Inv;
    hide Waiting;
    hide Step;
    hide AdmissionPoint;
    hide AdmittedBy;
    hide Position;
    hide Expire;
    hide Registered;
    if ops != [] {
      StepKeeps(s, ops[0]);
      MemberIsQueued(s, c);
      StepFair(s, ops[0], c);
      if c !in AdmittedBy(s, ops[0]) {
        AdmissionIsFair(Step(s, ops[0]), ops[1..], c);
      }
    }
  }
}
