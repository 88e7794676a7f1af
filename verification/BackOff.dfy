/**
 The back-off of a failing session (internal/mirror/session_recovery.go): what every operation
 does to the retry entries, and that over any run nobody on a session that just failed gets a
 grant before its delay is over.
 */
module BackOff {
  import opened Wrappers
  import opened Recovery
  import opened RecoveryTheorems

  /** The delay after `failures` earlier failures: 1, 2, 4, 8, 16 and then always 30 seconds. */
  function Delay(failures: nat): (d: Time)
    ensures d >= 1_000_000_000
  {
    if failures == 0 then 1_000_000_000
    else if failures == 1 then 2_000_000_000
    else if failures == 2 then 4_000_000_000
    else if failures == 3 then 8_000_000_000
    else if failures == 4 then 16_000_000_000
    else 30_000_000_000
  }

  lemma DelayIs(failures: nat)
    ensures RecoveryDelay(failures) == Delay(failures)
  {
    hide RecoveryDelay;
    Doubles(Min(failures, 5));
    assert Power2(0) == 1 && Power2(1) == 2 && Power2(2) == 4 && Power2(3) == 8 && Power2(4) == 16 && Power2(5) == 32;
    DelayUnfolds(failures);
  }

  lemma Doubles(n: nat)
    ensures Power2(n) == if n == 0 then 1 else 2 * Power2(n - 1)
  {
  }

  lemma DelayUnfolds(failures: nat)
    ensures RecoveryDelay(failures) == Min(30_000_000_000, 1_000_000_000 * Power2(Min(failures, 5)))
  {
  }

  lemma DelayGrows(few: nat, many: nat)
    requires few <= many
    ensures Delay(few) <= Delay(many)
  {
  }

  // ---------------------------------------------------------------- what an operation does to an entry

  /** The entry of a session; a session without one starts afresh. */
  function Entry(s: State, id: string): Retry {
    if id in s.sessions then s.sessions[id] else Retry(0, 0)
  }

  /** The caller is who it says it is, or new with a token of its own. */
  predicate Recognised(s: State, r: Request) {
    && ValidRequest(r)
    && if r.client in s.members then
         && s.members[r.client].token == r.token && s.members[r.client].session == r.session
         && s.members[r.client].sessionID == r.sessionID
       else forall c <- s.members :: s.members[c].token != r.token
  }

  /** The request is about the caller's active attempt; a new caller that says it is ready brings its own. */
  predicate AboutActive(s: State, r: Request) {
    && Recognised(s, r)
    && if r.client in s.members then s.members[r.client].active == r.attempt else r.state == Ready
  }

  /** The active attempt of session `id` is lost. */
  predicate Loses(s: State, op: Op, id: string) {
    op.ExchangeOp? && op.r.event == LostEvent && op.r.sessionID == id && AboutActive(s, op.r)
  }

  /** The active attempt of session `id` is ready: it already was, or its grant is neither late nor revoked. */
  predicate Proves(s: State, op: Op, id: string) {
    && op.ExchangeOp? && op.r.event == ReadyEvent && op.r.sessionID == id && AboutActive(s, op.r)
    && (op.r.client in s.members ==>
          var m := s.members[op.r.client];
          m.ready || (!m.reset && op.now < m.deadline))
  }

  function EntryAfter(s: State, op: Op, id: string): Retry {
    var before := Entry(s, id);
    if Loses(s, op, id) then
      Retry(if before.failures < 6 then before.failures + 1 else 6, op.now + Delay(before.failures))
    else if Proves(s, op, id) then Retry(0, 0)
    else before
  }

  lemma KnownEntry(s: State, r: Request, now: Time, id: string)
    requires Registered(s)
    ensures Entry(Known(s, r, now), id) == Entry(s, id)
  {
    hide NewMember;
    hide Registered;
  }

  lemma KnownMember(s: State, r: Request, now: Time)
    requires Registered(s)
    ensures
      var m := Known(s, r, now).members[r.client];
      m == if r.client in s.members then ExpireMember(s.members[r.client], now) else NewMember(s, r)
  {
    hide Registered;
    assert !Pending(NewMember(s, r));
    hide NewMember;
  }

  /** How a report changes the retry entries. */
  function EntriesAfterEvent(t: State, r: Request, now: Time): map<string, Retry>
    requires r.client in t.members && t.members[r.client].sessionID in t.sessions
  {
    var m := t.members[r.client];
    var before := t.sessions[m.sessionID];
    if m.active == "" || m.active != r.attempt || r.attempt == m.retired then t.sessions
    else if r.event == LostEvent then
      t.sessions[m.sessionID := Retry(Min(before.failures + 1, 6), now + Delay(before.failures))]
    else if r.event == ReadyEvent && (m.ready || (!m.reset && now < m.deadline)) then
      t.sessions[m.sessionID := Retry(0, 0)]
    else t.sessions
  }

  lemma EventEntries(t: State, r: Request, now: Time)
    requires r.client in t.members && t.members[r.client].sessionID in t.sessions
    requires MemberInv(t.members[r.client]) && !r.event.UnknownEvent?
    requires t.members[r.client].active == "" || t.members[r.client].active == r.attempt
    ensures ApplyEvent(t, r, now).state.sessions == EntriesAfterEvent(t, r, now)
  {
    DelayIs(t.sessions[t.members[r.client].sessionID].failures);
    hide Registered;
    hide RecoveryDelay;
    hide Delay;
  }

  lemma NoteEntries(t: State, r: Request)
    requires r.client in t.members
    ensures NoteConnecting(t, r).sessions == t.sessions
  {
  }

  lemma BeforeAdmissionEntries(s: State, r: Request, now: Time)
    requires Inv(s) && Registered(s) && !BeforeAdmission(s, r, now).Refused?
    ensures
      var t := Known(s, r, now);
      && t.members[r.client].sessionID in t.sessions
      && BeforeAdmission(s, r, now).state.sessions
         == if t.members[r.client].active != "" && t.members[r.client].active != r.attempt then t.sessions
            else EntriesAfterEvent(t, r, now)
  {
    hide Inv;
    hide Known;
    hide ApplyEvent;
    hide NoteConnecting;
    hide Registered;
    hide TokenTaken;
    hide SameIdentity;
    KnownKeeps(s, r, now);
    hide EntriesAfterEvent;
    var t := Known(s, r, now);
    InvMember(t, r.client);
    if t.members[r.client].active == "" || t.members[r.client].active == r.attempt {
      EventEntries(t, r, now);
      var e := ApplyEvent(t, r, now);
      if e.Proceed? {
        NoteEntries(e.state, r);
      }
    }
  }

  lemma RefusedUnlessRecognised(s: State, r: Request, now: Time)
    requires Registered(s)
    ensures BeforeAdmission(s, r, now).Refused? <==> !Recognised(s, r)
  {
    hide Known;
    hide ApplyEvent;
    hide NoteConnecting;
    hide Registered;
    hide ValidRequest;
  }

  lemma ExchangeSessions(s: State, r: Request, now: Time)
    requires Registered(s)
    ensures
      var e := BeforeAdmission(s, r, now);
      Exchange(s, r, now).0.sessions == if e.Refused? then s.sessions else e.state.sessions
  {
    hide Registered;
    hide BeforeAdmission;
    hide MakeReply;
    hide Admit;
    var e := BeforeAdmission(s, r, now);
    if e.Proceed? {
      AdmitFrame(e.state, now);
    }
  }

  lemma EventEntry(s: State, t: State, r: Request, now: Time, id: string)
    requires Recognised(s, r) && r.client in t.members && t.members[r.client].sessionID in t.sessions
    requires t.members[r.client] == if r.client in s.members then ExpireMember(s.members[r.client], now) else NewMember(s, r)
    requires MemberInv(t.members[r.client]) && Entry(t, id) == Entry(s, id)
    ensures
      var after :=
        if t.members[r.client].active != "" && t.members[r.client].active != r.attempt then t.sessions
        else EntriesAfterEvent(t, r, now);
      (if id in after then after[id] else Retry(0, 0)) == EntryAfter(s, ExchangeOp(r, now), id)
  {
    hide Delay;
    hide ValidSessionID;
    assert r.attempt != "";
    hide Hex32;
  }

  lemma ExchangeEntry(s: State, r: Request, now: Time, id: string)
    requires Inv(s) && Registered(s)
    ensures Entry(Exchange(s, r, now).0, id) == EntryAfter(s, ExchangeOp(r, now), id)
  {
    hide *;
    RefusedUnlessRecognised(s, r, now);
    ExchangeSessions(s, r, now);
    var t := Exchange(s, r, now).0;
    if Recognised(s, r) {
      RecognisedEntry(s, r, now, id);
      SameEntries(t, BeforeAdmission(s, r, now).state, id);
    } else {
      UnrecognisedEntry(s, r, now, id);
      SameEntries(t, s, id);
    }
  }

  lemma SameEntries(s: State, t: State, id: string)
    requires s.sessions == t.sessions
    ensures Entry(s, id) == Entry(t, id)
  {
  }

  lemma UnrecognisedEntry(s: State, r: Request, now: Time, id: string)
    requires !Recognised(s, r)
    ensures EntryAfter(s, ExchangeOp(r, now), id) == Entry(s, id)
  {
    hide Recognised;
  }

  lemma RecognisedEntry(s: State, r: Request, now: Time, id: string)
    requires Inv(s) && Registered(s) && Recognised(s, r) && !BeforeAdmission(s, r, now).Refused?
    ensures Entry(BeforeAdmission(s, r, now).state, id) == EntryAfter(s, ExchangeOp(r, now), id)
  {
    hide *;
    BeforeAdmissionEntries(s, r, now);
    KnownKeepsRecognised(s, r, now);
    KnownEntry(s, r, now, id);
    KnownMember(s, r, now);
    var t := Known(s, r, now);
    InvMember(t, r.client);
    EventEntry(s, t, r, now, id);
    EntryUnfolds(BeforeAdmission(s, r, now).state, id);
  }

  lemma EntryUnfolds(s: State, id: string)
    ensures Entry(s, id) == if id in s.sessions then s.sessions[id] else Retry(0, 0)
  {
  }

  lemma KnownKeepsRecognised(s: State, r: Request, now: Time)
    requires Inv(s) && Registered(s) && Recognised(s, r)
    ensures Inv(Known(s, r, now))
  {
    hide Inv;
    hide Registered;
    hide Known;
    hide ValidRequest;
    KnownKeeps(s, r, now);
  }

  lemma FinishSessions(s: State, sequence: nat, now: Time, observation: Result<Inventory, string>)
    requires Registered(s)
    ensures FinishProbe(s, sequence, now, observation).state.sessions == s.sessions
  {
    hide Registered;
    hide Admit;
    hide ValidInventory;
    hide EndAbsent;
    hide Missing;
    hide RecoveryDelay;
    var o := Observed(s, sequence, now, observation);
    if o.Some? {
      AdmitFrame(o.value, now);
    }
  }

  lemma BeginSessions(s: State, now: Time)
    ensures BeginProbe(s, now).0.sessions == s.sessions
  {
  }

  lemma RemoveSessions(s: State, c: string, id: string)
    ensures id in Remove(s, c).sessions ==> id in s.sessions && Remove(s, c).sessions[id] == s.sessions[id]
  {
    hide Without;
  }

  /**
   A lost report of the active attempt at `now` leaves its session's entry at `now` and the delay
   for the failures before it, with one more failure up to six; an accepted ready report clears the
   entry.  Nothing else changes any entry: an entry begins clear and goes with its last member.
   */
  lemma EntriesTell(s: State, op: Op, id: string)
    requires Inv(s) && Registered(s)
    ensures
      var t := Step(s, op);
      && (id in t.sessions <==> exists c <- t.members :: t.members[c].sessionID == id)
      && (id in t.sessions ==> t.sessions[id] == EntryAfter(s, op, id))
  {
    hide *;
    StepKeeps(s, op);
    EntriesAreSessions(Step(s, op), id);
    StepIs(s, op);
    OtherOperations(s, op, id);
    EntryIs(Step(s, op), id);
    match op
    case ExchangeOp(r, now) => ExchangeEntry(s, r, now, id);
    case LeaveOp(c) =>
      RemoveSessions(s, c, id);
      EntryIs(s, id);
    case TickOp(now) =>
      AdmitFrame(s, now);
      EntryIs(s, id);
    case BeginOp(now) =>
      BeginSessions(s, now);
      EntryIs(s, id);
    case FinishOp(sequence, now, observation) =>
      FinishSessions(s, sequence, now, observation);
      EntryIs(s, id);
  }

  lemma EntriesAreSessions(s: State, id: string)
    requires Inv(s)
    ensures id in s.sessions <==> exists c <- s.members :: s.members[c].sessionID == id
  {
  }

  lemma EntryIs(s: State, id: string)
    ensures id in s.sessions ==> Entry(s, id) == s.sessions[id]
  {
  }

  lemma OtherOperations(s: State, op: Op, id: string)
    ensures !op.ExchangeOp? ==> EntryAfter(s, op, id) == Entry(s, id)
  {
  }

  // ---------------------------------------------------------------- who gets a grant

  /** A member that holds no pending grant before holds one afterwards. */
  predicate Starts(s: State, t: State, c: string) {
    && c in t.members && t.members[c].active != "" && !t.members[c].ready
    && (c in s.members ==> s.members[c].active == "" || s.members[c].ready)
  }

  /** Everything that must hold of a member that gets a grant, at the moment it gets it. */
  ghost predicate MayStart(s: State, m: Member, now: Time) {
    && s.available && !m.ended && !m.reset && m.active == "" && m.proposed != m.retired
    && (if m.session in s.inventory then s.inventory[m.session] else "") == m.sessionID
    && m.sessionID in s.sessions && s.sessions[m.sessionID].at <= now
  }

  ghost predicate Started(s: State, m: Member, n: Member, now: Time) {
    MayStart(s, m, now) && n == m.(active := m.proposed, deadline := now + 15_000_000_000)
  }

  lemma TurnStarts(s: State, busy: set<string>, now: Time, c: string)
    requires Registered(s) && s.order != [] && s.available && c in s.members
    requires MemberInv(s.members[c])
    ensures
      var t := ScanTurn(s, busy, now).state;
      && t == s.(members := t.members, order := t.order)
      && (t.members[c] == s.members[c] || Started(s, s.members[c], t.members[c], now))
  {
    TurnFrame(s, busy, now);
  }

  lemma StartedKeeps(s: State, m: Member, n: Member, now: Time)
    requires MemberInv(m) && Started(s, m, n, now)
    ensures MemberInv(n) && n.sessionID == m.sessionID && n.active != ""
  {
  }

  lemma {:induction false} ScanStarts(s: State, fuel: nat, pending: nat, busy: set<string>, now: Time, c: string)
    requires Registered(s) && fuel <= |s.order| && s.available && c in s.members
    requires MemberInv(s.members[c])
    ensures
      var t := AdmitScan(s, fuel, pending, busy, now).state;
      && c in t.members
      && (t.members[c] == s.members[c] || Started(s, s.members[c], t.members[c], now))
    decreases fuel
  {
    hide Registered;
    hide ScanTurn;
    hide BusyAfter;
    hide MemberInv;
    if fuel > 0 && pending < 2 {
      TurnStarts(s, busy, now, c);
      var turn := ScanTurn(s, busy, now);
      if turn.state.members[c] != s.members[c] {
        StartedKeeps(s, s.members[c], turn.state.members[c], now);
      }
      ScanStarts(turn.state, fuel - 1, pending + |turn.admitted|, BusyAfter(s, busy, turn), now, c);
    }
  }

  lemma AdmitStarts(s: State, now: Time, c: string)
    requires Inv(s) && Registered(s) && c in s.members
    ensures
      var t := Admit(s, now).state;
      var m := ExpireMember(s.members[c], now);
      && c in t.members && t.sessions == s.sessions
      && (t.members[c] == m || Started(s, m, t.members[c], now))
  {
    hide *;
    var e := Expire(s, now);
    ExpireKeeps(s, now);
    InvMember(e, c);
    AdmitFrame(s, now);
    AdmitKeys(s, now);
    ExpireIs(s, now, c);
    AdmitIs(s, now);
    if s.available {
      ScanStarts(e, |e.order|, |PendingClients(e)|, BusySessions(e), now, c);
      StartedAfterExpiry(s, e, e.members[c], Admit(s, now).state.members[c], now);
    }
  }

  lemma ExpireIs(s: State, now: Time, c: string)
    requires c in s.members
    ensures
      var e := Expire(s, now);
      e == s.(members := e.members) && e.members[c] == ExpireMember(s.members[c], now)
  {
  }

  lemma AdmitIs(s: State, now: Time)
    requires Registered(s)
    ensures
      var e := Expire(s, now);
      Admit(s, now)
      == if !s.available then Admission(e, [])
         else AdmitScan(e, |e.order|, |PendingClients(e)|, BusySessions(e), now)
  {
    hide Registered;
    hide AdmitScan;
  }

  lemma StartedAfterExpiry(s: State, e: State, m: Member, n: Member, now: Time)
    requires e == s.(members := e.members)
    ensures Started(e, m, n, now) <==> Started(s, m, n, now)
  {
  }

  /** Nobody is registered with a pending grant, and nobody gets one. */
  ghost predicate NobodyNew(s: State, t: State) {
    forall c <- t.members :: Pending(t.members[c]) ==> c in s.members && Pending(s.members[c])
  }

  lemma EvolvesStartsNobody(s: State, t: State)
    requires Evolves(s, t)
    ensures NobodyNew(s, t)
  {
    hide Pending;
  }

  lemma NobodyNewTransitive(s: State, t: State, u: State)
    requires NobodyNew(s, t) && NobodyNew(t, u)
    ensures NobodyNew(s, u)
  {
    hide Pending;
  }

  lemma RegisterStartsNobody(s: State, r: Request, now: Time)
    ensures NobodyNew(s, Register(s, r, now))
  {
    assert !Pending(NewMember(s, r));
    hide Pending;
    hide NewMember;
    hide Registered;
  }

  lemma KnownStartsNobody(s: State, r: Request, now: Time)
    requires Inv(s) && Registered(s) && Recognised(s, r)
    ensures Inv(Known(s, r, now)) && NobodyNew(s, Known(s, r, now))
  {
    hide *;
    KnownIs(s, r, now);
    KnownKeepsRecognised(s, r, now);
    var known := if r.client in s.members then s else Register(s, r, now);
    KnownRegisters(s, r, now);
    var asked := if r.retry then RequestProbe(known, now) else known;
    Reflexive(known);
    RequestProbeKeeps(known, now);
    EvolvesStartsNobody(known, asked);
    ExpireKeeps(asked, now);
    EvolvesStartsNobody(asked, Expire(asked, now));
    NobodyNewTransitive(s, known, asked);
    NobodyNewTransitive(s, asked, Expire(asked, now));
  }

  lemma KnownIs(s: State, r: Request, now: Time)
    requires Registered(s)
    ensures
      var known := if r.client in s.members then s else Register(s, r, now);
      Known(s, r, now) == Expire(if r.retry then RequestProbe(known, now) else known, now)
  {
    hide Registered;
    hide Register;
    hide RequestProbe;
    hide Expire;
  }

  lemma KnownRegisters(s: State, r: Request, now: Time)
    requires Inv(s) && Recognised(s, r)
    ensures
      var known := if r.client in s.members then s else Register(s, r, now);
      Inv(known) && NobodyNew(s, known)
  {
    hide Inv;
    hide Register;
    hide ValidRequest;
    Reflexive(s);
    EvolvesStartsNobody(s, s);
    if r.client !in s.members {
      RegisterKeeps(s, r, now);
      RegisterStartsNobody(s, r, now);
    }
  }

  lemma EventStartsNobody(t: State, r: Request, now: Time)
    requires Inv(t) && r.client in t.members && t.members[r.client].sessionID in t.sessions && r.attempt != ""
    requires t.members[r.client].active == "" || r.attempt == t.members[r.client].active
    ensures
      var e := ApplyEvent(t, r, now);
      && NobodyNew(t, e.state) && (e.Proceed? ==> NobodyNew(t, NoteConnecting(e.state, r)))
  {
    hide Inv;
    hide Evolves;
    hide NobodyNew;
    hide NoteConnecting;
    hide Registered;
    ApplyEventKeeps(t, r, now);
    ActiveAfterEvent(t, r, now);
    hide ApplyEvent;
    var e := ApplyEvent(t, r, now);
    EvolvesStartsNobody(t, e.state);
    if e.Proceed? {
      NoteConnectingKeeps(e.state, r);
      EvolvesStartsNobody(e.state, NoteConnecting(e.state, r));
      NobodyNewTransitive(t, e.state, NoteConnecting(e.state, r));
    }
  }

  lemma BeforeAdmissionStartsNobody(s: State, r: Request, now: Time)
    requires Inv(s) && Registered(s) && !BeforeAdmission(s, r, now).Refused?
    ensures NobodyNew(s, BeforeAdmission(s, r, now).state)
  {
    hide *;
    RefusedUnlessRecognised(s, r, now);
    AttemptNamed(s, r);
    BeforeAdmissionIs(s, r, now);
    var t := Known(s, r, now);
    KnownStartsNobody(s, r, now);
    InvMember(t, r.client);
    if t.members[r.client].active == "" || r.attempt == t.members[r.client].active {
      EventStartsNobody(t, r, now);
      var e := ApplyEvent(t, r, now);
      NobodyNewTransitive(s, t, if e.Proceed? then NoteConnecting(e.state, r) else e.state);
    }
  }

  lemma AttemptNamed(s: State, r: Request)
    requires Recognised(s, r)
    ensures r.attempt != ""
  {
    hide ValidSessionID;
  }

  lemma BeforeAdmissionIs(s: State, r: Request, now: Time)
    requires Inv(s) && Registered(s) && !BeforeAdmission(s, r, now).Refused?
    ensures
      var t := Known(s, r, now);
      && r.client in t.members && t.members[r.client].sessionID in t.sessions
      && BeforeAdmission(s, r, now)
         == if t.members[r.client].active != "" && r.attempt != t.members[r.client].active then Resync(t)
            else match ApplyEvent(t, r, now) case Proceed(u) => Proceed(NoteConnecting(u, r)) case other => other
  {
    hide Inv;
    hide Registered;
    hide Known;
    hide ApplyEvent;
    hide NoteConnecting;
    hide ValidRequest;
    hide TokenTaken;
    hide SameIdentity;
    RegisteredSession(Known(s, r, now), r.client);
  }

  /** The time at which an operation happens, as far as it has one. */
  function Now(op: Op): Time {
    match op
    case ExchangeOp(_, now) => now
    case LeaveOp(_) => 0
    case TickOp(now) => now
    case BeginOp(now) => now
    case FinishOp(_, now, _) => now
  }

  /** What is known of a member that has just got its grant. */
  ghost predicate JustStarted(t: State, n: Member, now: Time) {
    && t.available && !n.ended && !n.reset && !n.ready
    && n.active == n.proposed && n.active != n.retired && n.deadline == now + 15_000_000_000
    && (if n.session in t.inventory then t.inventory[n.session] else "") == n.sessionID
    && n.sessionID in t.sessions && t.sessions[n.sessionID].at <= now
  }

  lemma AdmitStartsWell(s: State, now: Time, c: string)
    requires Inv(s) && Registered(s) && Starts(s, Admit(s, now).state, c)
    ensures
      var t := Admit(s, now).state;
      c in t.members && JustStarted(t, t.members[c], now)
  {
    hide *;
    AdmitKeys(s, now);
    StartedMember(s, Admit(s, now).state, c);
    InvMember(s, c);
    AdmitFrame(s, now);
    AdmitStarts(s, now, c);
    StartedIs(s, Admit(s, now).state, c, now);
  }

  lemma StartedMember(s: State, t: State, c: string)
    requires Starts(s, t, c)
    ensures c in t.members
  {
  }

  lemma StartedIs(s: State, t: State, c: string, now: Time)
    requires Starts(s, t, c) && c in s.members && MemberInv(s.members[c]) && t == s.(members := t.members, order := t.order)
    requires var m := ExpireMember(s.members[c], now); t.members[c] == m || Started(s, m, t.members[c], now)
    ensures JustStarted(t, t.members[c], now)
  {
  }

  lemma StartsLater(s: State, u: State, t: State, c: string)
    requires NobodyNew(s, u) && Starts(s, t, c)
    ensures Starts(u, t, c)
  {
  }

  lemma NobodyNewStarts(s: State, t: State, c: string)
    requires NobodyNew(s, t)
    ensures !Starts(s, t, c)
  {
  }

  lemma ExchangeStarts(s: State, r: Request, now: Time, c: string)
    requires Inv(s) && Registered(s) && Starts(s, Exchange(s, r, now).0, c)
    ensures
      var t := Exchange(s, r, now).0;
      c in t.members && JustStarted(t, t.members[c], now)
  {
    hide *;
    ExchangeIs(s, r, now);
    var e := BeforeAdmission(s, r, now);
    Reflexive(s);
    EvolvesStartsNobody(s, s);
    NobodyNewStarts(s, s, c);
    if !e.Refused? {
      BeforeAdmissionKeeps(s, r, now);
      BeforeAdmissionStartsNobody(s, r, now);
      NobodyNewStarts(s, e.state, c);
      StartsLater(s, e.state, Exchange(s, r, now).0, c);
      if e.Proceed? {
        AdmitStartsWell(e.state, now, c);
      }
    }
  }

  lemma ExchangeIs(s: State, r: Request, now: Time)
    requires Registered(s)
    ensures
      var e := BeforeAdmission(s, r, now);
      Exchange(s, r, now).0 == if e.Refused? then s else if e.Resync? then e.state else Admit(e.state, now).state
  {
    hide Registered;
    hide BeforeAdmission;
    hide MakeReply;
    hide Admit;
  }

  lemma FinishStarts(s: State, sequence: nat, now: Time, observation: Result<Inventory, string>, c: string)
    requires Inv(s) && Registered(s) && Starts(s, FinishProbe(s, sequence, now, observation).state, c)
    ensures
      var t := FinishProbe(s, sequence, now, observation).state;
      c in t.members && JustStarted(t, t.members[c], now)
  {
    hide *;
    FinishByObservation(s, sequence, now, observation);
    FailedStartsNobody(s, sequence, now, observation, c);
    var o := Observed(s, sequence, now, observation);
    if o.Some? {
      ObservedKeeps(s, sequence, now, observation);
      EvolvesStartsNobody(s, o.value);
      StartsLater(s, o.value, FinishProbe(s, sequence, now, observation).state, c);
      AdmitStartsWell(o.value, now, c);
    }
  }

  lemma FailedStartsNobody(s: State, sequence: nat, now: Time, observation: Result<Inventory, string>, c: string)
    requires Registered(s)
    ensures
      Observed(s, sequence, now, observation).None? ==> !Starts(s, FinishProbe(s, sequence, now, observation).state, c)
  {
    hide Registered;
    hide ValidInventory;
    hide EndAbsent;
    hide RecoveryDelay;
    hide Admit;
    hide Missing;
  }

  lemma OthersStartNobody(s: State, op: Op, c: string)
    requires Inv(s) && (op.LeaveOp? || op.BeginOp?)
    ensures Registered(s) && !Starts(s, Step(s, op), c)
  {
    InvFacts(s);
    StepIs(s, op);
    if op.BeginOp? {
      BeginProbeFrame(s, op.now);
    }
    hide Inv;
    hide Registered;
    hide BeginProbe;
    hide Without;
  }

  /**
   Whoever gets a grant got it in an operation at a time not before its session's retry entry
   allows it, from an available coordinator whose inventory shows the session, for an attempt that
   is not the retired one, until fifteen seconds later.
   */
  lemma StartsAreDue(s: State, op: Op, c: string)
    requires Inv(s) && Registered(s) && Starts(s, Step(s, op), c)
    ensures
      var t := Step(s, op);
      c in t.members && JustStarted(t, t.members[c], Now(op))
  {
    hide *;
    StepIs(s, op);
    NowIs(op);
    if op.LeaveOp? || op.BeginOp? {
      OthersStartNobody(s, op, c);
    } else {
      match op
      case ExchangeOp(r, now) => ExchangeStarts(s, r, now, c);
      case TickOp(now) => AdmitStartsWell(s, now, c);
      case FinishOp(sequence, now, observation) => FinishStarts(s, sequence, now, observation, c);
    }
  }

  lemma NowIs(op: Op)
    ensures !op.LeaveOp? ==> Now(op) == op.now
  {
  }

  // ---------------------------------------------------------------- over a run

  /** Session `id` keeps its entry, no attempt of it is proved ready, and none is lost before `from`. */
  ghost predicate StaysFailed(s: State, ops: seq<Op>, id: string, from: Time)
    requires Inv(s)
    decreases |ops|
  {
    ops == [] ||
    (StepKeeps(s, ops[0]);
     && id in Step(s, ops[0]).sessions && !Proves(s, ops[0], id)
     && (Loses(s, ops[0], id) ==> from <= Now(ops[0]))
     && StaysFailed(Step(s, ops[0]), ops[1..], id, from))
  }

  /** No operation before `until` gives anybody on session `id` a grant. */
  ghost predicate NobodyStarts(s: State, ops: seq<Op>, id: string, until: Time)
    requires Inv(s)
    decreases |ops|
  {
    ops == [] ||
    (StepKeeps(s, ops[0]);
     var t := Step(s, ops[0]);
     && (Now(ops[0]) < until ==> forall c <- t.members :: Starts(s, t, c) ==> t.members[c].sessionID != id)
     && NobodyStarts(t, ops[1..], id, until))
  }

  lemma StartsElsewhere(t: State, n: Member, now: Time, id: string, until: Time)
    requires JustStarted(t, n, now) && now < until && (id in t.sessions ==> until <= t.sessions[id].at)
    ensures n.sessionID != id
  {
  }

  lemma NobodyStartsNow(s: State, op: Op, id: string, until: Time)
    requires Inv(s) && Registered(s)
    requires id in Step(s, op).sessions ==> until <= Step(s, op).sessions[id].at
    ensures
      var t := Step(s, op);
      Now(op) < until ==> forall c <- t.members :: Starts(s, t, c) ==> t.members[c].sessionID != id
  {
    hide *;
    var t, now := Step(s, op), Now(op);
    if now < until {
      forall c <- t.members | Starts(s, t, c) ensures t.members[c].sessionID != id {
        StartsAreDue(s, op, c);
        StartsElsewhere(t, t.members[c], now, id, until);
      }
    }
  }

  /** A failed session's entry only ever grows, while it is neither proved ready nor forgotten. */
  lemma EntryGrows(s: State, op: Op, id: string, few: nat, from: Time)
    requires 0 < few <= 6 && id in s.sessions && few <= s.sessions[id].failures
    requires from + Delay(few - 1) <= s.sessions[id].at
    requires !Proves(s, op, id) && (Loses(s, op, id) ==> from <= Now(op))
    ensures
      var e := EntryAfter(s, op, id);
      few <= e.failures && from + Delay(few - 1) <= e.at
  {
    DelayGrows(few - 1, s.sessions[id].failures);
    hide Delay;
    hide Proves;
  }

  lemma {:induction false} FailedWaits(s: State, ops: seq<Op>, id: string, few: nat, from: Time)
    requires Inv(s) && 0 < few <= 6 && id in s.sessions
    requires few <= s.sessions[id].failures && from + Delay(few - 1) <= s.sessions[id].at
    requires StaysFailed(s, ops, id, from)
    ensures NobodyStarts(s, ops, id, from + Delay(few - 1))
    decreases |ops|
  {
    hide Inv;
    hide Step;
    hide Proves;
    hide Loses;
    hide Starts;
    hide Delay;
    hide EntryAfter;
    hide Registered;
    if ops != [] {
      StepKeeps(s, ops[0]);
      EntriesTell(s, ops[0], id);
      EntryGrows(s, ops[0], id, few, from);
      NobodyStartsNow(s, ops[0], id, from + Delay(few - 1));
      FailedWaits(Step(s, ops[0]), ops[1..], id, few, from);
    }
  }

  lemma LossLeaves(s: State, loss: Op, id: string)
    requires Loses(s, loss, id)
    ensures
      var failures := Entry(s, id).failures;
      EntryAfter(s, loss, id)
      == Retry(if failures < 6 then failures + 1 else 6, Now(loss) + Delay(failures))
  {
    hide AboutActive;
  }

  lemma DelayIsCapped(failures: nat)
    ensures
      var few := if failures < 6 then failures + 1 else 6;
      Delay(few - 1) == Delay(failures)
  {
  }

  lemma LossNeedsItsEntry(s: State, loss: Op, id: string)
    requires Inv(s) && Registered(s) && Loses(s, loss, id)
    ensures id in Step(s, loss).sessions
  {
    LossLeaves(s, loss, id);
    EntryUnfolds(Step(s, loss), id);
    StepIs(s, loss);
    hide Inv;
    hide Registered;
    hide AboutActive;
    hide Step;
    hide EntryAfter;
    hide Delay;
    hide Exchange;
    ExchangeEntry(s, loss.r, loss.now, id);
  }

  /**
   A session whose active attempt is lost gets no further grant, for any of its members, in the
   exchange that reports the loss or in any later operation before the delay is over: 1, 2, 4, 8,
   16 or 30 seconds by the failures before this one.  Only a ready report or the departure of its
   last member ends the wait.
   */
  lemma FailedSessionsWait(s: State, loss: Op, ops: seq<Op>, id: string)
    requires Inv(s) && Registered(s) && Loses(s, loss, id)
    requires Inv(Step(s, loss)) && StaysFailed(Step(s, loss), ops, id, Now(loss))
    ensures NobodyStarts(s, [loss] + ops, id, Now(loss) + Delay(Entry(s, id).failures))
  {
    hide *;
    StepKeeps(s, loss);
    EntriesTell(s, loss, id);
    LossLeaves(s, loss, id);
    var failures := Entry(s, id).failures;
    DelayIsCapped(failures);
    LossNeedsItsEntry(s, loss, id);
    var t := Step(s, loss);
    FailedWaits(t, ops, id, if failures < 6 then failures + 1 else 6, Now(loss));
    NobodyStartsNow(s, loss, id, Now(loss) + Delay(failures));
    NobodyStartsIn(s, loss, ops, id, Now(loss) + Delay(failures));
  }

  lemma NobodyStartsIn(s: State, op: Op, ops: seq<Op>, id: string, until: Time)
    requires Inv(s) && Registered(s) && Inv(Step(s, op)) && NobodyStarts(Step(s, op), ops, id, until)
    requires
      var t := Step(s, op);
      Now(op) < until ==> forall c <- t.members :: Starts(s, t, c) ==> t.members[c].sessionID != id
    ensures NobodyStarts(s, [op] + ops, id, until)
  {
    hide Inv;
    hide Step;
    hide Starts;
    hide Registered;
    assert ([op] + ops)[1..] == ops;
  }
}
