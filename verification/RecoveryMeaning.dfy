/**
 What a caller sees of the reconnect coordinator (internal/mirror/session_recovery.go), stated on
 the fields of the states and replies themselves: what an exchange does to the caller and to the
 others, what its reply says, who is served, and when host observations begin and are due.
 */
module RecoveryMeaning {
  import opened Wrappers
  import opened Recovery
  import opened RecoveryTheorems
  import opened BackOff

  // ---------------------------------------------------------------- members

  /** A pending grant whose deadline has passed is marked for reset. */
  function Overdue(m: Member, now: Time): Member {
    m.(reset := m.reset || (m.active != "" && !m.ready && m.deadline <= now))
  }

  /**
   A new caller: ready with its own attempt when it says so; one that is connecting, or reports an
   event without being ready, must reset first and never gets a grant for that attempt.
   */
  function Newcomer(s: State, r: Request): Member {
    var stray := r.state == Connecting || (!r.event.NoEvent? && r.state != Ready);
    Member(r.token, r.session, r.sessionID, s.births, r.attempt,
           if r.state == Ready then r.attempt else "", if stray then r.attempt else "",
           0, r.state == Ready, false, stray)
  }

  /** The caller's member when its report has been heard, whoever is admitted afterwards. */
  function Heard(m: Member, r: Request): Member {
    if m.active != "" && m.active != r.attempt then m
    else if m.active == r.attempt then
      match r.event
      case LostEvent => m.(retired := r.attempt, active := "", ready := false, reset := false)
      case ReadyEvent => if m.reset then m else m.(ready := true)
      case _ => m
    else
      match r.event
      case NoEvent =>
        m.(proposed := if m.reset || r.attempt == m.retired then m.proposed else r.attempt,
           reset := m.reset || (r.state == Connecting && r.attempt != m.retired))
      case LostEvent => if r.attempt == m.retired then m.(reset := false) else m
      case _ => m
  }

  function Caller(s: State, r: Request, now: Time): Member {
    Heard(Overdue(if r.client in s.members then s.members[r.client] else Newcomer(s, r), now), r)
  }

  lemma NewcomerIs(s: State, r: Request)
    ensures NewMember(s, r) == Newcomer(s, r) == Overdue(Newcomer(s, r), 0)
    ensures !Pending(Newcomer(s, r)) && Newcomer(s, r).session == r.session
  {
  }

  lemma NewcomerIsNotOverdue(s: State, r: Request, now: Time)
    ensures Overdue(Newcomer(s, r), now) == Newcomer(s, r)
  {
  }

  lemma OverdueIs(m: Member, now: Time)
    ensures ExpireMember(m, now) == Overdue(m, now)
  {
  }

  lemma KnownCaller(s: State, r: Request, now: Time)
    requires Registered(s)
    ensures
      Known(s, r, now).members[r.client]
      == Overdue(if r.client in s.members then s.members[r.client] else Newcomer(s, r), now)
  {
    hide *;
    KnownMember(s, r, now);
    NewcomerIs(s, r);
    NewcomerIsNotOverdue(s, r, now);
    if r.client in s.members {
      OverdueIs(s.members[r.client], now);
    }
  }

  lemma KnownOther(s: State, r: Request, now: Time, d: string)
    requires Registered(s) && d != r.client
    ensures d in Known(s, r, now).members <==> d in s.members
    ensures d in s.members ==> Known(s, r, now).members[d] == Overdue(s.members[d], now)
  {
    hide Registered;
    hide NewMember;
  }

  lemma HeardEvent(t: State, r: Request, now: Time)
    requires r.client in t.members && t.members[r.client].sessionID in t.sessions && MemberInv(t.members[r.client])
    requires t.members[r.client].active == "" || t.members[r.client].active == r.attempt
    requires Overdue(t.members[r.client], now) == t.members[r.client]
    requires !r.event.UnknownEvent? && r.attempt != ""
    ensures
      var e := ApplyEvent(t, r, now);
      && e.state.members.Keys == t.members.Keys
      && (e.Resync? ==> e.state == t && Heard(t.members[r.client], r) == t.members[r.client])
      && (e.Proceed? ==>
            && NoteConnecting(e.state, r).members == t.members[r.client := Heard(t.members[r.client], r)])
  {
    EventMember(t, r, now);
    hide ApplyEvent;
    hide MemberInv;
    var e := ApplyEvent(t, r, now);
    var m := t.members[r.client];
    if e.Proceed? {
      HeardNote(m, MemberAfterEvent(m, r, now).value, r, now);
      NoteIs(e.state, r);
    }
  }

  lemma NoteIs(s: State, r: Request)
    requires r.client in s.members
    ensures
      var m := s.members[r.client];
      NoteConnecting(s, r).members
      == s.members[r.client := if r.state == Connecting && m.active != r.attempt && r.attempt != m.retired
                               then m.(reset := true) else m]
  {
    assert s.members[r.client := s.members[r.client]] == s.members;
  }

  lemma HeardNote(m: Member, n: Member, r: Request, now: Time)
    requires MemberAfterEvent(m, r, now) == Some(n) && (m.active == "" || m.active == r.attempt)
    requires Overdue(m, now) == m && !r.event.UnknownEvent? && r.attempt != ""
    requires MemberInv(m)
    ensures
      (if r.state == Connecting && n.active != r.attempt && r.attempt != n.retired then n.(reset := true) else n)
      == Heard(m, r)
  {
  }

  /** Before admission an exchange touches the caller alone, and revokes what is overdue. */
  lemma BeforeAdmissionMembers(s: State, r: Request, now: Time, d: string)
    requires Inv(s) && Registered(s) && Recognised(s, r)
    ensures
      var e := BeforeAdmission(s, r, now);
      && !e.Refused?
      && (d in e.state.members <==> d in s.members || d == r.client)
      && (d == r.client ==> e.state.members[d] == Caller(s, r, now))
      && (d != r.client && d in s.members ==> e.state.members[d] == Overdue(s.members[d], now))
  {
    hide *;
    RefusedUnlessRecognised(s, r, now);
    AttemptNamed(s, r);
    EventNamed(s, r);
    BeforeAdmissionIs(s, r, now);
    KnownKeepsRecognised(s, r, now);
    KnownCaller(s, r, now);
    CallerIs(s, r, now);
    var t := Known(s, r, now);
    InvMember(t, r.client);
    if d != r.client {
      KnownOther(s, r, now, d);
    }
    var m := t.members[r.client];
    if m.active == "" || m.active == r.attempt {
      OverdueOnce(if r.client in s.members then s.members[r.client] else Newcomer(s, r), now);
      HeardEvent(t, r, now);
    } else {
      NotHeard(m, r);
    }
  }

  lemma CallerIs(s: State, r: Request, now: Time)
    ensures
      Caller(s, r, now)
      == Heard(Overdue(if r.client in s.members then s.members[r.client] else Newcomer(s, r), now), r)
  {
  }

  lemma NotHeard(m: Member, r: Request)
    requires m.active != "" && m.active != r.attempt
    ensures Heard(m, r) == m
  {
  }

  lemma OverdueOnce(m: Member, now: Time)
    ensures Overdue(Overdue(m, now), now) == Overdue(m, now)
  {
  }

  lemma EventNamed(s: State, r: Request)
    requires Recognised(s, r)
    ensures !r.event.UnknownEvent?
  {
    hide Hex32;
    hide ValidSessionID;
  }

  /** An admission leaves every member as it is, its overdue grant revoked, or gives it a grant. */
  ghost predicate AsBeforeOrStarted(s: State, m: Member, n: Member, now: Time) {
    n == Overdue(m, now) || Started(s, Overdue(m, now), n, now)
  }

  lemma AdmitTells(s: State, now: Time, d: string)
    requires Inv(s) && Registered(s) && d in s.members
    ensures
      var t := Admit(s, now).state;
      d in t.members && AsBeforeOrStarted(s, s.members[d], t.members[d], now)
  {
    hide Inv;
    hide Registered;
    hide Admit;
    hide Started;
    AdmitStarts(s, now, d);
    OverdueIs(s.members[d], now);
  }

  lemma CallerIsNotOverdue(s: State, r: Request, now: Time)
    ensures Overdue(Caller(s, r, now), now) == Caller(s, r, now)
  {
  }

  lemma TellsLater(s: State, t: State, m: Member, n: Member, now: Time)
    requires AsBeforeOrStarted(s, m, n, now) && t == s.(members := t.members, order := t.order) && Overdue(m, now) == m
    ensures n == m || Started(t, m, n, now)
  {
  }

  /**
   A request of a caller that is not who it says it is changes nothing.  Any other request makes
   the caller a member, is heard by the caller's member alone, and may start whoever is due.
   */
  lemma ExchangeTells(s: State, r: Request, now: Time, d: string)
    requires Inv(s) && Registered(s)
    ensures
      var t := Step(s, ExchangeOp(r, now));
      if !Recognised(s, r) then t == s
      else
        && (d in t.members <==> d in s.members || d == r.client)
        && (d in t.members ==>
              var m := if d == r.client then Caller(s, r, now) else Overdue(s.members[d], now);
              t.members[d] == m || Started(t, m, t.members[d], now))
  {
    hide *;
    StepIs(s, ExchangeOp(r, now));
    ExchangeIs(s, r, now);
    RefusedUnlessRecognised(s, r, now);
    if Recognised(s, r) {
      BeforeAdmissionMembers(s, r, now, d);
      BeforeAdmissionKeeps(s, r, now);
      var e := BeforeAdmission(s, r, now);
      if e.Proceed? {
        AdmitKeys(e.state, now);
        if d in e.state.members {
          AdmitTells(e.state, now, d);
          AdmitFrame(e.state, now);
          CallerIsNotOverdue(s, r, now);
          OverdueOnce(if d in s.members then s.members[d] else Newcomer(s, r), now);
          TellsLater(e.state, Admit(e.state, now).state, e.state.members[d], Admit(e.state, now).state.members[d], now);
        }
      }
    }
  }

  // ---------------------------------------------------------------- replies

  /** What the caller is before its report is heard. */
  function Prior(s: State, r: Request, now: Time): Member {
    Overdue(if r.client in s.members then s.members[r.client] else Newcomer(s, r), now)
  }

  /** The caller's report does not fit what the coordinator knows of it: it must resynchronise. */
  predicate OutOfStep(m: Member, r: Request) {
    || (m.active != "" && m.active != r.attempt)
    || (m.active == "" && r.event == ReadyEvent)
    || (m.active == "" && r.event == LostEvent && r.attempt != m.retired)
    || (m.active != "" && r.event == ReadyEvent && !m.ready && m.reset)
  }

  lemma ResyncIsOutOfStep(s: State, r: Request, now: Time)
    requires Inv(s) && Registered(s) && Recognised(s, r)
    ensures
      var e := BeforeAdmission(s, r, now);
      && !e.Refused? && Inv(e.state)
      && (e.Resync? <==> OutOfStep(Prior(s, r, now), r))
  {
    hide *;
    RefusedUnlessRecognised(s, r, now);
    BeforeAdmissionIs(s, r, now);
    BeforeAdmissionKeeps(s, r, now);
    KnownKeepsRecognised(s, r, now);
    KnownCaller(s, r, now);
    PriorIs(s, r, now);
    EventNamed(s, r);
    AttemptNamed(s, r);
    var t := Known(s, r, now);
    InvMember(t, r.client);
    OverdueOnce(if r.client in s.members then s.members[r.client] else Newcomer(s, r), now);
    OutOfStepIs(t.members[r.client], r, now);
    EventMember(t, r, now);
  }

  lemma PriorIs(s: State, r: Request, now: Time)
    ensures Prior(s, r, now) == Overdue(if r.client in s.members then s.members[r.client] else Newcomer(s, r), now)
  {
  }

  lemma OutOfStepIs(m: Member, r: Request, now: Time)
    requires Overdue(m, now) == m && MemberInv(m) && !r.event.UnknownEvent? && r.attempt != ""
    ensures
      OutOfStep(m, r) <==> (m.active != "" && r.attempt != m.active) || MemberAfterEvent(m, r, now).None?
  {
  }

  /** What a reply says of the caller's member in the state after the exchange. */
  ghost predicate Says(t: State, m: Member, v: Reply, now: Time) {
    && v.checking == t.checking && v.ended == m.ended
    && v.grant == (if v.reset || m.ended || m.active == "" || m.ready then None else Some(Grant(m.active, m.deadline)))
    && v.cancelAttempt == (if m.reset && !m.ready then m.active else "")
    && m.sessionID in t.sessions
    && var backoff := t.sessions[m.sessionID].at;
       if now < backoff then
         v.retryAt == backoff && v.reason == "Attachment failed; waiting for session backoff"
       else
         v.retryAt == (if t.available && !t.checking then 0 else t.nextProbe) && v.reason == t.reason
  }

  lemma MakeReplySays(t: State, c: string, now: Time, reset: bool)
    requires c in t.members && t.members[c].sessionID in t.sessions
    ensures MakeReply(t, c, now, reset).reset == reset && Says(t, t.members[c], MakeReply(t, c, now, reset), now)
  {
  }

  lemma ExchangeReplies(s: State, r: Request, now: Time)
    requires Registered(s)
    ensures
      var e := BeforeAdmission(s, r, now);
      var (t, reply) := Exchange(s, r, now);
      if e.Refused? then reply.Err?
      else
        && r.client in t.members
        && reply == Ok(MakeReply(t, r.client, now,
             e.Resync? || t.members[r.client].reset || r.attempt == t.members[r.client].retired))
  {
    hide Registered;
    hide BeforeAdmission;
    hide Admit;
    hide MakeReply;
    var e := BeforeAdmission(s, r, now);
    if e.Proceed? {
      AdmitKeys(e.state, now);
    }
  }

  /**
   A request is refused exactly when the caller is not who it says it is.  Otherwise the reply
   asks for a reset exactly when the report does not fit, the member must reset, or the attempt is
   the retired one; it carries a grant exactly when the member has a pending one and no reset is
   asked for, and names the time before which asking again is useless.
   */
  lemma ReplyTells(s: State, r: Request, now: Time)
    requires Inv(s) && Registered(s)
    ensures
      var (t, reply) := Exchange(s, r, now);
      && (reply.Err? <==> !Recognised(s, r))
      && (reply.Ok? ==>
            && r.client in t.members
            && var m := t.members[r.client];
               && Says(t, m, reply.value, now)
               && (reply.value.reset <==> m.reset || r.attempt == m.retired || OutOfStep(Prior(s, r, now), r)))
  {
    hide *;
    RefusedUnlessRecognised(s, r, now);
    ExchangeReplies(s, r, now);
    if Recognised(s, r) {
      ResyncIsOutOfStep(s, r, now);
      ExchangeKeeps(s, r, now);
      var t := Exchange(s, r, now).0;
      InvMember(t, r.client);
      var e := BeforeAdmission(s, r, now);
      MakeReplySays(t, r.client, now,
                    e.Resync? || t.members[r.client].reset || r.attempt == t.members[r.client].retired);
    }
  }

  // ---------------------------------------------------------------- who is served

  /** Two members hold a pending grant. */
  ghost predicate TwoPending(t: State) {
    exists c, d :: c in t.members && d in t.members && c != d && Pending(t.members[c]) && Pending(t.members[d])
  }

  /** Nothing but the two slots keeps the member from a grant. */
  ghost predicate Eligible(t: State, c: string, now: Time) {
    && c in t.members && MayStart(t, t.members[c], now)
    && forall d <- t.members :: Pending(t.members[d]) ==> t.members[d].sessionID != t.members[c].sessionID
  }

  lemma EligibleIsNotBlocked(t: State, c: string, now: Time)
    requires Eligible(t, c, now)
    ensures c in t.members && t.members[c].sessionID in t.sessions && t.available
    ensures !Blocked(t, t.members[c], BusySessions(t), now)
  {
  }

  lemma TwoOf(t: State)
    requires |PendingClients(t)| == 2
    ensures TwoPending(t)
  {
    hide Pending;
    var p := PendingClients(t);
    var c :| c in p;
    assert |p - {c}| == 1;
    var d :| d in p - {c};
  }

  /** The operations that end in an admission. */
  predicate Admits(s: State, op: Op)
    requires Registered(s)
  {
    match op
    case TickOp(_) => true
    case ExchangeOp(r, now) => Exchange(s, r, now).1.Ok? && !Exchange(s, r, now).1.value.reset
    case FinishOp(sequence, now, observation) =>
      s.checking && sequence == s.sequence && observation.Ok? && ValidInventory(observation.value)
    case _ => false
  }

  lemma AdmitServes(s: State, now: Time, c: string)
    requires Inv(s) && Registered(s) && Eligible(Admit(s, now).state, c, now)
    ensures TwoPending(Admit(s, now).state)
  {
    hide *;
    AdmissionIsWorkConserving(s, now, c);
    EligibleIsNotBlocked(Admit(s, now).state, c, now);
    TwoOf(Admit(s, now).state);
  }

  lemma NoResetProceeds(s: State, r: Request, now: Time)
    requires Registered(s) && Exchange(s, r, now).1.Ok? && !Exchange(s, r, now).1.value.reset
    ensures BeforeAdmission(s, r, now).Proceed?
  {
    hide Registered;
    hide BeforeAdmission;
    hide Admit;
  }

  lemma FinishObserves(s: State, sequence: nat, now: Time, observation: Result<Inventory, string>)
    requires s.checking && sequence == s.sequence && observation.Ok? && ValidInventory(observation.value)
    ensures Observed(s, sequence, now, observation).Some?
  {
    hide ValidInventory;
    hide EndAbsent;
    hide Missing;
  }

  lemma AdmitsIs(s: State, op: Op)
    requires Registered(s) && Admits(s, op)
    ensures
      match op
      case TickOp(_) => true
      case ExchangeOp(r, now) => Exchange(s, r, now).1.Ok? && !Exchange(s, r, now).1.value.reset
      case FinishOp(sequence, now, observation) =>
        s.checking && sequence == s.sequence && observation.Ok? && ValidInventory(observation.value)
      case _ => false
  {
    hide Registered;
    hide Exchange;
    hide ValidInventory;
  }

  /** Whoever could get a grant when an operation has admitted lacks only a slot: both are taken. */
  lemma EligibleAreServed(s: State, op: Op, c: string)
    requires Inv(s) && Registered(s) && Admits(s, op) && Eligible(Step(s, op), c, Now(op))
    ensures TwoPending(Step(s, op))
  {
    hide *;
    StepIs(s, op);
    NowIs(op);
    AdmitsIs(s, op);
    match op
    case TickOp(now) => AdmitServes(s, now, c);
    case ExchangeOp(r, now) =>
      NoResetProceeds(s, r, now);
      ExchangeIs(s, r, now);
      BeforeAdmissionKeeps(s, r, now);
      AdmitServes(BeforeAdmission(s, r, now).state, now, c);
    case FinishOp(sequence, now, observation) =>
      FinishObserves(s, sequence, now, observation);
      FinishByObservation(s, sequence, now, observation);
      ObservedKeeps(s, sequence, now, observation);
      AdmitServes(Observed(s, sequence, now, observation).value, now, c);
    case _ => assert false;
  }

  // ---------------------------------------------------------------- host observations

  /** A host observation is wanted: at once, but never within a second of the last one's start. */
  function Wish(s: State, now: Time): State {
    var due := if now < s.lastProbe + 1_000_000_000 then s.lastProbe + 1_000_000_000 else now;
    s.(wanted := true, nextProbe := if s.nextProbe == 0 || due < s.nextProbe then due else s.nextProbe)
  }

  /** The host observation's own fields. */
  predicate SameHost(s: State, t: State) {
    && t.available == s.available && t.checking == s.checking && t.reason == s.reason
    && t.lastProbe == s.lastProbe && t.failures == s.failures && t.sequence == s.sequence
    && t.observing == s.observing && t.inventory == s.inventory
  }

  predicate SameWish(s: State, t: State) {
    t.wanted == s.wanted && t.nextProbe == s.nextProbe
  }

  lemma WishIs(s: State, now: Time)
    ensures RequestProbe(s, now) == if s.checking then s else Wish(s, now)
  {
    hide Registered;
  }

  lemma WishTwice(s: State, now: Time)
    ensures Wish(Wish(s, now), now) == Wish(s, now)
  {
  }

  lemma KnownHost(s: State, r: Request, now: Time)
    requires Registered(s)
    ensures
      var t := Known(s, r, now);
      && SameHost(s, t)
      && SameWish(if !s.checking && (r.client !in s.members || r.retry) then Wish(s, now) else s, t)
  {
    hide Registered;
    hide NewMember;
  }

  lemma SetMemberHost(s: State, c: string, m: Member)
    requires c in s.members && m.sessionID == s.members[c].sessionID
    ensures SameHost(s, SetMember(s, c, m)) && SameWish(s, SetMember(s, c, m))
  {
    hide Registered;
  }

  lemma FailHost(s: State, c: string, now: Time)
    requires c in s.members && s.members[c].sessionID in s.sessions
    ensures SameHost(s, Fail(s, c, now)) && SameWish(s, Fail(s, c, now))
  {
    hide Registered;
    hide RecoveryDelay;
  }

  lemma MarkReadyHost(s: State, c: string)
    requires c in s.members && s.members[c].sessionID in s.sessions
    ensures SameHost(s, MarkReady(s, c)) && SameWish(s, MarkReady(s, c))
  {
    hide Registered;
  }

  lemma WishHost(s: State, t: State, now: Time)
    requires SameHost(s, t) && SameWish(s, t)
    ensures SameHost(s, RequestProbe(t, now))
    ensures SameWish(if s.checking then s else Wish(s, now), RequestProbe(t, now))
  {
    hide Registered;
  }

  lemma NoteHost(s: State, r: Request)
    requires r.client in s.members
    ensures SameHost(s, NoteConnecting(s, r)) && SameWish(s, NoteConnecting(s, r))
  {
    hide Registered;
  }

  lemma SameAsItself(s: State)
    ensures SameHost(s, s) && SameWish(s, s)
  {
  }

  lemma EventHost(t: State, r: Request, now: Time)
    requires r.client in t.members && t.members[r.client].sessionID in t.sessions && !r.event.UnknownEvent?
    ensures
      var e := ApplyEvent(t, r, now);
      var m := t.members[r.client];
      var lost := r.event == LostEvent && m.active != "" && m.active == r.attempt && m.active != m.retired;
      && SameHost(t, e.state)
      && SameWish(if !t.checking && lost then Wish(t, now) else t, e.state)
  {
    hide Registered;
    hide Fail;
    hide MarkReady;
    hide SetMember;
    hide RequestProbe;
    hide Wish;
    hide SameHost;
    hide SameWish;
    var m := t.members[r.client];
    SameAsItself(t);
    SetMemberHost(t, r.client, m.(proposed := r.attempt));
    SetMemberHost(t, r.client, m.(reset := false));
    FailHost(t, r.client, now);
    MarkReadyHost(t, r.client);
    WishHost(t, Fail(t, r.client, now), now);
  }

  lemma HostsAgree(s: State, t: State, u: State)
    requires SameHost(s, t) && SameHost(t, u)
    ensures SameHost(s, u)
  {
  }

  lemma WishesAgree(s: State, t: State, u: State)
    requires SameWish(s, t) && SameWish(t, u)
    ensures SameWish(s, u)
  {
  }

  lemma WishedTwice(s: State, t: State, now: Time, once: bool, again: bool)
    requires SameHost(s, t) && SameWish(if once then Wish(s, now) else s, t)
    ensures SameWish(if once || again then Wish(s, now) else s, if again then Wish(t, now) else t)
  {
  }

  lemma BeforeAdmissionHost(s: State, r: Request, now: Time)
    requires Inv(s) && Registered(s) && Recognised(s, r)
    ensures
      var t := BeforeAdmission(s, r, now);
      var wished := r.client !in s.members || r.retry || Loses(s, ExchangeOp(r, now), r.sessionID);
      && !t.Refused? && SameHost(s, t.state)
      && SameWish(if !s.checking && wished then Wish(s, now) else s, t.state)
  {
    hide *;
    RefusedUnlessRecognised(s, r, now);
    AttemptNamed(s, r);
    EventNamed(s, r);
    BeforeAdmissionIs(s, r, now);
    KnownKeepsRecognised(s, r, now);
    KnownHost(s, r, now);
    KnownCaller(s, r, now);
    var t := Known(s, r, now);
    var m := t.members[r.client];
    InvMember(t, r.client);
    LosesIs(s, r, now);
    ActiveIsNotRetired(m);
    SameChecking(s, t);
    if m.active == "" || m.active == r.attempt {
      EventHost(t, r, now);
      var e := ApplyEvent(t, r, now);
      HostsAgree(s, t, e.state);
      WishedTwice(s, t, now, !s.checking && (r.client !in s.members || r.retry),
                  !s.checking && r.event == LostEvent && m.active != "" && m.active == r.attempt && m.active != m.retired);
      WishesAgree(
        if !s.checking && (r.client !in s.members || r.retry || Loses(s, ExchangeOp(r, now), r.sessionID)) then Wish(s, now) else s,
        if !s.checking && Loses(s, ExchangeOp(r, now), r.sessionID) then Wish(t, now) else t, e.state);
      if e.Proceed? {
        NoteHost(e.state, r);
        HostsAgree(s, e.state, NoteConnecting(e.state, r));
        WishesAgree(
          if !s.checking && (r.client !in s.members || r.retry || Loses(s, ExchangeOp(r, now), r.sessionID)) then Wish(s, now) else s,
          e.state, NoteConnecting(e.state, r));
      }
    }
  }

  lemma ActiveIsNotRetired(m: Member)
    requires MemberInv(m)
    ensures m.active != "" ==> m.active != m.retired
  {
  }

  lemma SameChecking(s: State, t: State)
    requires SameHost(s, t)
    ensures t.checking == s.checking
  {
  }

  lemma LosesIs(s: State, r: Request, now: Time)
    requires Recognised(s, r) && r.attempt != ""
    ensures
      var m := Overdue(if r.client in s.members then s.members[r.client] else Newcomer(s, r), now);
      Loses(s, ExchangeOp(r, now), r.sessionID) <==> r.event == LostEvent && m.active != "" && m.active == r.attempt
  {
    hide ValidRequest;
  }

  /** An exchange touches the host observation only by wishing for one: for a newcomer, on request or after a loss. */
  lemma ExchangeWishes(s: State, r: Request, now: Time)
    requires Inv(s) && Registered(s)
    ensures
      var t := Step(s, ExchangeOp(r, now));
      var wished := r.client !in s.members || r.retry || Loses(s, ExchangeOp(r, now), r.sessionID);
      && SameHost(s, t)
      && SameWish(if Recognised(s, r) && !s.checking && wished then Wish(s, now) else s, t)
  {
    hide *;
    StepIs(s, ExchangeOp(r, now));
    ExchangeIs(s, r, now);
    RefusedUnlessRecognised(s, r, now);
    SameAsItself(s);
    if Recognised(s, r) {
      BeforeAdmissionHost(s, r, now);
      var e := BeforeAdmission(s, r, now);
      if e.Proceed? {
        AdmitFrame(e.state, now);
        AdmitHost(e.state, now);
        HostsAgree(s, e.state, Admit(e.state, now).state);
        WishesAgree(
          if !s.checking && (r.client !in s.members || r.retry || Loses(s, ExchangeOp(r, now), r.sessionID)) then Wish(s, now) else s,
          e.state, Admit(e.state, now).state);
      }
    }
  }

  lemma AdmitHost(s: State, now: Time)
    requires Registered(s)
    ensures SameHost(s, Admit(s, now).state) && SameWish(s, Admit(s, now).state)
  {
    hide Registered;
    hide Admit;
    AdmitFrame(s, now);
  }

  /**
   A host observation begins exactly when none is under way, somebody is registered, it is due, and
   it is wanted or somebody is neither ready nor ended.
   */
  lemma ProbeBegins(s: State, now: Time)
    requires Registered(s)
    ensures
      var t := Step(s, BeginOp(now));
      if && !s.checking && s.members != map[] && s.nextProbe <= now
         && (s.wanted || exists c <- s.members :: !s.members[c].ready && !s.members[c].ended)
      then
        t == s.(checking := true, wanted := false, lastProbe := now, sequence := s.sequence + 1,
                observing := map c <- s.members :: s.members[c].birth)
      else t == s
  {
    hide Registered;
    StepIs(s, BeginOp(now));
    hide Step;
    Nobody(s);
  }

  lemma Nobody(s: State)
    ensures |s.members| == 0 <==> s.members == map[]
  {
  }

  /** A failed observation makes the host unavailable until the next one, after the usual delay. */
  lemma ProbeFails(s: State, sequence: nat, now: Time, observation: Result<Inventory, string>)
    requires Registered(s) && (observation.Err? || !ValidInventory(observation.value))
    ensures
      var t := Step(s, FinishOp(sequence, now, observation));
      if s.checking && sequence == s.sequence then
        && t == s.(checking := false, available := false, reason := t.reason, observing := map[],
                   nextProbe := now + Delay(s.failures), failures := if s.failures < 6 then s.failures + 1 else 6)
      else t == s
  {
    DelayIs(s.failures);
    StepIs(s, FinishOp(sequence, now, observation));
    hide Registered;
    hide Step;
    hide Delay;
    hide RecoveryDelay;
    hide ValidInventory;
  }

  lemma ObservedHost(s: State, sequence: nat, now: Time, observation: Result<Inventory, string>)
    requires s.checking && sequence == s.sequence && observation.Ok? && ValidInventory(observation.value)
    ensures
      var o := Observed(s, sequence, now, observation);
      var ids := observation.value.ids.value;
      && o.Some? && o.value.members == EndAbsent(s, ids)
      && !o.value.checking && o.value.available && o.value.failures == 0 && o.value.inventory == ids
      && o.value.lastProbe == s.lastProbe && o.value.sequence == s.sequence && o.value.observing == map[]
      && var due := s.(nextProbe := now + 30_000_000_000);
         SameWish(if Missing(o.value.members, ids) then Wish(due, now) else due, o.value)
  {
    hide Registered;
    hide ValidInventory;
    hide EndAbsent;
    hide Missing;
  }

  /** Somebody who is not ended has a session that the inventory does not show. */
  ghost predicate Unseen(t: State) {
    exists c <- t.members ::
      && !t.members[c].ended
      && (if t.members[c].session in t.inventory then t.inventory[t.members[c].session] else "") != t.members[c].sessionID
  }

  ghost predicate SameIdentities(s: State, t: State) {
    && t.members.Keys == s.members.Keys
    && forall c <- s.members ::
         && t.members[c].ended == s.members[c].ended
         && t.members[c].session == s.members[c].session && t.members[c].sessionID == s.members[c].sessionID
  }

  lemma UnseenIs(s: State, t: State)
    requires SameIdentities(s, t) && t.inventory == s.inventory
    ensures Unseen(t) <==> Missing(s.members, s.inventory)
  {
    forall c <- s.members
      ensures Absent(t.members[c], t.inventory) <==> Absent(s.members[c], s.inventory)
    {
      assert t.members[c].session == s.members[c].session;
    }
    hide Absent;
    UnseenMeansAbsent(t);
    if exists c <- t.members :: !t.members[c].ended && Absent(t.members[c], t.inventory) {
      var c :| c in t.members && !t.members[c].ended && Absent(t.members[c], t.inventory);
      assert c in s.members && !s.members[c].ended;
    }
    if Missing(s.members, s.inventory) {
      var c :| c in s.members && !s.members[c].ended && Absent(s.members[c], s.inventory);
      assert c in t.members && !t.members[c].ended;
    }
  }

  lemma UnseenMeansAbsent(t: State)
    ensures Unseen(t) <==> exists c <- t.members :: !t.members[c].ended && Absent(t.members[c], t.inventory)
  {
  }

  lemma AdmitIdentities(s: State, now: Time)
    requires Inv(s) && Registered(s)
    ensures SameIdentities(s, Admit(s, now).state)
  {
    hide Inv;
    hide Registered;
    hide Admit;
    hide MayStart;
    AdmitKeys(s, now);
    forall c <- s.members
      ensures
        var m, n := s.members[c], Admit(s, now).state.members[c];
        n.ended == m.ended && n.session == m.session && n.sessionID == m.sessionID
    {
      AdmitTells(s, now, c);
    }
  }

  /**
   A successful observation makes the host available with the sessions it saw.  The next one is due
   in thirty seconds, or as soon as allowed while somebody's session is not among them.
   */
  lemma ProbeSucceeds(s: State, sequence: nat, now: Time, observation: Result<Inventory, string>)
    requires Inv(s) && Registered(s)
    requires s.checking && sequence == s.sequence && observation.Ok? && ValidInventory(observation.value)
    ensures
      var t := Step(s, FinishOp(sequence, now, observation));
      && !t.checking && t.available && t.failures == 0 && t.inventory == observation.value.ids.value
      && t.lastProbe == s.lastProbe && t.sequence == s.sequence && t.observing == map[]
      && var due := s.(nextProbe := now + 30_000_000_000);
         SameWish(if Unseen(t) then Wish(due, now) else due, t)
  {
    hide *;
    StepIs(s, FinishOp(sequence, now, observation));
    FinishByObservation(s, sequence, now, observation);
    ObservedHost(s, sequence, now, observation);
    ObservedKeeps(s, sequence, now, observation);
    var o := Observed(s, sequence, now, observation).value;
    AdmitFrame(o, now);
    AdmitIdentities(o, now);
    AdmitHost(o, now);
    UnseenIs(o, Admit(o, now).state);
    var due := s.(nextProbe := now + 30_000_000_000);
    WishesAgree(if Missing(o.members, o.inventory) then Wish(due, now) else due, o, Admit(o, now).state);
  }

  /** Ticks and departures leave the host observation alone. */
  lemma OthersLeaveTheHost(s: State, op: Op)
    requires Registered(s) && (op.TickOp? || op.LeaveOp?)
    ensures SameHost(s, Step(s, op)) && SameWish(s, Step(s, op))
  {
    StepIs(s, op);
    hide Registered;
    hide Step;
    hide Admit;
    hide Without;
    if op.TickOp? {
      AdmitHost(s, op.now);
    }
  }
}
