/**
 The discipline of host probes in the reconnect coordinator: one at a time, at least a second
 apart, and only a probe that succeeds ends members, exactly those it is entitled to end.
 */
module RecoveryProbes {
  import opened Wrappers
  import opened Recovery
  import opened RecoveryTheorems

  /** Outside a probe, the next one is due no sooner than a second after the last. */
  ghost predicate Spaced(s: State) {
    s.sequence == 0 || s.checking || s.nextProbe >= s.lastProbe + SECOND
  }

  /** No probe starts or ends, and a pending probe's due time is not moved. */
  ghost predicate ProbeQuiet(s: State, t: State) {
    && t.lastProbe == s.lastProbe && t.sequence == s.sequence && t.checking == s.checking
    && t.observing == s.observing && t.inventory == s.inventory && t.available == s.available
    && (s.checking ==> t.nextProbe == s.nextProbe && t.wanted == s.wanted)
    && (t.nextProbe != s.nextProbe ==> t.nextProbe >= s.lastProbe + SECOND)
  }

  /** Nobody is ended: an ended member was ended before, under the same identity. */
  ghost predicate EndsNobody(s: State, t: State) {
    forall c <- t.members ::
      t.members[c].ended ==>
        c in s.members && s.members[c].ended && s.members[c].birth == t.members[c].birth
  }

  ghost predicate Quiet(s: State, t: State) { ProbeQuiet(s, t) && EndsNobody(s, t) }

  lemma QuietTransitive(s: State, t: State, u: State)
    requires Quiet(s, t) && Quiet(t, u)
    ensures Quiet(s, u)
  {
  }

  lemma QuietSelf(s: State)
    ensures Quiet(s, s)
  {
  }

  lemma QuietRequest(s: State, now: Time)
    ensures Quiet(s, RequestProbe(s, now))
  {
    hide Registered;
  }

  lemma QuietExpire(s: State, now: Time)
    ensures Quiet(s, Expire(s, now))
  {
    hide Registered;
  }

  lemma QuietEnroll(s: State, r: Request)
    ensures Quiet(s, Enroll(s, r))
  {
    assert !NewMember(s, r).ended;
    hide NewMember;
    hide Registered;
  }

  lemma QuietRemove(s: State, c: string)
    ensures Quiet(s, Remove(s, c))
  {
  }

  lemma QuietKnown(s: State, r: Request, now: Time)
    requires Registered(s)
    ensures Quiet(s, Known(s, r, now))
  {
    hide Quiet;
    hide Registered;
    hide Enroll;
    hide Expire;
    hide RequestProbe;
    var entered := Enroll(s, r);
    var known := if r.client in s.members then s else RequestProbe(entered, now);
    var asked := if r.retry then RequestProbe(known, now) else known;
    QuietSelf(s);
    QuietEnroll(s, r);
    QuietRequest(entered, now);
    QuietTransitive(s, entered, RequestProbe(entered, now));
    QuietRequest(known, now);
    QuietSelf(known);
    QuietTransitive(s, known, asked);
    QuietExpire(asked, now);
    QuietTransitive(s, asked, Expire(asked, now));
  }

  lemma EventKeepsEnded(m: Member, r: Request, now: Time)
    ensures
      var n := MemberAfterEvent(m, r, now);
      n.Some? ==> n.value.ended == m.ended && n.value.birth == m.birth
  {
  }

  /** Only members and retry entries differ. */
  ghost predicate SameProbes(s: State, t: State) {
    t == s.(members := t.members, sessions := t.sessions)
  }

  lemma SameProbesAreQuiet(s: State, t: State)
    requires SameProbes(s, t)
    ensures ProbeQuiet(s, t)
  {
  }

  lemma SetMemberFrame(s: State, c: string, m: Member)
    requires c in s.members && m.sessionID == s.members[c].sessionID
    ensures SameProbes(s, SetMember(s, c, m))
  {
    hide Registered;
  }

  lemma FailFrame(s: State, c: string, now: Time)
    requires c in s.members && s.members[c].sessionID in s.sessions
    ensures SameProbes(s, Fail(s, c, now)) && SameProbes(s, MarkReady(s, c))
  {
    hide Registered;
    hide RecoveryDelay;
  }

  lemma FailedProbeQuiet(s: State, c: string, now: Time)
    requires c in s.members && s.members[c].sessionID in s.sessions
    ensures ProbeQuiet(s, RequestProbe(Fail(s, c, now), now))
  {
    FailFrame(s, c, now);
    hide Fail;
    hide Registered;
  }

  lemma EventProbeQuiet(t: State, r: Request, now: Time)
    requires r.client in t.members && t.members[r.client].sessionID in t.sessions
    ensures ProbeQuiet(t, ApplyEvent(t, r, now).state)
  {
    hide Registered;
    hide RecoveryDelay;
    hide Fail;
    hide MarkReady;
    hide SetMember;
    hide RequestProbe;
    hide ProbeQuiet;
    hide SameProbes;
    var m := t.members[r.client];
    SameSelf(t);
    SameProbesAreQuiet(t, t);
    SetMemberFrame(t, r.client, m.(proposed := r.attempt));
    SameProbesAreQuiet(t, SetMember(t, r.client, m.(proposed := r.attempt)));
    SetMemberFrame(t, r.client, m.(reset := false));
    SameProbesAreQuiet(t, SetMember(t, r.client, m.(reset := false)));
    FailFrame(t, r.client, now);
    SameProbesAreQuiet(t, MarkReady(t, r.client));
    FailedProbeQuiet(t, r.client, now);
  }

  lemma SameSelf(s: State)
    ensures SameProbes(s, s)
  {
  }

  lemma QuietEvent(t: State, r: Request, now: Time)
    requires r.client in t.members && t.members[r.client].sessionID in t.sessions
    ensures Quiet(t, ApplyEvent(t, r, now).state)
  {
    hide Registered;
    hide ApplyEvent;
    hide MemberAfterEvent;
    EventMember(t, r, now);
    EventKeepsEnded(t.members[r.client], r, now);
    EventProbeQuiet(t, r, now);
    hide ProbeQuiet;
  }

  lemma QuietNote(s: State, r: Request)
    requires r.client in s.members
    ensures Quiet(s, NoteConnecting(s, r))
  {
    var m := s.members[r.client];
    hide Registered;
    hide SetMember;
    hide ProbeQuiet;
    hide SameProbes;
    SetMemberFrame(s, r.client, m.(reset := true));
    SameProbesAreQuiet(s, SetMember(s, r.client, m.(reset := true)));
    SameSelf(s);
    SameProbesAreQuiet(s, s);
  }

  lemma QuietBeforeAdmission(s: State, r: Request, now: Time)
    requires Registered(s) && !BeforeAdmission(s, r, now).Refused?
    ensures Quiet(s, BeforeAdmission(s, r, now).state)
  {
    hide Quiet;
    hide Registered;
    hide Known;
    hide ApplyEvent;
    hide NoteConnecting;
    hide ValidRequest;
    hide TokenTaken;
    hide SameIdentity;
    var t := Known(s, r, now);
    QuietKnown(s, r, now);
    RegisteredSession(t, r.client);
    QuietEvent(t, r, now);
    var e := ApplyEvent(t, r, now);
    QuietTransitive(s, t, e.state);
    if e.Proceed? {
      QuietNote(e.state, r);
      QuietTransitive(s, e.state, NoteConnecting(e.state, r));
    }
  }

  lemma AdmitEndsNobody(s: State, now: Time)
    requires Inv(s) && Registered(s)
    ensures EndsNobody(s, Admit(s, now).state)
  {
    hide Inv;
    hide Admit;
    hide Registered;
    AdmitKeys(s, now);
    forall c <- s.members
      ensures
        var n := Admit(s, now).state.members[c];
        n.ended == s.members[c].ended && n.birth == s.members[c].birth
    {
      InvMember(s, c);
      AdmitMember(s, now, c);
    }
  }

  lemma QuietAdmit(s: State, now: Time)
    requires Inv(s) && Registered(s)
    ensures Quiet(s, Admit(s, now).state)
  {
    AdmitFrame(s, now);
    AdmitEndsNobody(s, now);
    hide Admit;
    hide EndsNobody;
    hide Inv;
    hide Registered;
  }

  lemma QuietExchange(s: State, r: Request, now: Time)
    requires Inv(s) && Registered(s)
    ensures Quiet(s, Exchange(s, r, now).0)
  {
    hide Inv;
    hide Registered;
    hide BeforeAdmission;
    hide MakeReply;
    hide Admit;
    hide Quiet;
    BeforeAdmissionKeeps(s, r, now);
    var e := BeforeAdmission(s, r, now);
    QuietSelf(s);
    if !e.Refused? {
      QuietBeforeAdmission(s, r, now);
      if e.Proceed? {
        QuietAdmit(e.state, now);
        QuietTransitive(s, e.state, Admit(e.state, now).state);
      }
    }
  }

  /** The probe under way when the operation runs is the one this operation finishes. */
  predicate Finishes(s: State, op: Op) {
    op.FinishOp? && s.checking && op.sequence == s.sequence
  }

  predicate Starts(s: State, op: Op) { op.BeginOp? && BeginProbe(s, op.now).1.Some? }

  /** The finish carries a usable observation. */
  predicate Succeeds(s: State, op: Op) {
    Finishes(s, op) && op.observation.Ok? && ValidInventory(op.observation.value)
  }

  /** Every operation that neither starts nor finishes a probe leaves probes and ended members alone. */
  lemma OtherStepsAreQuiet(s: State, op: Op)
    requires Inv(s) && Registered(s) && !Starts(s, op) && !Finishes(s, op)
    ensures Quiet(s, Step(s, op))
  {
    hide Inv;
    hide Registered;
    hide Exchange;
    hide Admit;
    hide Remove;
    hide Quiet;
    QuietSelf(s);
    match op
    case ExchangeOp(r, now) => QuietExchange(s, r, now);
    case LeaveOp(c) => QuietRemove(s, c);
    case TickOp(now) => QuietAdmit(s, now);
    case BeginOp(now) =>
    case FinishOp(sequence, now, observation) =>
  }

  // ---------------------------------------------------------------- single flight

  /** The times at which probes start during a run. */
  ghost function StartTimes(s: State, ops: seq<Op>): seq<Time>
    requires Inv(s)
    decreases |ops|
  {
    if ops == [] then []
    else
      StepKeeps(s, ops[0]);
      (if Starts(s, ops[0]) then [ops[0].now] else []) + StartTimes(Step(s, ops[0]), ops[1..])
  }

  ghost predicate NoFinish(sequence: nat, ops: seq<Op>) {
    forall op <- ops :: !(op.FinishOp? && op.sequence == sequence)
  }

  /**
   Probes are single-flight: while one is under way and its own result has not come in, none
   starts, whatever else happens, and what it observes stays what it was at its start.
   */
  lemma {:induction false} SingleFlight(s: State, ops: seq<Op>)
    requires Inv(s) && s.checking && NoFinish(s.sequence, ops)
    ensures
      var t := Run(s, ops);
      && StartTimes(s, ops) == [] && t.checking && t.sequence == s.sequence && t.lastProbe == s.lastProbe
      && t.observing == s.observing && EndsNobody(s, t)
    decreases |ops|
  {
    hide Inv;
    hide Step;
    hide Registered;
    hide EndsNobody;
    QuietSelf(s);
    if ops != [] {
      StepKeeps(s, ops[0]);
      assert !Starts(s, ops[0]) && !Finishes(s, ops[0]);
      OtherStepsAreQuiet(s, ops[0]);
      SingleFlight(Step(s, ops[0]), ops[1..]);
      EndsNobodyTransitive(s, Step(s, ops[0]), Run(s, ops));
    }
  }

  lemma EndsNobodyTransitive(s: State, t: State, u: State)
    requires EndsNobody(s, t) && EndsNobody(t, u)
    ensures EndsNobody(s, u)
  {
  }

  // ---------------------------------------------------------------- a second apart

  /** The result of a probe does not come in before the probe started. */
  ghost predicate Timely(s: State, ops: seq<Op>)
    requires Inv(s)
    decreases |ops|
  {
    ops == [] ||
    (StepKeeps(s, ops[0]);
     && (Finishes(s, ops[0]) ==> ops[0].now >= s.lastProbe)
     && Timely(Step(s, ops[0]), ops[1..]))
  }

  ghost predicate Apart(times: seq<Time>) {
    forall i :: 0 <= i < |times| - 1 ==> times[i + 1] >= times[i] + SECOND
  }

  lemma StartIsSpaced(s: State, now: Time)
    requires Spaced(s) && BeginProbe(s, now).1.Some?
    ensures
      var t := BeginProbe(s, now).0;
      && t.lastProbe == now && t.sequence == s.sequence + 1 && Spaced(t)
      && (s.sequence > 0 ==> now >= s.lastProbe + SECOND)
  {
  }

  lemma ObservedIsSpaced(s: State, sequence: nat, now: Time, observation: Result<Inventory, string>)
    requires Observed(s, sequence, now, observation).Some? && now >= s.lastProbe
    ensures
      var t := Observed(s, sequence, now, observation).value;
      t.lastProbe == s.lastProbe && t.sequence == s.sequence && Spaced(t)
  {
    hide EndAbsent;
    hide Absent;
    hide ValidInventory;
    hide Registered;
  }

  lemma FailedIsSpaced(s: State, now: Time, error: string)
    requires now >= s.lastProbe
    ensures
      var t := FailedProbe(s, now, error);
      t.lastProbe == s.lastProbe && t.sequence == s.sequence && Spaced(t) && t.members == s.members
  {
  }

  lemma FinishIsSpaced(s: State, op: Op)
    requires Inv(s) && Registered(s) && Finishes(s, op) && op.now >= s.lastProbe
    ensures
      var t := Step(s, op);
      t.lastProbe == s.lastProbe && t.sequence == s.sequence && Spaced(t)
  {
    hide Inv;
    hide Registered;
    hide Admit;
    hide FailedProbe;
    hide Observed;
    var o := Observed(s, op.sequence, op.now, op.observation);
    FinishKinds(s, op.sequence, op.now, op.observation);
    if op.observation.Err? {
      FailedIsSpaced(s, op.now, op.observation.error);
    } else if !ValidInventory(op.observation.value) {
      FailedIsSpaced(s, op.now, INVALID_INVENTORY);
    } else {
      ObservedIsSpaced(s, op.sequence, op.now, op.observation);
      AdmitFrame(o.value, op.now);
    }
  }

  lemma FinishKinds(s: State, sequence: nat, now: Time, observation: Result<Inventory, string>)
    requires Registered(s) && s.checking && sequence == s.sequence
    ensures
      Observed(s, sequence, now, observation).Some? <==> observation.Ok? && ValidInventory(observation.value)
  {
    hide ValidInventory;
    hide EndAbsent;
    hide Absent;
  }

  lemma QuietIsSpaced(s: State, t: State)
    requires Spaced(s) && ProbeQuiet(s, t)
    ensures Spaced(t)
  {
  }

  /** Probe starts are at least a second apart, provided no probe ends before it started. */
  lemma {:induction false} ProbesAreSpaced(s: State, ops: seq<Op>)
    requires Inv(s) && Spaced(s) && Timely(s, ops)
    ensures Apart(StartTimes(s, ops))
    ensures StartTimes(s, ops) != [] && s.sequence > 0 ==> StartTimes(s, ops)[0] >= s.lastProbe + SECOND
    decreases |ops|
  {
    hide Inv;
    hide Registered;
    hide Spaced;
    hide Step;
    hide BeginProbe;
    hide EndsNobody;
    if ops != [] {
      StepKeeps(s, ops[0]);
      OneStepSpaced(s, ops[0]);
      ProbesAreSpaced(Step(s, ops[0]), ops[1..]);
    }
  }

  /** In particular over every run of a coordinator from its start. */
  lemma AllProbesAreSpaced(ops: seq<Op>)
    requires (InitialState(); Timely(NEW_STATE, ops))
    ensures Apart(StartTimes(NEW_STATE, ops))
  {
    InitialState();
    assert Spaced(NEW_STATE);
    hide Spaced;
    ProbesAreSpaced(NEW_STATE, ops);
  }

  lemma OneStepSpaced(s: State, op: Op)
    requires Inv(s) && Registered(s) && Spaced(s) && (Finishes(s, op) ==> op.now >= s.lastProbe)
    ensures
      var t := Step(s, op);
      && Spaced(t)
      && if Starts(s, op) then
           t.lastProbe == op.now && t.sequence == s.sequence + 1
           && (s.sequence > 0 ==> op.now >= s.lastProbe + SECOND)
         else t.lastProbe == s.lastProbe && t.sequence == s.sequence
  {
    hide Inv;
    hide Registered;
    hide Spaced;
    hide EndsNobody;
    if Starts(s, op) {
      StartIsSpaced(s, op.now);
    } else if Finishes(s, op) {
      FinishIsSpaced(s, op);
    } else {
      hide Step;
      OtherStepsAreQuiet(s, op);
      QuietIsSpaced(s, Step(s, op));
    }
  }

  // ---------------------------------------------------------------- what a probe ends

  lemma BeginObserves(s: State, now: Time)
    requires BeginProbe(s, now).1.Some?
    ensures
      var (t, sequence) := BeginProbe(s, now);
      && t.checking && t.sequence == sequence.value && t.members == s.members
      && t.observing == Births(s.members)
  {
  }

  lemma ObservedMembers(s: State, sequence: nat, now: Time, observation: Result<Inventory, string>)
    requires Observed(s, sequence, now, observation).Some?
    ensures Observed(s, sequence, now, observation).value.members == EndAbsent(s, observation.value.ids.value)
  {
    hide EndAbsent;
    hide Absent;
    hide ValidInventory;
    hide Registered;
  }

  lemma SuccessMembers(s: State, op: Op, c: string)
    requires Inv(s) && Registered(s) && Succeeds(s, op)
    ensures
      var t := Step(s, op);
      && t.members.Keys == s.members.Keys
      && (c in s.members ==>
            && t.members[c].birth == s.members[c].birth
            && (t.members[c].ended <==>
                  || s.members[c].ended
                  || (c in s.observing && s.observing[c] == s.members[c].birth
                      && Absent(s.members[c], op.observation.value.ids.value))))
  {
    hide Inv;
    hide Registered;
    hide Admit;
    hide Observed;
    hide Absent;
    hide ValidInventory;
    FinishKinds(s, op.sequence, op.now, op.observation);
    var o := Observed(s, op.sequence, op.now, op.observation).value;
    ObservedMembers(s, op.sequence, op.now, op.observation);
    ObservedKeeps(s, op.sequence, op.now, op.observation);
    AdmitKeys(o, op.now);
    if c in s.members {
      InvMember(o, c);
      AdmitMember(o, op.now, c);
    }
  }

  /**
   A successful probe ends exactly the members that were registered when it started, still are,
   as the same object, and are missing from the inventory, however much happened in between.
   */
  lemma ProbeEndsExactly(s: State, begin: Time, between: seq<Op>, op: Op, c: string)
    requires Inv(s) && BeginProbe(s, begin).1.Some?
    requires op.FinishOp? && op.sequence == BeginProbe(s, begin).1.value && NoFinish(op.sequence, between)
    requires op.observation.Ok? && ValidInventory(op.observation.value)
    ensures
      var before := Run(s, [BeginOp(begin)] + between);
      var after := Run(before, [op]);
      && after.members.Keys == before.members.Keys
      && (c in after.members ==>
            (after.members[c].ended <==>
               || before.members[c].ended
               || (c in s.members && s.members[c].birth == before.members[c].birth
                   && Absent(before.members[c], op.observation.value.ids.value))))
  {
    hide Inv;
    hide ValidInventory;
    hide Absent;
    hide Registered;
    StepKeeps(s, BeginOp(begin));
    BeginObserves(s, begin);
    var first := BeginProbe(s, begin).0;
    assert ([BeginOp(begin)] + between)[1..] == between;
    assert Run(s, [BeginOp(begin)] + between) == Run(first, between);
    var before := Run(first, between);
    SingleFlight(first, between);
    hide BeginProbe;
    hide EndsNobody;
    StepKeeps(before, op);
    assert Run(before, [op]) == Step(before, op);
    SuccessMembers(before, op, c);
  }

  /** Nothing else ends anybody: not a failed, invalid or out-of-date probe, nor any other operation. */
  lemma OnlySuccessEnds(s: State, op: Op)
    requires Inv(s) && Registered(s) && !Succeeds(s, op)
    ensures EndsNobody(s, Step(s, op))
  {
    hide Inv;
    hide Registered;
    if Starts(s, op) {
      BeginObserves(s, op.now);
    } else if Finishes(s, op) {
      hide EndAbsent;
      hide ValidInventory;
      hide Admit;
    } else {
      hide Step;
      OtherStepsAreQuiet(s, op);
    }
  }
}
