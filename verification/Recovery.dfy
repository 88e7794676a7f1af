/**
 The reconnect coordinator (internal/mirror/session_recovery.go) as a state machine.

 Each operation of the source is a function from state to state; the class in
 RecoveryObject.dfy runs the same operations in place.  Times are nanoseconds, 0 is the zero
 time.  `birth` numbers registrations and stands for a member's object identity.
 */
module Recovery {
  import opened Wrappers

  type Time = int

  const SECOND: Time := 1_000_000_000
  const ZERO_TIME: Time := 0
  const MAX_CATALOG: nat := 4096

  datatype Phase = Offline | Checking | Connecting | Ready | UnknownPhase

  datatype Event = NoEvent | ReadyEvent | LostEvent | UnknownEvent

  /** `safeName` tells whether the session name is a safe socket file name. */
  datatype Request = Request(
    token: string, client: string, session: string, sessionID: string,
    attempt: string, event: Event, state: Phase, retry: bool, safeName: bool)

  datatype Grant = Grant(attempt: string, deadline: Time)

  datatype Reply = Reply(
    checking: bool, reason: string, retryAt: Time, grant: Option<Grant>,
    ended: bool, reset: bool, cancelAttempt: string)

  /** `safeNames` tells whether every active name passes both session-name checks. */
  datatype Inventory = Inventory(
    generatedAt: Time, active: Option<seq<string>>, ids: Option<map<string, string>>, safeNames: bool)

  datatype Member = Member(
    token: string, session: string, sessionID: string, birth: nat,
    proposed: string, active: string, retired: string, deadline: Time,
    ready: bool, ended: bool, reset: bool)

  datatype Retry = Retry(failures: nat, at: Time)

  datatype State = State(
    members: map<string, Member>, order: seq<string>, sessions: map<string, Retry>,
    available: bool, checking: bool, wanted: bool, reason: string,
    nextProbe: Time, lastProbe: Time, failures: nat, sequence: nat,
    observing: map<string, nat>, inventory: map<string, string>, births: nat)

  const NEW_STATE := State(
    map[], [], map[], false, false, false, "Waiting for host observation",
    ZERO_TIME, ZERO_TIME, 0, 0, map[], map[], 0)

  function Min(a: int, b: int): int { if a < b then a else b }

  // ---------------------------------------------------------------- validation

  predicate Hex32(s: string) {
    |s| == 32 && forall c <- s :: 'a' <= c <= 'f' || '0' <= c <= '9'
  }

  predicate Base64Url(c: char) {
    'A' <= c <= 'Z' || 'a' <= c <= 'z' || '0' <= c <= '9' || c == '-' || c == '_'
  }

  /** "ses_" and the canonical unpadded base64url of 32 bytes: the last digit has two zero bits. */
  predicate ValidSessionID(id: string) {
    && |id| == 47 && id[..4] == "ses_"
    && (forall c <- id[4..] :: Base64Url(c))
    && id[46] in "AEIMQUYcgkosw048"
  }

  predicate ValidRequest(r: Request) {
    && Hex32(r.client) && Hex32(r.token) && Hex32(r.attempt)
    && ValidSessionID(r.sessionID) && r.safeName
    && !r.state.UnknownPhase? && !r.event.UnknownEvent?
  }

  predicate ValidInventory(i: Inventory) {
    && i.active.Some? && i.ids.Some?
    && i.generatedAt != ZERO_TIME
    && |i.active.value| <= MAX_CATALOG && |i.active.value| == |i.ids.value|
    && i.safeNames
    && (forall a, b :: 0 <= a < b < |i.active.value| ==> i.active.value[a] != i.active.value[b])
    && (forall n <- i.active.value :: n in i.ids.value && ValidSessionID(i.ids.value[n]))
    && (forall a, b :: 0 <= a < b < |i.active.value| ==>
          i.ids.value[i.active.value[a]] != i.ids.value[i.active.value[b]])
  }

  // ---------------------------------------------------------------- the operations

  function Power2(n: nat): nat { if n == 0 then 1 else 2 * Power2(n - 1) }

  function RecoveryDelay(failures: nat): (d: Time)
    ensures SECOND <= d <= 30 * SECOND
  {
    PowerBounds(Min(failures, 5));
    Min(30 * SECOND, SECOND * Power2(Min(failures, 5)))
  }

  lemma {:induction false} PowerBounds(n: nat)
    ensures Power2(n) >= 1
  {
    if n > 0 {
      PowerBounds(n - 1);
    }
  }

  predicate Pending(m: Member) { m.active != "" && !m.ready }

  predicate Absent(m: Member, inventory: map<string, string>) {
    (if m.session in inventory then inventory[m.session] else "") != m.sessionID
  }

  /** Order and retry entries refer to what is registered. */
  predicate Registered(s: State) {
    && (forall c <- s.order :: c in s.members)
    && (forall c <- s.members :: s.members[c].sessionID in s.sessions)
  }

  function RequestProbe(s: State, now: Time): (t: State)
    ensures t == s.(wanted := t.wanted, nextProbe := t.nextProbe)
    ensures Registered(s) ==> Registered(t)
  {
    if s.checking then s
    else
      var floor := s.lastProbe + SECOND;
      var due := if now < floor then floor else now;
      s.(wanted := true,
         nextProbe := if s.nextProbe == ZERO_TIME || due < s.nextProbe then due else s.nextProbe)
  }

  predicate Settled(members: map<string, Member>) {
    forall c <- members :: members[c].ready || members[c].ended
  }

  /** The registrations present, by client. */
  function Births(members: map<string, Member>): map<string, nat> {
    map c <- members :: members[c].birth
  }

  function BeginProbe(s: State, now: Time): (State, Option<nat>) {
    if s.checking || |s.members| == 0 || now < s.nextProbe then (s, None)
    else if !s.wanted && Settled(s.members) then (s, None)
    else
      (s.(checking := true, wanted := false, lastProbe := now, sequence := s.sequence + 1,
          observing := Births(s.members)),
       Some(s.sequence + 1))
  }

  /** Revokes every pending grant whose deadline has passed. */
  function ExpireMember(m: Member, now: Time): Member {
    if Pending(m) && now >= m.deadline then m.(reset := true) else m
  }

  function Expire(s: State, now: Time): (t: State)
    ensures t == s.(members := t.members) && t.members.Keys == s.members.Keys
    ensures Registered(s) ==> Registered(t)
  {
    s.(members := map c <- s.members :: ExpireMember(s.members[c], now))
  }

  function PendingClients(s: State): (r: set<string>)
    ensures forall c :: c in r <==> c in s.members && Pending(s.members[c])
  {
    set c <- s.members | Pending(s.members[c])
  }

  function BusySessions(s: State): (r: set<string>)
    ensures forall id :: id in r <==> exists c <- s.members :: Pending(s.members[c]) && s.members[c].sessionID == id
  {
    set c <- s.members | Pending(s.members[c]) :: s.members[c].sessionID
  }

  predicate Blocked(s: State, m: Member, busy: set<string>, now: Time)
    requires m.sessionID in s.sessions
  {
    m.ended || m.reset || m.active != "" || m.proposed == m.retired || m.sessionID in busy
    || now < s.sessions[m.sessionID].at || Absent(m, s.inventory)
  }

  datatype Admission = Admission(state: State, admitted: seq<string>)

  function Rotate(order: seq<string>): seq<string>
    requires order != []
  {
    order[1..] + [order[0]]
  }

  function Activate(s: State, c: string, now: Time): State
    requires c in s.members
  {
    var m := s.members[c];
    s.(members := s.members[c := m.(active := m.proposed, deadline := now + 15 * SECOND)])
  }

  /** The member at the head goes to the tail, and gets a grant unless something blocks it. */
  function ScanTurn(s: State, busy: set<string>, now: Time): (turn: Admission)
    requires Registered(s) && s.order != []
    ensures Registered(turn.state) && |turn.state.order| == |s.order|
    ensures turn.state.members.Keys == s.members.Keys
  {
    var c := s.order[0];
    var rotated := s.(order := Rotate(s.order));
    if Blocked(s, s.members[c], busy, now) then Admission(rotated, [])
    else Admission(Activate(rotated, c, now), [c])
  }

  function BusyAfter(s: State, busy: set<string>, turn: Admission): set<string>
    requires Registered(s) && s.order != []
  {
    if turn.admitted == [] then busy else busy + {s.members[s.order[0]].sessionID}
  }

  /** Walks the queue once, rotating, until two grants are pending. */
  function AdmitScan(s: State, fuel: nat, pending: nat, busy: set<string>, now: Time): Admission
    requires Registered(s) && fuel <= |s.order|
    decreases fuel
  {
    if fuel == 0 || pending >= 2 then Admission(s, [])
    else
      var turn := ScanTurn(s, busy, now);
      var rest := AdmitScan(turn.state, fuel - 1, pending + |turn.admitted|, BusyAfter(s, busy, turn), now);
      rest.(admitted := turn.admitted + rest.admitted)
  }

  function Admit(s: State, now: Time): Admission
    requires Registered(s)
  {
    var e := Expire(s, now);
    if !e.available then Admission(e, [])
    else AdmitScan(e, |e.order|, |PendingClients(e)|, BusySessions(e), now)
  }

  /** A successful observation ends the observed members it no longer shows. */
  function EndMember(m: Member): Member {
    m.(ended := true, active := "", ready := false)
  }

  function EndAbsent(s: State, inventory: map<string, string>): (r: map<string, Member>)
    ensures r.Keys == s.members.Keys
  {
    map c <- s.members ::
      if c in s.observing && s.observing[c] == s.members[c].birth && Absent(s.members[c], inventory)
      then EndMember(s.members[c])
      else s.members[c]
  }

  predicate Missing(members: map<string, Member>, inventory: map<string, string>) {
    exists c <- members :: !members[c].ended && Absent(members[c], inventory)
  }

  /** The observation's effect before admission; None when it fails or is out of date. */
  function Observed(s: State, sequence: nat, now: Time, observation: Result<Inventory, string>): (t: Option<State>)
    ensures t.Some? && Registered(s) ==> Registered(t.value)
  {
    if !s.checking || sequence != s.sequence || observation.Err? || !ValidInventory(observation.value) then None
    else
      var ids := observation.value.ids.value;
      var t := s.(checking := false, available := true, failures := 0,
                  reason := "Waiting for attachment admission", inventory := ids,
                  nextProbe := now + 30 * SECOND,
                  members := EndAbsent(s, ids), observing := map[]);
      if Missing(t.members, ids)
      then Some(RequestProbe(t, now)) else Some(t)
  }

  function FailedProbe(s: State, now: Time, error: string): State {
    s.(checking := false, available := false,
       reason := "Host observation unavailable: " + error,
       nextProbe := now + RecoveryDelay(s.failures), failures := Min(s.failures + 1, 6),
       observing := map[])
  }

  const INVALID_INVENTORY := "invalid session incarnation inventory"

  function FinishProbe(s: State, sequence: nat, now: Time, observation: Result<Inventory, string>): Admission
    requires Registered(s)
  {
    if !s.checking || sequence != s.sequence then Admission(s, [])
    else if observation.Err? then Admission(FailedProbe(s, now, observation.error), [])
    else if !ValidInventory(observation.value) then Admission(FailedProbe(s, now, INVALID_INVENTORY), [])
    else Admit(Observed(s, sequence, now, observation).value, now)
  }

  function NewMember(s: State, r: Request): Member {
    var reset := r.state == Connecting || (r.event != NoEvent && r.state != Ready);
    Member(
      r.token, r.session, r.sessionID, s.births, r.attempt,
      if r.state == Ready then r.attempt else "",
      if reset then r.attempt else "",
      ZERO_TIME, r.state == Ready, false, reset)
  }

  function Enroll(s: State, r: Request): (t: State)
    ensures t.members == s.members[r.client := NewMember(s, r)] && t.order == s.order + [r.client]
    ensures Registered(s) ==> Registered(t)
  {
    hide NewMember;
    NewMemberIdentity(s, r);
    s.(members := s.members[r.client := NewMember(s, r)],
       order := s.order + [r.client],
       sessions := if r.sessionID in s.sessions then s.sessions else s.sessions[r.sessionID := Retry(0, ZERO_TIME)],
       births := s.births + 1)
  }

  lemma NewMemberIdentity(s: State, r: Request)
    ensures SameIdentity(NewMember(s, r), r) && NewMember(s, r).birth == s.births
  {
  }

  function Register(s: State, r: Request, now: Time): State {
    RequestProbe(Enroll(s, r), now)
  }

  /** Updates a member in place; its identity never changes. */
  function SetMember(s: State, c: string, m: Member): (t: State)
    requires c in s.members && m.sessionID == s.members[c].sessionID
    ensures t.members == s.members[c := m] && t.order == s.order && t.sessions == s.sessions
    ensures t.members.Keys == s.members.Keys
    ensures Registered(s) ==> Registered(t)
  {
    s.(members := s.members[c := m])
  }

  function SetRetry(s: State, id: string, retry: Retry): (t: State)
    requires id in s.sessions
    ensures t.members == s.members && t.order == s.order && t.sessions == s.sessions[id := retry]
    ensures Registered(s) ==> Registered(t)
  {
    s.(sessions := s.sessions[id := retry])
  }

  /** The pending or ready attempt is over: it is retired and its session backs off. */
  function Fail(s: State, c: string, now: Time): (t: State)
    requires c in s.members && s.members[c].sessionID in s.sessions
    ensures Registered(s) ==> Registered(t)
    ensures t.members.Keys == s.members.Keys
  {
    var m := s.members[c];
    var retry := s.sessions[m.sessionID];
    SetRetry(
      SetMember(s, c, m.(retired := m.active, active := "", ready := false, reset := false)),
      m.sessionID, Retry(Min(retry.failures + 1, 6), now + RecoveryDelay(retry.failures)))
  }

  function MarkReady(s: State, c: string): (t: State)
    requires c in s.members && s.members[c].sessionID in s.sessions
    ensures Registered(s) ==> Registered(t)
    ensures t.members.Keys == s.members.Keys
  {
    var m := s.members[c];
    SetRetry(SetMember(s, c, m.(ready := true)), m.sessionID, Retry(0, ZERO_TIME))
  }

  /** How an exchange proceeds: refused, answered with a resynchronisation, or on to admission. */
  datatype Exchanged = Refused(error: string) | Resync(state: State) | Proceed(state: State)

  function ApplyEvent(s: State, r: Request, now: Time): (e: Exchanged)
    requires r.client in s.members && s.members[r.client].sessionID in s.sessions
    ensures !e.Refused? && (Registered(s) ==> Registered(e.state)) && e.state.members.Keys == s.members.Keys
  {
    hide Registered;
    var m := s.members[r.client];
    if r.event == NoEvent then
      if m.active == "" && !m.reset && r.attempt != m.retired
      then Proceed(SetMember(s, r.client, m.(proposed := r.attempt)))
      else Proceed(s)
    else if r.event == LostEvent && r.attempt == m.retired then
      Proceed(if m.active == "" then SetMember(s, r.client, m.(reset := false)) else s)
    else if r.attempt != m.active || m.active == "" then Resync(s)
    else if r.event == ReadyEvent then
      if !m.ready && (m.reset || now >= m.deadline) then Resync(s) else Proceed(MarkReady(s, r.client))
    else Proceed(RequestProbe(Fail(s, r.client, now), now))
  }

  /** A helper reports a child the coordinator does not know about. */
  function NoteConnecting(s: State, r: Request): (t: State)
    requires r.client in s.members
    ensures (Registered(s) ==> Registered(t)) && t.members.Keys == s.members.Keys
  {
    var m := s.members[r.client];
    if r.state == Connecting && m.active != r.attempt && r.attempt != m.retired
    then SetMember(s, r.client, m.(reset := true)) else s
  }

  predicate TokenTaken(s: State, token: string) {
    exists c <- s.members :: s.members[c].token == token
  }

  predicate SameIdentity(m: Member, r: Request) {
    m.token == r.token && m.session == r.session && m.sessionID == r.sessionID
  }

  /** The state in which the caller is a member, its wish for a probe noted and late grants revoked. */
  function Known(s: State, r: Request, now: Time): (t: State)
    requires Registered(s)
    ensures Registered(t) && r.client in t.members
  {
    hide Registered;
    var known := if r.client in s.members then s else Register(s, r, now);
    Expire(if r.retry then RequestProbe(known, now) else known, now)
  }

  /** Everything an exchange does before admission. */
  function BeforeAdmission(s: State, r: Request, now: Time): (e: Exchanged)
    requires Registered(s)
    ensures !e.Refused? ==> Registered(e.state) && r.client in e.state.members
  {
    if !ValidRequest(r) then Refused("invalid recovery identity or state")
    else if r.client !in s.members && TokenTaken(s, r.token) then Refused("projection token already registered")
    else if r.client in s.members && !SameIdentity(s.members[r.client], r) then Refused("recovery client identity changed")
    else
      var t := Known(s, r, now);
      var m := t.members[r.client];
      if m.active != "" && r.attempt != m.active then Resync(t)
      else
        match ApplyEvent(t, r, now)
        case Proceed(u) => Proceed(NoteConnecting(u, r))
        case other => other
  }

  function MakeReply(s: State, c: string, now: Time, reset: bool): Reply
    requires c in s.members
  {
    var m := s.members[c];
    var waiting := if !s.available || s.checking then s.nextProbe else ZERO_TIME;
    var backoff := m.sessionID in s.sessions && now < s.sessions[m.sessionID].at;
    Reply(
      s.checking,
      if backoff then "Attachment failed; waiting for session backoff" else s.reason,
      if backoff then s.sessions[m.sessionID].at else waiting,
      if !reset && !m.ended && Pending(m) then Some(Grant(m.active, m.deadline)) else None,
      m.ended, reset,
      if m.reset && Pending(m) then m.active else "")
  }

  lemma {:induction false} AdmitScanKeepsMembers(s: State, fuel: nat, pending: nat, busy: set<string>, now: Time)
    requires Registered(s) && fuel <= |s.order|
    ensures AdmitScan(s, fuel, pending, busy, now).state.members.Keys == s.members.Keys
    decreases fuel
  {
    hide Registered;
    hide ScanTurn;
    hide BusyAfter;
    if fuel > 0 && pending < 2 {
      var turn := ScanTurn(s, busy, now);
      AdmitScanKeepsMembers(turn.state, fuel - 1, pending + |turn.admitted|, BusyAfter(s, busy, turn), now);
    }
  }

  function Exchange(s: State, r: Request, now: Time): (State, Result<Reply, string>)
    requires Registered(s)
  {
    match BeforeAdmission(s, r, now)
    case Refused(error) => (s, Err(error))
    case Resync(t) => (t, Ok(MakeReply(t, r.client, now, true)))
    case Proceed(t) =>
      var u := Admit(t, now).state;
      AdmitScanKeepsMembers(Expire(t, now), |t.order|, |PendingClients(Expire(t, now))|, BusySessions(Expire(t, now)), now);
      var m := u.members[r.client];
      (u, Ok(MakeReply(u, r.client, now, m.reset || r.attempt == m.retired)))
  }

  function Without(order: seq<string>, c: string): seq<string> {
    if order == [] then []
    else if order[0] == c then order[1..]
    else [order[0]] + Without(order[1..], c)
  }

  function Remove(s: State, c: string): State {
    if c !in s.members then s
    else
      var id := s.members[c].sessionID;
      var rest := s.members - {c};
      s.(members := rest, order := Without(s.order, c),
         sessions := if exists d <- rest :: rest[d].sessionID == id then s.sessions else s.sessions - {id})
  }

  // ---------------------------------------------------------------- the invariant

  ghost predicate NoDuplicates(q: seq<string>) {
    forall i, j :: 0 <= i < j < |q| ==> q[i] != q[j]
  }

  /** The queue lists exactly the members, once each. */
  ghost predicate Queue(s: State) {
    NoDuplicates(s.order) && forall c :: c in s.order <==> c in s.members
  }

  /** Retry entries are exactly the members' sessions. */
  ghost predicate RetryEntries(s: State) {
    forall id :: id in s.sessions <==> exists c <- s.members :: s.members[c].sessionID == id
  }

  /** Tokens and object identities are never shared. */
  ghost predicate Identities(s: State) {
    && (forall c, d :: c in s.members && d in s.members && c != d ==>
          s.members[c].token != s.members[d].token && s.members[c].birth != s.members[d].birth)
    && (forall c <- s.members :: s.members[c].birth < s.births)
  }

  ghost predicate Observing(s: State) {
    forall c <- s.observing :: s.observing[c] < s.births
  }

  /** At most two grants are pending, at most one per session. */
  ghost predicate Slots(s: State) {
    && |PendingClients(s)| <= 2
    && forall c, d :: c in PendingClients(s) && d in PendingClients(s) && c != d ==>
         s.members[c].sessionID != s.members[d].sessionID
  }

  ghost predicate MemberInv(m: Member) {
    && m.proposed != ""
    && (m.ready ==> m.active != "" && !m.reset)
    && (m.ended ==> m.active == "")
    && (m.active != "" ==> m.active != m.retired && m.active == m.proposed)
  }

  ghost predicate Healthy(s: State) {
    forall c <- s.members :: MemberInv(s.members[c])
  }

  ghost predicate Inv(s: State) {
    Queue(s) && RetryEntries(s) && Identities(s) && Observing(s) && Slots(s) && Healthy(s)
  }

  lemma InvFacts(s: State)
    requires Inv(s)
    ensures Registered(s) && Healthy(s) && Observing(s)
  {
    hide Healthy;
    hide Slots;
    hide Identities;
  }

  /** A step that registers nobody, grants nothing and lets no ended member come back. */
  ghost predicate Evolves(s: State, t: State) {
    && t.members.Keys == s.members.Keys && t.order == s.order
    && t.sessions.Keys == s.sessions.Keys && t.births == s.births
    && forall c <- s.members :: MemberEvolves(s.members[c], t.members[c])
  }

  ghost predicate MemberEvolves(m: Member, n: Member) {
    && n.token == m.token && n.session == m.session && n.sessionID == m.sessionID && n.birth == m.birth
    && (Pending(n) ==> Pending(m))
    && (m.ended ==> n.ended)
  }

  lemma SmallerSet<T>(a: set<T>, b: set<T>)
    requires a <= b
    ensures |a| <= |b|
  {
    assert b == a + (b - a);
  }

  lemma EvolvesQueue(s: State, t: State)
    requires Evolves(s, t) && Queue(s) && RetryEntries(s) && Identities(s)
    ensures Queue(t) && RetryEntries(t) && Identities(t)
  {
    hide Pending;
    forall id ensures id in t.sessions <==> exists c <- t.members :: t.members[c].sessionID == id {
      assert id in t.sessions <==> id in s.sessions;
    }
  }

  lemma EvolvesSlots(s: State, t: State)
    requires Evolves(s, t) && Slots(s)
    ensures Slots(t)
  {
    hide Pending;
    SmallerSet(PendingClients(t), PendingClients(s));
  }

  lemma EvolvesInv(s: State, t: State)
    requires Inv(s) && Evolves(s, t) && Healthy(t) && Observing(t)
    ensures Inv(t)
  {
    hide Evolves;
    hide Queue;
    hide RetryEntries;
    hide Identities;
    hide Slots;
    hide Healthy;
    hide Observing;
    EvolvesQueue(s, t);
    EvolvesSlots(s, t);
  }

  lemma EvolvesTransitive(s: State, t: State, u: State)
    requires Evolves(s, t) && Evolves(t, u)
    ensures Evolves(s, u)
  {
    hide MemberEvolves;
    forall c <- s.members ensures MemberEvolves(s.members[c], u.members[c]) {
      MemberEvolvesTransitive(s.members[c], t.members[c], u.members[c]);
    }
  }

  lemma MemberEvolvesTransitive(m: Member, n: Member, k: Member)
    requires MemberEvolves(m, n) && MemberEvolves(n, k)
    ensures MemberEvolves(m, k)
  {
  }

  // ---------------------------------------------------------------- each operation keeps it

  lemma Unchanged(s: State, t: State)
    requires t.members == s.members && t.order == s.order && t.sessions.Keys == s.sessions.Keys && t.births == s.births
    ensures Evolves(s, t)
  {
  }

  /** The members and what refers to them are untouched. */
  lemma SameMembersKeep(s: State, t: State)
    requires Inv(s) && t.members == s.members && t.order == s.order && t.sessions.Keys == s.sessions.Keys
    requires t.births == s.births && Observing(t)
    ensures Inv(t) && Evolves(s, t)
  {
    InvFacts(s);
    assert Healthy(t);
    hide *;
    Unchanged(s, t);
    EvolvesInv(s, t);
  }

  lemma RequestProbeKeeps(s: State, now: Time)
    requires Inv(s)
    ensures Inv(RequestProbe(s, now)) && Evolves(s, RequestProbe(s, now))
  {
    hide Inv;
    hide Evolves;
    InvFacts(s);
    SameMembersKeep(s, RequestProbe(s, now));
  }

  lemma BeginProbeKeeps(s: State, now: Time)
    requires Inv(s)
    ensures Inv(BeginProbe(s, now).0) && Evolves(s, BeginProbe(s, now).0)
  {
    var t := BeginProbe(s, now).0;
    BeginProbeFrame(s, now);
    hide *;
    SameMembersKeep(s, t);
  }

  lemma BeginProbeFrame(s: State, now: Time)
    requires Inv(s)
    ensures
      var t := BeginProbe(s, now).0;
      t.members == s.members && t.order == s.order && t.sessions == s.sessions && t.births == s.births
    ensures Observing(BeginProbe(s, now).0)
  {
    hide Queue;
    hide RetryEntries;
    hide Slots;
    hide Healthy;
  }

  lemma FailedProbeKeeps(s: State, now: Time, error: string)
    requires Inv(s)
    ensures Inv(FailedProbe(s, now, error)) && Evolves(s, FailedProbe(s, now, error))
  {
    hide Inv;
    hide Evolves;
    SameMembersKeep(s, FailedProbe(s, now, error));
  }

  lemma ExpireEvolves(s: State, now: Time)
    ensures Evolves(s, Expire(s, now))
  {
  }

  lemma ExpireHealthy(s: State, now: Time)
    requires Healthy(s)
    ensures Healthy(Expire(s, now))
  {
  }

  lemma ExpireKeeps(s: State, now: Time)
    requires Inv(s)
    ensures Inv(Expire(s, now)) && Evolves(s, Expire(s, now))
  {
    InvFacts(s);
    hide *;
    ExpireEvolves(s, now);
    ExpireHealthy(s, now);
    assert Observing(Expire(s, now)) by {
      ObservingFrame(s, Expire(s, now));
    }
    EvolvesInv(s, Expire(s, now));
  }

  lemma ObservingFrame(s: State, t: State)
    requires Observing(s) && (t.observing == s.observing || t.observing == map[]) && t.births == s.births
    ensures Observing(t)
  {
  }

  lemma OneMemberEvolves(s: State, t: State, c: string, m: Member)
    requires c in s.members && MemberEvolves(s.members[c], m)
    requires t.members == s.members[c := m] && t.order == s.order && t.births == s.births
    requires t.sessions.Keys == s.sessions.Keys
    ensures Evolves(s, t)
  {
  }

  lemma OneMemberHealthy(s: State, t: State, c: string, m: Member)
    requires Healthy(s) && c in s.members && MemberInv(m) && t.members == s.members[c := m]
    ensures Healthy(t)
  {
    hide MemberInv;
  }

  /** One member changes, keeping its identity and taking no slot. */
  lemma OneMemberKeeps(s: State, t: State, c: string, m: Member)
    requires Inv(s) && c in s.members && MemberInv(m) && MemberEvolves(s.members[c], m)
    requires t.members == s.members[c := m] && t.order == s.order && t.births == s.births
    requires t.sessions.Keys == s.sessions.Keys && t.observing == s.observing
    ensures Inv(t) && Evolves(s, t)
  {
    hide *;
    InvFacts(s);
    OneMemberEvolves(s, t, c, m);
    OneMemberHealthy(s, t, c, m);
    ObservingFrame(s, t);
    EvolvesInv(s, t);
  }

  lemma EndAbsentEvolves(s: State, t: State, inventory: map<string, string>)
    requires t.members == EndAbsent(s, inventory) && t.order == s.order && t.births == s.births
    requires t.sessions == s.sessions
    ensures Evolves(s, t)
  {
  }

  lemma EndAbsentHealthy(s: State, t: State, inventory: map<string, string>)
    requires t.members == EndAbsent(s, inventory) && Healthy(s)
    ensures Healthy(t)
  {
    hide Absent;
  }

  lemma ObservedKeeps(s: State, sequence: nat, now: Time, observation: Result<Inventory, string>)
    requires Inv(s) && Observed(s, sequence, now, observation).Some?
    ensures Inv(Observed(s, sequence, now, observation).value)
    ensures Evolves(s, Observed(s, sequence, now, observation).value)
  {
    hide Inv;
    hide Evolves;
    hide EndAbsent;
    hide Absent;
    hide RequestProbe;
    hide Healthy;
    hide Registered;
    var ids := observation.value.ids.value;
    var t := s.(checking := false, available := true, failures := 0,
                reason := "Waiting for attachment admission", inventory := ids,
                nextProbe := now + 30 * SECOND,
                members := EndAbsent(s, ids), observing := map[]);
    InvFacts(s);
    EndAbsentEvolves(s, t, ids);
    EndAbsentHealthy(s, t, ids);
    ObservingFrame(s, t);
    hide Observing;
    EvolvesInv(s, t);
    RequestProbeKeeps(t, now);
    EvolvesTransitive(s, t, RequestProbe(t, now));
  }

  lemma InvMember(s: State, c: string)
    requires Inv(s) && c in s.members
    ensures MemberInv(s.members[c]) && s.members[c].sessionID in s.sessions
  {
    hide MemberInv;
    hide Slots;
    hide Identities;
  }

  lemma MemberSteps(m: Member, attempt: string)
    requires MemberInv(m)
    ensures m.active != "" && !m.reset ==>
      MemberInv(m.(ready := true)) && MemberEvolves(m, m.(ready := true))
    ensures
      var lost := m.(retired := m.active, active := "", ready := false, reset := false);
      MemberInv(lost) && MemberEvolves(m, lost)
    ensures m.active == "" && attempt != "" ==>
      MemberInv(m.(proposed := attempt)) && MemberEvolves(m, m.(proposed := attempt))
    ensures MemberInv(m.(reset := false)) && MemberEvolves(m, m.(reset := false))
    ensures m.active == "" ==> MemberInv(m.(reset := true)) && MemberEvolves(m, m.(reset := true))
  {
  }

  lemma MarkReadyKeeps(s: State, c: string)
    requires Inv(s) && c in s.members && s.members[c].sessionID in s.sessions
    requires s.members[c].active != "" && !s.members[c].reset
    ensures Inv(MarkReady(s, c)) && Evolves(s, MarkReady(s, c))
  {
    hide Inv;
    hide Evolves;
    hide MemberInv;
    hide MemberEvolves;
    hide Registered;
    var m := s.members[c];
    InvMember(s, c);
    MemberSteps(m, "");
    OneMemberKeeps(s, MarkReady(s, c), c, m.(ready := true));
  }

  lemma FailKeeps(s: State, c: string, now: Time)
    requires Inv(s) && c in s.members && s.members[c].sessionID in s.sessions
    ensures Inv(Fail(s, c, now)) && Evolves(s, Fail(s, c, now))
  {
    hide Inv;
    hide Evolves;
    hide MemberInv;
    hide MemberEvolves;
    hide Registered;
    hide RecoveryDelay;
    var m := s.members[c];
    InvMember(s, c);
    MemberSteps(m, "");
    OneMemberKeeps(s, Fail(s, c, now), c, m.(retired := m.active, active := "", ready := false, reset := false));
  }

  lemma SetMemberKeeps(s: State, c: string, m: Member)
    requires Inv(s) && c in s.members && MemberInv(m) && MemberEvolves(s.members[c], m)
    requires m.sessionID == s.members[c].sessionID
    ensures Inv(SetMember(s, c, m)) && Evolves(s, SetMember(s, c, m))
  {
    hide Inv;
    hide Evolves;
    hide MemberInv;
    hide MemberEvolves;
    hide Registered;
    OneMemberKeeps(s, SetMember(s, c, m), c, m);
  }

  lemma FailAndProbeKeeps(s: State, c: string, now: Time)
    requires Inv(s) && c in s.members && s.members[c].sessionID in s.sessions
    ensures
      var t := RequestProbe(Fail(s, c, now), now);
      Inv(t) && Evolves(s, t)
  {
    hide *;
    FailKeeps(s, c, now);
    RequestProbeKeeps(Fail(s, c, now), now);
    EvolvesTransitive(s, Fail(s, c, now), RequestProbe(Fail(s, c, now), now));
  }

  /** Events that reach this point concern the member's current attempt, or no attempt is active. */
  lemma ApplyEventKeeps(s: State, r: Request, now: Time)
    requires Inv(s) && r.client in s.members && s.members[r.client].sessionID in s.sessions
    requires r.attempt != ""
    requires s.members[r.client].active == "" || r.attempt == s.members[r.client].active
    ensures Inv(ApplyEvent(s, r, now).state) && Evolves(s, ApplyEvent(s, r, now).state)
  {
    hide Inv;
    hide Evolves;
    hide Fail;
    hide MarkReady;
    hide RequestProbe;
    hide SetMember;
    hide Registered;
    hide MemberInv;
    hide MemberEvolves;
    var m := s.members[r.client];
    InvMember(s, r.client);
    MemberSteps(m, r.attempt);
    Reflexive(s);
    if r.event == NoEvent {
      if m.active == "" && !m.reset && r.attempt != m.retired {
        SetMemberKeeps(s, r.client, m.(proposed := r.attempt));
      }
    } else if r.event == LostEvent && r.attempt == m.retired {
      SetMemberKeeps(s, r.client, m.(reset := false));
    } else if r.attempt == m.active && m.active != "" {
      if r.event == ReadyEvent {
        ReadyIsNotReset(m);
        if !(!m.ready && (m.reset || now >= m.deadline)) {
          MarkReadyKeeps(s, r.client);
        }
      } else {
        FailAndProbeKeeps(s, r.client, now);
      }
    }
  }

  lemma ReadyIsNotReset(m: Member)
    requires MemberInv(m)
    ensures m.ready ==> !m.reset
  {
  }

  lemma Reflexive(s: State)
    ensures Evolves(s, s)
  {
  }

  lemma NoteConnectingKeeps(s: State, r: Request)
    requires Inv(s) && r.client in s.members
    requires s.members[r.client].active == "" || r.attempt == s.members[r.client].active
    ensures Inv(NoteConnecting(s, r)) && Evolves(s, NoteConnecting(s, r))
  {
    hide Inv;
    hide Evolves;
    hide SetMember;
    hide Registered;
    hide MemberInv;
    hide MemberEvolves;
    var m := s.members[r.client];
    Reflexive(s);
    InvMember(s, r.client);
    MemberSteps(m, "");
    if r.state == Connecting && m.active != r.attempt && r.attempt != m.retired {
      SetMemberKeeps(s, r.client, m.(reset := true));
    }
  }

  // ---------------------------------------------------------------- registering and leaving

  lemma EnrollQueue(s: State, r: Request)
    requires Queue(s) && RetryEntries(s) && r.client !in s.members
    ensures Queue(Enroll(s, r)) && RetryEntries(Enroll(s, r))
  {
    hide NewMember;
    NewMemberIdentity(s, r);
    var t := Enroll(s, r);
    forall id ensures id in t.sessions <==> exists c <- t.members :: t.members[c].sessionID == id {
      if exists c <- s.members :: s.members[c].sessionID == id {
        var c :| c in s.members && s.members[c].sessionID == id;
        assert t.members[c].sessionID == id;
      }
      if id == r.sessionID {
        assert t.members[r.client].sessionID == id;
      }
    }
  }

  lemma EnrollIdentities(s: State, r: Request)
    requires Identities(s) && Observing(s) && r.client !in s.members && !TokenTaken(s, r.token)
    ensures Identities(Enroll(s, r)) && Observing(Enroll(s, r))
  {
    hide NewMember;
    NewMemberIdentity(s, r);
  }

  lemma EnrollSlots(s: State, r: Request)
    requires Slots(s) && Healthy(s) && r.client !in s.members && ValidRequest(r)
    ensures Slots(Enroll(s, r)) && Healthy(Enroll(s, r))
  {
    var t := Enroll(s, r);
    assert !Pending(NewMember(s, r)) && MemberInv(NewMember(s, r));
    hide NewMember;
    hide MemberInv;
    hide Pending;
    assert PendingClients(t) == PendingClients(s);
  }

  lemma RegisterKeeps(s: State, r: Request, now: Time)
    requires Inv(s) && r.client !in s.members && !TokenTaken(s, r.token) && ValidRequest(r)
    ensures Inv(Register(s, r, now))
  {
    EnrollQueue(s, r);
    EnrollIdentities(s, r);
    EnrollSlots(s, r);
    assert Inv(Enroll(s, r));
    hide Inv;
    hide Enroll;
    RequestProbeKeeps(Enroll(s, r), now);
  }

  lemma {:induction false} WithoutOnce(q: seq<string>, c: string)
    requires NoDuplicates(q)
    ensures NoDuplicates(Without(q, c)) && forall d :: d in Without(q, c) <==> d in q && d != c
  {
    if q != [] {
      if q[0] == c {
        assert forall d :: d in q <==> d == q[0] || d in q[1..];
        assert forall i :: 0 < i < |q| ==> q[i] != q[0];
      } else {
        WithoutOnce(q[1..], c);
        var w := Without(q[1..], c);
        assert forall d :: d in q <==> d == q[0] || d in q[1..];
        assert q[0] !in q[1..];
        assert Without(q, c) == [q[0]] + w;
      }
    }
  }

  lemma RemoveQueue(s: State, c: string)
    requires Queue(s) && RetryEntries(s) && c in s.members
    ensures Queue(Remove(s, c)) && RetryEntries(Remove(s, c))
  {
    WithoutOnce(s.order, c);
    RemoveRetries(s, c);
    hide RetryEntries;
    hide Without;
  }

  lemma RemoveRetries(s: State, c: string)
    requires RetryEntries(s) && c in s.members
    ensures RetryEntries(Remove(s, c))
  {
    hide Without;
    var t := Remove(s, c);
    forall id ensures id in t.sessions <==> exists d <- t.members :: t.members[d].sessionID == id {
      if exists d <- s.members :: s.members[d].sessionID == id {
        var d :| d in s.members && s.members[d].sessionID == id;
        if d != c {
          assert t.members[d].sessionID == id;
        }
      }
    }
  }

  lemma RemoveSlots(s: State, c: string)
    requires Slots(s) && Healthy(s) && Identities(s) && Observing(s)
    ensures Slots(Remove(s, c)) && Healthy(Remove(s, c)) && Identities(Remove(s, c)) && Observing(Remove(s, c))
  {
    hide Pending;
    hide MemberInv;
    SmallerSet(PendingClients(Remove(s, c)), PendingClients(s));
  }

  lemma RemoveKeeps(s: State, c: string)
    requires Inv(s)
    ensures Inv(Remove(s, c))
  {
    if c in s.members {
      RemoveQueue(s, c);
      RemoveSlots(s, c);
    }
  }

  // ---------------------------------------------------------------- admission

  lemma RotateKeeps(q: seq<string>)
    requires q != [] && NoDuplicates(q)
    ensures NoDuplicates(Rotate(q)) && forall c :: c in Rotate(q) <==> c in q
  {
    assert q == [q[0]] + q[1..];
  }

  lemma RotatedInv(s: State)
    requires Inv(s) && s.order != []
    ensures Inv(s.(order := Rotate(s.order)))
  {
    RotateKeeps(s.order);
    hide Healthy;
    hide Identities;
    hide Slots;
    hide Observing;
    var t := s.(order := Rotate(s.order));
    assert Slots(t) && Healthy(t) && Identities(t) && Observing(t) by {
      SameMembersParts(s, t);
    }
  }

  lemma SameMembersParts(s: State, t: State)
    requires Slots(s) && Healthy(s) && Identities(s) && Observing(s)
    requires t.members == s.members && t.births == s.births && t.observing == s.observing
    ensures Slots(t) && Healthy(t) && Identities(t) && Observing(t)
  {
    assert PendingClients(t) == PendingClients(s);
  }

  /** Granting a slot to an unblocked member takes exactly one slot of a session that had none. */
  lemma ActivateSlots(s: State, c: string, now: Time)
    requires Slots(s) && c in s.members && !Pending(s.members[c]) && s.members[c].proposed != "" && !s.members[c].ready
    requires |PendingClients(s)| < 2 && s.members[c].sessionID !in BusySessions(s)
    ensures
      var t := Activate(s, c, now);
      && Slots(t) && PendingClients(t) == PendingClients(s) + {c}
      && BusySessions(t) == BusySessions(s) + {s.members[c].sessionID}
  {
    var t := Activate(s, c, now);
    assert PendingClients(t) == PendingClients(s) + {c};
    forall id ensures id in BusySessions(t) <==> id in BusySessions(s) + {s.members[c].sessionID} {
      if id == s.members[c].sessionID {
        assert t.members[c].sessionID == id && Pending(t.members[c]);
      } else if id in BusySessions(s) {
        var d :| d in s.members && Pending(s.members[d]) && s.members[d].sessionID == id;
        assert t.members[d] == s.members[d];
      }
    }
  }

  lemma ActivateQueue(s: State, c: string, now: Time)
    requires Queue(s) && RetryEntries(s) && c in s.members
    ensures Queue(Activate(s, c, now)) && RetryEntries(Activate(s, c, now))
  {
    var t := Activate(s, c, now);
    forall id ensures id in t.sessions <==> exists d <- t.members :: t.members[d].sessionID == id {
      if id in s.sessions {
        var d :| d in s.members && s.members[d].sessionID == id;
        assert t.members[d].sessionID == id;
      }
    }
  }

  lemma ActivateIdentities(s: State, c: string, now: Time)
    requires Identities(s) && Observing(s) && c in s.members
    ensures Identities(Activate(s, c, now)) && Observing(Activate(s, c, now))
  {
  }

  lemma ActivateHealthy(s: State, c: string, now: Time)
    requires Healthy(s) && c in s.members && s.members[c].active == "" && !s.members[c].ended
    requires s.members[c].proposed != s.members[c].retired
    ensures Healthy(Activate(s, c, now))
  {
    var m := s.members[c];
    assert MemberInv(m) && MemberInv(m.(active := m.proposed, deadline := now + 15 * SECOND));
    hide MemberInv;
  }

  lemma UnblockedMember(s: State, c: string, now: Time)
    requires Inv(s) && c in s.members && s.members[c].sessionID in s.sessions
    requires !Blocked(s, s.members[c], BusySessions(s), now)
    ensures
      var m := s.members[c];
      && !Pending(m) && m.proposed != "" && !m.ready && m.active == "" && !m.ended
      && m.proposed != m.retired && m.sessionID !in BusySessions(s)
  {
    hide Inv;
    hide BusySessions;
    InvMember(s, c);
  }

  lemma ActivateKeeps(s: State, c: string, now: Time)
    requires Inv(s) && c in s.members && s.members[c].sessionID in s.sessions
    requires !Blocked(s, s.members[c], BusySessions(s), now) && |PendingClients(s)| < 2
    ensures
      var t := Activate(s, c, now);
      && Inv(t) && |PendingClients(t)| == |PendingClients(s)| + 1
      && BusySessions(t) == BusySessions(s) + {s.members[c].sessionID}
  {
    hide *;
    UnblockedMember(s, c, now);
    InvParts(s);
    ActivateSlots(s, c, now);
    OneMore(PendingClients(s), c, s.members[c], s);
    ActivateHealthy(s, c, now);
    ActivateIdentities(s, c, now);
    ActivateQueue(s, c, now);
    InvParts(Activate(s, c, now));
  }

  lemma OneMore(pending: set<string>, c: string, m: Member, s: State)
    requires pending == PendingClients(s) && c in s.members && m == s.members[c] && !Pending(m)
    ensures |pending + {c}| == |pending| + 1
  {
    assert c !in pending;
  }

  lemma InvParts(s: State)
    ensures Inv(s) <==> Queue(s) && RetryEntries(s) && Identities(s) && Observing(s) && Slots(s) && Healthy(s)
  {
  }

  lemma ScanTurnKeeps(s: State, now: Time)
    requires Inv(s) && Registered(s) && s.order != [] && |PendingClients(s)| < 2
    ensures
      var turn := ScanTurn(s, BusySessions(s), now);
      && Inv(turn.state)
      && |PendingClients(turn.state)| == |PendingClients(s)| + |turn.admitted|
      && BusySessions(turn.state) == BusyAfter(s, BusySessions(s), turn)
  {
    hide Inv;
    hide Activate;
    hide Rotate;
    hide Blocked;
    var c := s.order[0];
    assert c in s.members;
    hide Registered;
    var rotated := s.(order := Rotate(s.order));
    RotatedInv(s);
    InvFacts(rotated);
    InvMember(s, c);
    RotatedSame(s, rotated, c, now);
    hide PendingClients;
    hide BusySessions;
    if !Blocked(s, s.members[c], BusySessions(s), now) {
      ActivateKeeps(rotated, c, now);
    }
  }

  lemma RotatedSame(s: State, t: State, c: string, now: Time)
    requires t == s.(order := t.order) && c in s.members && s.members[c].sessionID in s.sessions
    ensures PendingClients(t) == PendingClients(s) && BusySessions(t) == BusySessions(s)
    ensures Blocked(t, t.members[c], BusySessions(t), now) <==> Blocked(s, s.members[c], BusySessions(s), now)
  {
  }

  lemma {:induction false} AdmitScanKeeps(s: State, fuel: nat, now: Time)
    requires Inv(s) && Registered(s) && fuel <= |s.order|
    ensures Inv(AdmitScan(s, fuel, |PendingClients(s)|, BusySessions(s), now).state)
    decreases fuel
  {
    hide Inv;
    hide Registered;
    hide ScanTurn;
    hide BusyAfter;
    hide PendingClients;
    hide BusySessions;
    if fuel > 0 && |PendingClients(s)| < 2 {
      ScanTurnKeeps(s, now);
      AdmitScanKeeps(ScanTurn(s, BusySessions(s), now).state, fuel - 1, now);
    }
  }

  lemma AdmitKeeps(s: State, now: Time)
    requires Inv(s) && Registered(s)
    ensures Inv(Admit(s, now).state)
  {
    ExpireKeeps(s, now);
    hide Inv;
    AdmitScanKeeps(Expire(s, now), |Expire(s, now).order|, now);
  }
}
