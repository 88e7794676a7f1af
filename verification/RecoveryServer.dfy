/**
 The recovery service (internal/mirror/session_recovery_server.go): connections of helper
 processes, the owner of each client, and the coordinator they share.
 */
module RecoveryServer {
  import opened Wrappers
  import R = Recovery
  import RT = RecoveryTheorems
  import RP = RecoveryProbes

  /**
   A connection's process; `process` stands for the process handle, which outlives the
   connection and is never reused, unlike the process number.
   */
  datatype Peer = Peer(pid: nat, process: nat, connected: bool, client: string)

  /** `peers` holds every connection ever accepted, by its number. */
  datatype State = State(model: R.State, peers: map<nat, Peer>, connections: set<nat>, owners: map<string, nat>)

  const NEW_SERVER := State(R.NEW_STATE, map[], {}, map[])

  /** A frame; no request asks for the status. A request that leaves carries no other event. */
  datatype Frame = Frame(known: bool, request: Option<R.Request>, leave: bool)

  datatype Answer = Status | Answered(reply: R.Reply) | Left | Failed(error: string)

  predicate Alive(s: State, id: nat, live: set<nat>)
    requires id in s.peers
  {
    s.peers[id].process in live
  }

  function Accept(s: State, id: nat, pid: nat, process: nat): State {
    if id in s.peers then s
    else s.(peers := s.peers[id := Peer(pid, process, true, "")], connections := s.connections + {id})
  }

  predicate Known(s: State) {
    forall c <- s.owners :: s.owners[c] in s.peers
  }

  /** Another connection owns the client, and this one may not take it over. */
  predicate Foreign(s: State, id: nat, client: string, live: set<nat>)
    requires Known(s) && id in s.peers
  {
    client in s.owners && s.owners[client] != id
    && (s.peers[s.owners[client]].connected || s.peers[s.owners[client]].pid != s.peers[id].pid
        || !Alive(s, s.owners[client], live))
  }

  function Own(s: State, id: nat, client: string): State
    requires id in s.peers
  {
    s.(owners := s.owners[client := id], peers := s.peers[id := s.peers[id].(client := client)])
  }

  function Drop(s: State, client: string): State {
    s.(model := R.Remove(s.model, client), owners := s.owners - {client})
  }

  function Depart(s: State, id: nat, client: string): State
    requires id in s.peers
  {
    Drop(s, client).(peers := s.peers[id := s.peers[id].(client := "")])
  }

  function Refusal(s: State, id: nat, r: R.Request, live: set<nat>): Option<string>
    requires Known(s) && id in s.peers
  {
    if !R.ValidRequest(r) then Some("invalid recovery identity")
    else if s.peers[id].client != "" && s.peers[id].client != r.client then Some("connection client changed")
    else if r.client in s.model.members && !R.SameIdentity(s.model.members[r.client], r)
    then Some("recovery client identity changed")
    else if Foreign(s, id, r.client, live) then Some("client belongs to another live process/connection")
    else None
  }

  function TakeOver(s: State, id: nat, client: string): State
    requires id in s.peers
  {
    if client in s.owners && s.owners[client] != id then Own(s, id, client) else s
  }

  /** One frame from a connection whose process is alive. */
  function Handle(s: State, id: nat, frame: Frame, now: R.Time, live: set<nat>): (State, Answer)
    requires Known(s) && id in s.peers && R.Registered(s.model)
  {
    if !frame.known then (s, Failed("recovery protocol/transport mismatch"))
    else if frame.request.None? then (s, Status)
    else
      var r := frame.request.value;
      var refusal := Refusal(s, id, if frame.leave then r.(event := R.NoEvent) else r, live);
      if refusal.Some? then (s, Failed(refusal.value))
      else
        var t := TakeOver(s, id, r.client);
        if frame.leave then (Depart(t, id, r.client), Left)
        else
          var (model, reply) := R.Exchange(t.model, r, now);
          if reply.Err? then (t.(model := model), Failed(reply.error))
          else (Own(t.(model := model), id, r.client), Answered(reply.value))
  }

  /** The member waits for its helper to come back: its child may still be alive. */
  predicate Waiting(s: State, client: string) {
    client in s.model.members && R.Pending(s.model.members[client])
  }

  /** A connection ended; `stopping` tells whether the service is shutting down. */
  function Disconnect(s: State, id: nat, live: set<nat>, stopping: bool): State
    requires id in s.peers
  {
    var t := s.(connections := s.connections - {id});
    var c := s.peers[id].client;
    if c == "" || c !in s.owners || s.owners[c] != id then t
    else if !stopping && Waiting(s, c) && Alive(s, id, live)
    then t.(peers := s.peers[id := s.peers[id].(connected := false)])
    else Drop(t, c)
  }

  predicate Abandoned(s: State, client: string, live: set<nat>)
    requires Known(s)
  {
    client in s.owners && !s.peers[s.owners[client]].connected && !Alive(s, s.owners[client], live)
  }

  /** Owners whose process died while their connection was away are removed, in the order visited. */
  function Bury(s: State, visit: seq<string>, live: set<nat>): (t: State)
    requires Known(s)
    ensures t.peers == s.peers && t.connections == s.connections && Known(t)
    decreases |visit|
  {
    if visit == [] then s
    else Bury(if Abandoned(s, visit[0], live) then Drop(s, visit[0]) else s, visit[1..], live)
  }

  function Tick(s: State, visit: seq<string>, now: R.Time, live: set<nat>): State
    requires Known(s) && R.Registered(Bury(s, visit, live).model)
  {
    var t := Bury(s, visit, live);
    t.(model := R.BeginProbe(R.Admit(t.model, now).state, now).0)
  }

  datatype Op =
    | AcceptOp(id: nat, pid: nat, process: nat)
    | FrameOp(id: nat, frame: Frame, now: R.Time)
    | CloseOp(id: nat, stopping: bool)
    | TickOp(visit: seq<string>, now: R.Time)
    | ProbeOp(sequence: nat, now: R.Time, observation: Result<R.Inventory, string>)

  // ---------------------------------------------------------------- the invariant

  /** Exactly the registered clients have an owner, which is a connection that speaks for them. */
  ghost predicate Owned(s: State) {
    && s.owners.Keys == s.model.members.Keys && "" !in s.owners
    && (forall c <- s.owners :: s.owners[c] in s.peers && s.peers[s.owners[c]].client == c)
  }

  /** Open connections are connected, and an owner is open or away. */
  ghost predicate Connected(s: State) {
    && (forall id <- s.connections :: id in s.peers && s.peers[id].connected)
    && (forall c <- s.owners :: s.owners[c] in s.peers && (s.peers[s.owners[c]].connected <==> s.owners[c] in s.connections))
  }

  ghost predicate Inv(s: State) {
    R.Inv(s.model) && Owned(s) && Connected(s)
  }

  /** Which steps can happen: frames and ends come from open connections, and no process handle is reused. */
  ghost predicate Enabled(s: State, op: Op, live: set<nat>) {
    match op
    case FrameOp(id, _, _) => id in s.connections && id in s.peers && s.peers[id].process in live
    case CloseOp(id, _) => id in s.connections
    case _ => true
  }

  ghost function Step(s: State, op: Op, live: set<nat>): State
    requires Inv(s)
  {
    SoundServer(s);
    if !Enabled(s, op, live) then s
    else
      match op
      case AcceptOp(id, pid, process) => Accept(s, id, pid, process)
      case FrameOp(id, frame, now) => Handle(s, id, frame, now, live).0
      case CloseOp(id, stopping) => Disconnect(s, id, live, stopping)
      case TickOp(visit, now) =>
        BuryKeeps(s, visit, live);
        R.InvFacts(Bury(s, visit, live).model);
        Tick(s, visit, now, live)
      case ProbeOp(sequence, now, observation) => s.(model := R.FinishProbe(s.model, sequence, now, observation).state)
  }

  lemma SoundServer(s: State)
    requires Inv(s)
    ensures Known(s) && R.Registered(s.model) && forall id <- s.connections :: id in s.peers
  {
    R.InvFacts(s.model);
    hide R.Inv;
  }

  lemma RemovedMembers(m: R.State, c: string)
    ensures R.Remove(m, c).members.Keys == m.members.Keys - {c}
  {
  }

  lemma DropKeeps(s: State, c: string)
    requires Inv(s)
    ensures Inv(Drop(s, c))
  {
    R.RemoveKeeps(s.model, c);
    RemovedMembers(s.model, c);
    hide R.Inv;
    hide R.Remove;
    DropOwned(s, c, R.Remove(s.model, c));
  }

  lemma DropOwned(s: State, c: string, model: R.State)
    requires Owned(s) && Connected(s) && model.members.Keys == s.model.members.Keys - {c}
    ensures Owned(s.(model := model, owners := s.owners - {c})) && Connected(s.(model := model, owners := s.owners - {c}))
  {
  }

  lemma {:induction false} BuryKeeps(s: State, visit: seq<string>, live: set<nat>)
    requires Inv(s) && Known(s)
    ensures Inv(Bury(s, visit, live))
    decreases |visit|
  {
    hide Inv;
    hide Abandoned;
    if visit != [] {
      DropKeeps(s, visit[0]);
      BuryKeeps(if Abandoned(s, visit[0], live) then Drop(s, visit[0]) else s, visit[1..], live);
    }
  }

  /** The model changed, its members did not. */
  lemma ModelKeeps(s: State, model: R.State)
    requires Inv(s) && R.Inv(model) && model.members.Keys == s.model.members.Keys
    ensures Inv(s.(model := model))
  {
    hide R.Inv;
  }

  lemma TickKeeps(s: State, visit: seq<string>, now: R.Time, live: set<nat>)
    requires Inv(s) && Known(s) && R.Registered(Bury(s, visit, live).model)
    ensures Inv(Tick(s, visit, now, live))
  {
    BuryKeeps(s, visit, live);
    var t := Bury(s, visit, live);
    assert R.Inv(t.model);
    var admitted := R.Admit(t.model, now).state;
    R.AdmitKeeps(t.model, now);
    RT.AdmitKeys(t.model, now);
    R.BeginProbeKeeps(admitted, now);
    R.BeginProbeFrame(admitted, now);
    assert Tick(s, visit, now, live) == t.(model := R.BeginProbe(admitted, now).0);
    hide *;
    ModelKeeps(t, R.BeginProbe(admitted, now).0);
  }

  lemma FinishKeys(m: R.State, sequence: nat, now: R.Time, observation: Result<R.Inventory, string>)
    requires R.Inv(m) && R.Registered(m)
    ensures R.FinishProbe(m, sequence, now, observation).state.members.Keys == m.members.Keys
  {
    RT.FinishByObservation(m, sequence, now, observation);
    hide *;
    var o := R.Observed(m, sequence, now, observation);
    if o.Some? {
      R.ObservedKeeps(m, sequence, now, observation);
      EvolvedKeys(m, o.value);
      RT.AdmitKeys(o.value, now);
    } else {
      FailedKeys(m, sequence, now, observation);
    }
  }

  lemma EvolvedKeys(m: R.State, n: R.State)
    requires R.Evolves(m, n)
    ensures n.members.Keys == m.members.Keys && n.births == m.births
  {
  }

  lemma FailedKeys(m: R.State, sequence: nat, now: R.Time, observation: Result<R.Inventory, string>)
    requires R.Registered(m) && R.Observed(m, sequence, now, observation).None?
    ensures R.FinishProbe(m, sequence, now, observation).state.members == m.members
  {
    hide R.ValidInventory;
    hide R.EndAbsent;
    hide R.Missing;
    hide R.Admit;
    hide R.Registered;
    hide R.RequestProbe;
  }

  lemma ProbeKeeps(s: State, sequence: nat, now: R.Time, observation: Result<R.Inventory, string>)
    requires Inv(s) && R.Registered(s.model)
    ensures Inv(s.(model := R.FinishProbe(s.model, sequence, now, observation).state))
  {
    assert R.Inv(s.model);
    hide *;
    RT.FinishProbeKeeps(s.model, sequence, now, observation);
    FinishKeys(s.model, sequence, now, observation);
    ModelKeeps(s, R.FinishProbe(s.model, sequence, now, observation).state);
  }

  lemma AcceptKeeps(s: State, id: nat, pid: nat, process: nat)
    requires Inv(s)
    ensures Inv(Accept(s, id, pid, process))
  {
    hide R.Inv;
  }

  lemma ConnectionGone(s: State, id: nat)
    requires Inv(s) && forall c <- s.owners :: s.owners[c] != id
    ensures Inv(s.(connections := s.connections - {id}))
  {
    hide R.Inv;
  }

  lemma OwnsOne(s: State, id: nat)
    requires Inv(s) && id in s.peers
    ensures forall c <- s.owners :: s.owners[c] == id ==> c == s.peers[id].client
  {
    hide R.Inv;
  }

  lemma AwayKeeps(s: State, id: nat)
    requires Inv(s) && id in s.peers && id in s.connections
    ensures Inv(s.(connections := s.connections - {id}, peers := s.peers[id := s.peers[id].(connected := false)]))
  {
    hide R.Inv;
  }

  lemma DisconnectKeeps(s: State, id: nat, live: set<nat>, stopping: bool)
    requires Inv(s) && id in s.peers && id in s.connections
    ensures Inv(Disconnect(s, id, live, stopping))
  {
    var c := s.peers[id].client;
    OwnsOne(s, id);
    hide Inv;
    hide Waiting;
    hide R.Remove;
    if c == "" || c !in s.owners || s.owners[c] != id {
      ConnectionGone(s, id);
    } else if !stopping && Waiting(s, c) && Alive(s, id, live) {
      AwayKeeps(s, id);
    } else {
      DropKeeps(s, c);
      ConnectionGone(Drop(s, c), id);
    }
  }

  // ---------------------------------------------------------------- frames

  lemma ExchangeKeys(m: R.State, r: R.Request, now: R.Time)
    requires R.Registered(m)
    ensures
      var (n, reply) := R.Exchange(m, r, now);
      if reply.Err? then n == m else n.members.Keys == m.members.Keys + {r.client}
  {
    BeforeKeys(m, r, now);
    var e := R.BeforeAdmission(m, r, now);
    if e.Proceed? {
      RT.AdmitKeys(e.state, now);
    }
    hide R.Registered;
    hide R.BeforeAdmission;
    hide R.Admit;
    hide R.MakeReply;
  }

  lemma KnownKeys(m: R.State, r: R.Request, now: R.Time)
    requires R.Registered(m)
    ensures R.Known(m, r, now).members.Keys == m.members.Keys + {r.client}
  {
    hide R.Registered;
    hide R.NewMember;
  }

  lemma BeforeKeys(m: R.State, r: R.Request, now: R.Time)
    requires R.Registered(m)
    ensures
      var e := R.BeforeAdmission(m, r, now);
      !e.Refused? ==> e.state.members.Keys == m.members.Keys + {r.client}
  {
    KnownKeys(m, r, now);
    hide R.Registered;
    hide R.Known;
    hide R.ApplyEvent;
    hide R.NoteConnecting;
    hide R.ValidRequest;
    hide R.SameIdentity;
    hide R.TokenTaken;
  }

  /** The connection may speak for the client: it is its own, or its owner is away and the same process. */
  ghost predicate MaySpeak(s: State, id: nat, client: string) {
    && id in s.peers && id in s.connections && client != ""
    && s.peers[id].client in {"", client}
    && (client in s.owners && s.owners[client] != id ==>
          s.owners[client] in s.peers && !s.peers[s.owners[client]].connected)
  }

  lemma OwnKeeps(s: State, id: nat, client: string, model: R.State)
    requires Inv(s) && MaySpeak(s, id, client)
    requires R.Inv(model) && model.members.Keys == s.model.members.Keys + {client}
    ensures Inv(Own(s.(model := model), id, client))
  {
    hide R.Inv;
  }

  lemma SpeakerKeeps(s: State, id: nat, client: string)
    requires Inv(s) && MaySpeak(s, id, client)
    ensures
      var t := TakeOver(s, id, client);
      && Inv(t) && MaySpeak(t, id, client) && t.model == s.model
      && (client in t.owners ==> t.owners[client] == id)
  {
    if client in s.owners && s.owners[client] != id {
      assert s.model.members.Keys + {client} == s.model.members.Keys;
      OwnKeeps(s, id, client, s.model);
      assert s.(model := s.model) == s;
    }
    hide R.Inv;
  }

  lemma DepartKeeps(s: State, id: nat, client: string)
    requires Inv(s) && MaySpeak(s, id, client) && (client in s.owners ==> s.owners[client] == id)
    ensures Inv(Depart(s, id, client))
  {
    DropKeeps(s, client);
    OwnsOne(s, id);
    var t := Drop(s, client);
    assert t.owners.Keys == s.owners.Keys - {client};
    assert forall c <- t.owners :: t.owners[c] == s.owners[c] && t.owners[c] != id;
    hide R.Inv;
    hide R.Remove;
    hide Drop;
    Renamed(t, id);
  }

  lemma Renamed(s: State, id: nat)
    requires Inv(s) && id in s.peers && id in s.connections && forall c <- s.owners :: s.owners[c] != id
    ensures Inv(s.(peers := s.peers[id := s.peers[id].(client := "")]))
  {
    hide R.Inv;
  }

  lemma Speaks(s: State, id: nat, r: R.Request, live: set<nat>)
    requires Inv(s) && Known(s) && id in s.peers && id in s.connections && Refusal(s, id, r, live).None?
    ensures MaySpeak(s, id, r.client)
  {
    hide R.Inv;
    hide R.SameIdentity;
    assert R.Hex32(r.client);
  }

  lemma HandleKeeps(s: State, id: nat, frame: Frame, now: R.Time, live: set<nat>)
    requires Inv(s) && Known(s) && id in s.peers && id in s.connections && R.Registered(s.model)
    ensures Inv(Handle(s, id, frame, now, live).0)
  {
    hide Inv;
    hide MaySpeak;
    hide TakeOver;
    hide R.Exchange;
    hide Depart;
    hide Own;
    hide R.Registered;
    hide Known;
    if frame.known && frame.request.Some? {
      var r := frame.request.value;
      var asked := if frame.leave then r.(event := R.NoEvent) else r;
      if Refusal(s, id, asked, live).None? {
        Speaks(s, id, asked, live);
        hide Refusal;
        SpeakerKeeps(s, id, r.client);
        var t := TakeOver(s, id, r.client);
        if frame.leave {
          DepartKeeps(t, id, r.client);
        } else {
          ModelIsSound(t);
          RT.ExchangeKeeps(t.model, r, now);
          ExchangeKeys(t.model, r, now);
          assert t.(model := t.model) == t;
          if R.Exchange(t.model, r, now).1.Ok? {
            OwnKeeps(t, id, r.client, R.Exchange(t.model, r, now).0);
          }
        }
      }
    }
    hide Handle;
  }

  lemma ModelIsSound(s: State)
    requires Inv(s)
    ensures R.Inv(s.model)
  {
  }

  /** Owners and members agree after every handler and ticker step. */
  lemma StepKeeps(s: State, op: Op, live: set<nat>)
    requires Inv(s)
    ensures Inv(Step(s, op, live))
  {
    SoundServer(s);
    hide Inv;
    hide Handle;
    hide Disconnect;
    hide Accept;
    hide Tick;
    hide R.FinishProbe;
    if Enabled(s, op, live) {
      match op
      case AcceptOp(id, pid, process) => AcceptKeeps(s, id, pid, process);
      case FrameOp(id, frame, now) => HandleKeeps(s, id, frame, now, live);
      case CloseOp(id, stopping) => DisconnectKeeps(s, id, live, stopping);
      case TickOp(visit, now) =>
        BuryKeeps(s, visit, live);
        ModelIsSound(Bury(s, visit, live));
        R.InvFacts(Bury(s, visit, live).model);
        TickKeeps(s, visit, now, live);
      case ProbeOp(sequence, now, observation) => ProbeKeeps(s, sequence, now, observation);
    }
  }

  lemma NewServerIsSound()
    ensures Inv(NEW_SERVER)
  {
    RT.InitialState();
    hide R.Inv;
  }

  // ---------------------------------------------------------------- a broken connection keeps its slot

  /** The same registration with the same attempt, as ready as it was. */
  ghost predicate Holds(m: R.Member, n: R.Member) {
    n.birth == m.birth && n.active == m.active && n.ready == m.ready && n.ended == m.ended
  }

  /** Admission leaves such a member's attempt alone. */
  ghost predicate Fixed(m: R.Member) { R.Pending(m) || m.ended }

  lemma AdmitHolds(m: R.State, now: R.Time, c: string)
    requires R.Inv(m) && R.Registered(m) && c in m.members && Fixed(m.members[c])
    ensures
      var n := R.Admit(m, now).state;
      c in n.members && Holds(m.members[c], n.members[c])
  {
    hide *;
    R.InvMember(m, c);
    RT.ProposedNotEmpty(m.members[c]);
    RT.AdmitMember(m, now, c);
    ActivatedHolds(m.members[c], R.Admit(m, now).state.members[c], now);
  }

  lemma ActivatedHolds(m: R.Member, n: R.Member, now: R.Time)
    requires Fixed(m) && RT.MaybeActivated(R.ExpireMember(m, now), n, now)
    ensures Holds(m, n)
  {
  }

  lemma HoldsTwice(m: R.Member, n: R.Member, k: R.Member)
    requires Fixed(m) && Holds(m, n)
    ensures Fixed(n) && (Holds(n, k) ==> Holds(m, k))
  {
  }

  lemma KnownHolds(m: R.State, r: R.Request, now: R.Time, c: string)
    requires R.Registered(m) && c in m.members && c != r.client
    ensures
      var n := R.Known(m, r, now);
      c in n.members && Holds(m.members[c], n.members[c])
  {
    hide R.Registered;
    hide R.NewMember;
    hide R.RequestProbe;
  }

  lemma EventHolds(m: R.State, r: R.Request, now: R.Time, c: string)
    requires r.client in m.members && m.members[r.client].sessionID in m.sessions && c in m.members && c != r.client
    ensures
      var e := R.ApplyEvent(m, r, now);
      && e.state.members[c] == m.members[c]
      && (e.Proceed? ==> R.NoteConnecting(e.state, r).members[c] == m.members[c])
  {
    RT.EventMember(m, r, now);
    hide R.ApplyEvent;
    hide RT.MemberAfterEvent;
    hide R.Registered;
  }

  lemma BeforeHolds(m: R.State, r: R.Request, now: R.Time, c: string)
    requires R.Registered(m) && c in m.members && c != r.client && !R.BeforeAdmission(m, r, now).Refused?
    ensures
      var n := R.BeforeAdmission(m, r, now).state;
      c in n.members && Holds(m.members[c], n.members[c])
  {
    KnownHolds(m, r, now, c);
    RT.RegisteredSession(R.Known(m, r, now), r.client);
    EventHolds(R.Known(m, r, now), r, now, c);
    hide R.Registered;
    hide R.Known;
    hide R.ApplyEvent;
    hide R.NoteConnecting;
    hide R.ValidRequest;
    hide R.SameIdentity;
    hide R.TokenTaken;
    hide Holds;
  }

  lemma ExchangeHolds(m: R.State, r: R.Request, now: R.Time, c: string)
    requires R.Inv(m) && R.Registered(m) && c in m.members && c != r.client && Fixed(m.members[c])
    ensures
      var n := R.Exchange(m, r, now).0;
      c in n.members && Holds(m.members[c], n.members[c])
  {
    hide *;
    var e := R.BeforeAdmission(m, r, now);
    ExchangeState(m, r, now);
    RT.BeforeAdmissionKeeps(m, r, now);
    HoldsItself(m.members[c]);
    if !e.Refused? {
      BeforeHolds(m, r, now, c);
      var k := e.state.members[c];
      HoldsTwice(m.members[c], k, k);
      if e.Proceed? {
        AdmitHolds(e.state, now, c);
        HoldsTwice(m.members[c], k, R.Admit(e.state, now).state.members[c]);
      }
    }
  }

  lemma HoldsItself(m: R.Member)
    ensures Holds(m, m)
  {
  }

  lemma ExchangeState(m: R.State, r: R.Request, now: R.Time)
    requires R.Registered(m)
    ensures
      var e := R.BeforeAdmission(m, r, now);
      R.Exchange(m, r, now).0 ==
        if e.Refused? then m else if e.Resync? then e.state else R.Admit(e.state, now).state
  {
    hide R.Registered;
    hide R.BeforeAdmission;
    hide R.Admit;
    hide R.MakeReply;
  }

  lemma RemoveHolds(m: R.State, d: string, c: string)
    requires c in m.members && c != d
    ensures c in R.Remove(m, d).members && R.Remove(m, d).members[c] == m.members[c]
  {
  }

  /** The registration lives on as it was, or has ended. */
  ghost predicate HeldUnless(gone: bool, m: R.Member, n: R.Member) {
    n.birth == m.birth && if gone then n.ended else Holds(m, n)
  }

  /**
   The result of the probe under way is usable, and the session of this registration, which the
   probe observes since its start, is missing from it.
   */
  predicate ShowsGone(m: R.State, sequence: nat, now: R.Time, observation: Result<R.Inventory, string>, c: string) {
    && m.checking && sequence == m.sequence && observation.Ok? && R.ValidInventory(observation.value)
    && c in m.members && c in m.observing && m.observing[c] == m.members[c].birth
    && R.Absent(m.members[c], observation.value.ids.value)
  }

  lemma FinishHolds(m: R.State, sequence: nat, now: R.Time, observation: Result<R.Inventory, string>, c: string)
    requires R.Inv(m) && R.Registered(m) && c in m.members && Fixed(m.members[c])
    ensures
      var n := R.FinishProbe(m, sequence, now, observation).state;
      && c in n.members
      && HeldUnless(ShowsGone(m, sequence, now, observation, c), m.members[c], n.members[c])
  {
    hide *;
    var o := R.Observed(m, sequence, now, observation);
    RT.FinishByObservation(m, sequence, now, observation);
    HoldsItself(m.members[c]);
    ObservedWhen(m, sequence, now, observation, c);
    if o.None? {
      FailedKeys(m, sequence, now, observation);
      HeldIsEnough(m.members[c], m.members[c]);
    } else {
      R.ObservedKeeps(m, sequence, now, observation);
      RP.ObservedMembers(m, sequence, now, observation);
      AfterObserved(m.members[c], o.value, c, now, ShowsGone(m, sequence, now, observation, c));
    }
  }

  /** Which members an observation ends. */
  lemma ObservedWhen(m: R.State, sequence: nat, now: R.Time, observation: Result<R.Inventory, string>, c: string)
    requires c in m.members
    ensures
      var o := R.Observed(m, sequence, now, observation);
      var gone := ShowsGone(m, sequence, now, observation, c);
      && (gone ==> o.Some?)
      && (o.Some? ==>
            && observation.Ok? && observation.value.ids.Some?
            && R.EndAbsent(m, observation.value.ids.value)[c]
               == if gone then R.EndMember(m.members[c]) else m.members[c])
  {
    hide R.Absent;
    hide R.Missing;
    hide R.RequestProbe;
  }

  lemma HeldIsEnough(m: R.Member, n: R.Member)
    requires Holds(m, n)
    ensures HeldUnless(false, m, n)
  {
  }

  lemma AfterObserved(m: R.Member, s: R.State, c: string, now: R.Time, gone: bool)
    requires R.Inv(s) && R.Registered(s) && c in s.members && Fixed(m)
    requires s.members[c] == if gone then R.EndMember(m) else m
    ensures c in R.Admit(s, now).state.members && HeldUnless(gone, m, R.Admit(s, now).state.members[c])
  {
    if !gone {
      AdmitHolds(s, now, c);
      hide *;
      HeldIsEnough(m, R.Admit(s, now).state.members[c]);
    } else {
      assert s.members[c].ended && s.members[c].birth == m.birth;
      hide *;
      RT.AdmitKeepsMember(s, now, c);
      EndedPersists(m, s.members[c], R.Admit(s, now).state.members[c]);
    }
  }

  lemma EndedPersists(m: R.Member, n: R.Member, k: R.Member)
    requires n.ended && n.birth == m.birth && RT.PersistentMember(n, k)
    ensures HeldUnless(true, m, k)
  {
  }

  /** The client's helper lost its connection and has not come back. */
  ghost predicate Away(s: State, c: string, id: nat) {
    && c in s.owners && s.owners[c] == id && id in s.peers && !s.peers[id].connected
    && c in s.model.members
  }

  /** The same connection is still missed; its member was held, unless its session was seen gone. */
  ghost predicate StillAway(s: State, t: State, c: string, id: nat, gone: bool) {
    && Away(s, c, id) && Away(t, c, id) && t.peers[id] == s.peers[id]
    && HeldUnless(gone, s.model.members[c], t.model.members[c])
  }

  lemma AwayIsClosed(s: State, c: string, id: nat)
    requires Inv(s) && Away(s, c, id)
    ensures id !in s.connections && s.peers[id].client == c && c != ""
  {
    hide R.Inv;
  }

  /** The model moved on and the away client's member was held. */
  lemma ModelStillAway(s: State, model: R.State, c: string, id: nat, gone: bool)
    requires Away(s, c, id) && c in model.members && HeldUnless(gone, s.model.members[c], model.members[c])
    ensures StillAway(s, s.(model := model), c, id, gone)
  {
  }

  lemma SelfStillAway(s: State, c: string, id: nat)
    requires Away(s, c, id)
    ensures StillAway(s, s, c, id, false)
  {
  }

  /** Only other connections and other clients were touched. */
  lemma OthersStillAway(s: State, t: State, c: string, id: nat)
    requires Away(s, c, id) && id in t.peers && t.peers[id] == s.peers[id] && c in t.owners && t.owners[c] == id
    requires c in t.model.members && HeldUnless(false, s.model.members[c], t.model.members[c])
    ensures StillAway(s, t, c, id, false)
  {
  }

  /** A connection of another process cannot touch the client. */
  lemma ForeignIsRefused(s: State, c: string, id: nat, other: nat, frame: Frame, now: R.Time, live: set<nat>)
    requires Inv(s) && Known(s) && R.Registered(s.model) && Away(s, c, id)
    requires other in s.connections && other in s.peers && s.peers[other].pid != s.peers[id].pid
    requires frame.request.Some? && frame.request.value.client == c
    ensures
      var (t, answer) := Handle(s, other, frame, now, live);
      t == s && answer.Failed?
  {
    OthersAreForeign(s, c, id, other, live);
    var r := frame.request.value;
    ForeignRefusal(s, other, r, live);
    ForeignRefusal(s, other, r.(event := R.NoEvent), live);
    hide *;
    RefusedFrame(s, other, frame, now, live);
  }

  lemma OthersAreForeign(s: State, c: string, id: nat, other: nat, live: set<nat>)
    requires Inv(s) && Known(s) && Away(s, c, id)
    requires other in s.connections && other in s.peers && s.peers[other].pid != s.peers[id].pid
    ensures Foreign(s, other, c, live)
  {
    hide R.Inv;
  }

  lemma ForeignRefusal(s: State, id: nat, r: R.Request, live: set<nat>)
    requires Known(s) && id in s.peers && Foreign(s, id, r.client, live)
    ensures Refusal(s, id, r, live).Some?
  {
    hide R.ValidRequest;
    hide R.SameIdentity;
    hide Foreign;
  }

  lemma RefusedFrame(s: State, id: nat, frame: Frame, now: R.Time, live: set<nat>)
    requires Known(s) && id in s.peers && R.Registered(s.model) && frame.request.Some?
    requires Refusal(s, id, frame.request.value, live).Some?
    requires Refusal(s, id, frame.request.value.(event := R.NoEvent), live).Some?
    ensures
      var (t, answer) := Handle(s, id, frame, now, live);
      t == s && answer.Failed?
  {
    hide Refusal;
    hide Known;
    hide R.Registered;
    hide R.Exchange;
  }

  lemma DropStillAway(s: State, d: string, c: string, id: nat)
    requires Away(s, c, id) && d != c
    ensures StillAway(s, Drop(s, d), c, id, false)
  {
    RemoveHolds(s.model, d, c);
    hide R.Remove;
  }

  lemma OwnStillAway(s: State, other: nat, client: string, model: R.State, c: string, id: nat)
    requires Away(s, c, id) && other in s.peers && other != id && client != c
    requires c in model.members && HeldUnless(false, s.model.members[c], model.members[c])
    ensures StillAway(s, Own(s.(model := model), other, client), c, id, false)
  {
  }

  lemma TakeStillAway(s: State, other: nat, client: string, c: string, id: nat)
    requires Away(s, c, id) && other in s.peers && other != id && client != c
    ensures StillAway(s, TakeOver(s, other, client), c, id, false) && TakeOver(s, other, client).model == s.model
    ensures other in TakeOver(s, other, client).peers
  {
    HoldsItself(s.model.members[c]);
  }

  lemma DepartStillAway(s: State, other: nat, client: string, c: string, id: nat)
    requires Away(s, c, id) && other in s.peers && other != id && client != c
    ensures StillAway(s, Depart(s, other, client), c, id, false)
  {
    RemoveHolds(s.model, client, c);
    hide R.Remove;
  }

  lemma ExchangeStillAway(s: State, other: nat, r: R.Request, now: R.Time, c: string, id: nat)
    requires Away(s, c, id) && other in s.peers && other != id && r.client != c
    requires R.Inv(s.model) && R.Registered(s.model) && Fixed(s.model.members[c])
    ensures
      var t := s.(model := R.Exchange(s.model, r, now).0);
      StillAway(s, t, c, id, false) && StillAway(s, Own(t, other, r.client), c, id, false)
  {
    MemberOf(s, c, id);
    hide *;
    var model := R.Exchange(s.model, r, now).0;
    ExchangeHolds(s.model, r, now, c);
    HeldIsEnough(s.model.members[c], model.members[c]);
    ModelStillAway(s, model, c, id, false);
    OwnStillAway(s, other, r.client, model, c, id);
  }

  lemma MemberOf(s: State, c: string, id: nat)
    requires Away(s, c, id)
    ensures c in s.model.members
  {
  }

  /** What a frame of a connection comes to. */
  lemma HandleCases(s: State, id: nat, frame: Frame, now: R.Time, live: set<nat>)
    requires Known(s) && id in s.peers && R.Registered(s.model)
    ensures
      var h := Handle(s, id, frame, now, live).0;
      || h == s
      || (frame.request.Some?
          && var r := frame.request.value;
             var t := TakeOver(s, id, r.client);
             R.Registered(t.model) && id in t.peers
             && h in {Depart(t, id, r.client), t.(model := R.Exchange(t.model, r, now).0),
                      Own(t.(model := R.Exchange(t.model, r, now).0), id, r.client)})
  {
    hide R.Registered;
    hide R.Exchange;
    hide Refusal;
    hide Depart;
  }

  lemma FrameStillAway(s: State, c: string, id: nat, other: nat, frame: Frame, now: R.Time, live: set<nat>)
    requires Inv(s) && Known(s) && R.Registered(s.model) && Away(s, c, id) && Fixed(s.model.members[c])
    requires other in s.connections && other in s.peers && s.peers[other].pid != s.peers[id].pid
    ensures StillAway(s, Handle(s, other, frame, now, live).0, c, id, false)
  {
    MemberOf(s, c, id);
    IsPeer(s, c, id);
    hide *;
    SelfStillAway(s, c, id);
    HandleCases(s, other, frame, now, live);
    if frame.request.Some? {
      var r := frame.request.value;
      if r.client == c {
        ForeignIsRefused(s, c, id, other, frame, now, live);
      } else if Handle(s, other, frame, now, live).0 != s {
        var t := TakeOver(s, other, r.client);
        TakeStillAway(s, other, r.client, c, id);
        StillFixed(s, t, c, id, false);
        ModelIsSound(s);
        DepartStillAway(t, other, r.client, c, id);
        ExchangeStillAway(t, other, r, now, c, id);
        StillAwayTwice(s, t, Handle(s, other, frame, now, live).0, c, id, false, false);
      }
    }
  }

  lemma IsPeer(s: State, c: string, id: nat)
    requires Away(s, c, id)
    ensures id in s.peers
  {
  }

  lemma CloseStillAway(s: State, c: string, id: nat, other: nat, live: set<nat>, stopping: bool)
    requires Inv(s) && Away(s, c, id) && other in s.connections && other in s.peers
    ensures StillAway(s, Disconnect(s, other, live, stopping), c, id, false)
  {
    AwayIsClosed(s, c, id);
    OwnsOne(s, other);
    var d := s.peers[other].client;
    var t := s.(connections := s.connections - {other});
    var u := t.(peers := s.peers[other := s.peers[other].(connected := false)]);
    DisconnectCases(s, other, live, stopping);
    assert d in s.owners && s.owners[d] == other ==> d != c by {
      IsOwner(s, c, id);
    }
    MemberOf(s, c, id);
    IsPeer(s, c, id);
    IsOwner(s, c, id);
    hide *;
    HoldsItself(s.model.members[c]);
    HeldIsEnough(s.model.members[c], s.model.members[c]);
    OthersStillAway(s, t, c, id);
    OthersStillAway(s, u, c, id);
    StillAwayNow(s, t, c, id);
    if d in s.owners && s.owners[d] == other {
      DropStillAway(t, d, c, id);
      StillAwayTwice(s, t, Drop(t, d), c, id, false, false);
    }
  }

  lemma IsOwner(s: State, c: string, id: nat)
    requires Away(s, c, id)
    ensures c in s.owners && s.owners[c] == id
  {
  }

  lemma StillAwayNow(s: State, t: State, c: string, id: nat)
    requires StillAway(s, t, c, id, false)
    ensures Away(t, c, id)
  {
  }

  lemma DisconnectCases(s: State, id: nat, live: set<nat>, stopping: bool)
    requires id in s.peers
    ensures
      var t := s.(connections := s.connections - {id});
      var c := s.peers[id].client;
      var d := Disconnect(s, id, live, stopping);
      || d == t
      || d == t.(peers := s.peers[id := s.peers[id].(connected := false)])
      || (c in s.owners && s.owners[c] == id && d == Drop(t, c))
  {
    hide Drop;
    hide Waiting;
  }

  lemma StillAwayTwice(s: State, t: State, u: State, c: string, id: nat, first: bool, second: bool)
    requires StillAway(s, t, c, id, first) && StillAway(t, u, c, id, second)
    ensures StillAway(s, u, c, id, first || second)
  {
  }

  lemma {:induction false} BuryStillAway(s: State, visit: seq<string>, live: set<nat>, c: string, id: nat)
    requires Known(s) && Away(s, c, id) && Alive(s, id, live)
    ensures
      var t := Bury(s, visit, live);
      Away(t, c, id) && t.model.members[c] == s.model.members[c]
    decreases |visit|
  {
    if visit != [] {
      var d := visit[0];
      if d != c {
        RemoveHolds(s.model, d, c);
      }
      hide R.Remove;
      BuryStillAway(if Abandoned(s, d, live) then Drop(s, d) else s, visit[1..], live, c, id);
    }
  }

  lemma TickStillAway(s: State, visit: seq<string>, now: R.Time, live: set<nat>, c: string, id: nat)
    requires Inv(s) && Known(s) && Away(s, c, id) && Alive(s, id, live) && Fixed(s.model.members[c])
    requires R.Registered(Bury(s, visit, live).model)
    ensures StillAway(s, Tick(s, visit, now, live), c, id, false)
  {
    var t := Bury(s, visit, live);
    TickIs(s, visit, now, live);
    MemberOf(s, c, id);
    hide *;
    BuryKeeps(s, visit, live);
    BuryStillAway(s, visit, live, c, id);
    ModelIsSound(t);
    MemberOf(t, c, id);
    AdmitHolds(t.model, now, c);
    var admitted := R.Admit(t.model, now).state;
    R.AdmitKeeps(t.model, now);
    R.BeginProbeFrame(admitted, now);
    var model := R.BeginProbe(admitted, now).0;
    HeldIsEnough(t.model.members[c], model.members[c]);
    ModelStillAway(t, model, c, id, false);
    SameMemberStillAway(s, t, t.(model := model), c, id);
  }

  lemma TickIs(s: State, visit: seq<string>, now: R.Time, live: set<nat>)
    requires Known(s) && R.Registered(Bury(s, visit, live).model)
    ensures
      var t := Bury(s, visit, live);
      Tick(s, visit, now, live) == t.(model := R.BeginProbe(R.Admit(t.model, now).state, now).0)
      && t.peers == s.peers
  {
    hide R.Admit;
    hide R.BeginProbe;
    hide R.Registered;
  }

  lemma SameMemberStillAway(s: State, t: State, u: State, c: string, id: nat)
    requires Away(s, c, id) && Away(t, c, id) && t.peers == s.peers && t.model.members[c] == s.model.members[c]
    requires StillAway(t, u, c, id, false)
    ensures StillAway(s, u, c, id, false)
  {
  }

  lemma ProbeStillAway(s: State, sequence: nat, now: R.Time, observation: Result<R.Inventory, string>, c: string, id: nat)
    requires Inv(s) && R.Registered(s.model) && Away(s, c, id) && Fixed(s.model.members[c])
    ensures
      StillAway(s, s.(model := R.FinishProbe(s.model, sequence, now, observation).state), c, id,
                ShowsGone(s.model, sequence, now, observation, c))
  {
    ModelIsSound(s);
    hide *;
    FinishHolds(s.model, sequence, now, observation, c);
    ModelStillAway(
      s, R.FinishProbe(s.model, sequence, now, observation).state, c, id,
      ShowsGone(s.model, sequence, now, observation, c));
  }

  lemma AcceptStillAway(s: State, other: nat, pid: nat, process: nat, c: string, id: nat)
    requires Away(s, c, id)
    ensures StillAway(s, Accept(s, other, pid, process), c, id, false)
  {
    HoldsItself(s.model.members[c]);
  }

  /** Neither the helper's own process nor one with its number speaks; its process lives on. */
  ghost predicate Undisturbed(s: State, op: Op, live: set<nat>, id: nat) {
    && id in s.peers && Alive(s, id, live)
    && (op.FrameOp? && Enabled(s, op, live) ==> s.peers[op.id].pid != s.peers[id].pid)
  }

  /** The step takes in a probe's result without the client's session. */
  predicate SeenGone(s: State, op: Op, c: string) {
    op.ProbeOp? && ShowsGone(s.model, op.sequence, op.now, op.observation, c)
  }

  lemma SeenGoneIs(s: State, op: Op, live: set<nat>, c: string)
    ensures SeenGone(s, op, c) <==> op.ProbeOp? && ShowsGone(s.model, op.sequence, op.now, op.observation, c)
    ensures SeenGone(s, op, c) ==> Enabled(s, op, live)
  {
  }

  lemma ServiceStepStillAway(s: State, op: Op, live: set<nat>, c: string, id: nat)
    requires Inv(s) && Away(s, c, id) && Fixed(s.model.members[c]) && Undisturbed(s, op, live, id)
    requires op.TickOp? || op.ProbeOp? || op.AcceptOp?
    ensures StillAway(s, Step(s, op, live), c, id, SeenGone(s, op, c))
  {
    SoundServer(s);
    MemberOf(s, c, id);
    IsPeer(s, c, id);
    StepIs(s, op, live);
    SeenGoneIs(s, op, live, c);
    ProcessLives(s, op, live, id);
    hide *;
    SelfStillAway(s, c, id);
    if Enabled(s, op, live) {
      if op.TickOp? {
        TickStillAway(s, op.visit, op.now, live, c, id);
      } else if op.ProbeOp? {
        ProbeStillAway(s, op.sequence, op.now, op.observation, c, id);
      } else {
        AcceptStillAway(s, op.id, op.pid, op.process, c, id);
      }
    }
  }

  lemma ConnectionStepStillAway(s: State, op: Op, live: set<nat>, c: string, id: nat)
    requires Inv(s) && Away(s, c, id) && Fixed(s.model.members[c]) && Undisturbed(s, op, live, id)
    requires op.FrameOp? || op.CloseOp?
    ensures StillAway(s, Step(s, op, live), c, id, SeenGone(s, op, c))
  {
    SoundServer(s);
    MemberOf(s, c, id);
    IsPeer(s, c, id);
    StepIs(s, op, live);
    SeenGoneIs(s, op, live, c);
    ProcessLives(s, op, live, id);
    hide *;
    SelfStillAway(s, c, id);
    if Enabled(s, op, live) {
      if op.FrameOp? {
        FrameStillAway(s, c, id, op.id, op.frame, op.now, live);
      } else {
        CloseStillAway(s, c, id, op.id, live, op.stopping);
      }
    }
  }

  lemma StepStillAway(s: State, op: Op, live: set<nat>, c: string, id: nat)
    requires Inv(s) && Away(s, c, id) && Fixed(s.model.members[c]) && Undisturbed(s, op, live, id)
    ensures StillAway(s, Step(s, op, live), c, id, SeenGone(s, op, c))
  {
    MemberOf(s, c, id);
    hide *;
    if op.FrameOp? || op.CloseOp? {
      ConnectionStepStillAway(s, op, live, c, id);
    } else {
      ServiceStepStillAway(s, op, live, c, id);
    }
  }

  lemma ProcessLives(s: State, op: Op, live: set<nat>, id: nat)
    requires Undisturbed(s, op, live, id)
    ensures id in s.peers && Alive(s, id, live)
    ensures op.FrameOp? && Enabled(s, op, live) ==> op.id in s.peers && s.peers[op.id].pid != s.peers[id].pid
  {
  }

  lemma StepIs(s: State, op: Op, live: set<nat>)
    requires Inv(s) && Known(s) && R.Registered(s.model)
    ensures
      var t := Step(s, op, live);
      && (!Enabled(s, op, live) ==> t == s)
      && (Enabled(s, op, live) ==>
            && (op.AcceptOp? ==> t == Accept(s, op.id, op.pid, op.process))
            && (op.FrameOp? ==> op.id in s.connections && op.id in s.peers && t == Handle(s, op.id, op.frame, op.now, live).0)
            && (op.CloseOp? ==> op.id in s.connections && op.id in s.peers && t == Disconnect(s, op.id, live, op.stopping))
            && (op.TickOp? ==> R.Registered(Bury(s, op.visit, live).model) && t == Tick(s, op.visit, op.now, live))
            && (op.ProbeOp? ==> t == s.(model := R.FinishProbe(s.model, op.sequence, op.now, op.observation).state)))
  {
    SoundServer(s);
    hide Inv;
    hide Handle;
    hide Disconnect;
    hide Accept;
    hide Tick;
    hide Known;
    hide R.Registered;
    hide R.FinishProbe;
    if op.TickOp? {
      BuryKeeps(s, op.visit, live);
      ModelIsSound(Bury(s, op.visit, live));
      R.InvFacts(Bury(s, op.visit, live).model);
    }
  }

  datatype Event = Event(op: Op, live: set<nat>)

  ghost function Run(s: State, events: seq<Event>): (t: State)
    requires Inv(s)
    ensures Inv(t)
    decreases |events|
  {
    if events == [] then s
    else
      StepKeeps(s, events[0].op, events[0].live);
      Run(Step(s, events[0].op, events[0].live), events[1..])
  }

  ghost predicate UndisturbedRun(s: State, events: seq<Event>, id: nat)
    requires Inv(s)
    decreases |events|
  {
    events == [] ||
    (StepKeeps(s, events[0].op, events[0].live);
     && Undisturbed(s, events[0].op, events[0].live, id)
     && UndisturbedRun(Step(s, events[0].op, events[0].live), events[1..], id))
  }

  lemma StillFixed(s: State, t: State, c: string, id: nat, gone: bool)
    requires StillAway(s, t, c, id, gone) && Fixed(s.model.members[c])
    ensures Away(t, c, id) && Fixed(t.model.members[c])
  {
  }

  /** Owners and members agree in every reachable state. */
  lemma OwnersAreMembers(events: seq<Event>)
    ensures Inv(NEW_SERVER)
    ensures
      var t := Run(NEW_SERVER, events);
      t.owners.Keys == t.model.members.Keys && forall c <- t.owners :: t.owners[c] in t.peers && t.peers[t.owners[c]].client == c
  {
    NewServerIsSound();
    assert Owned(Run(NEW_SERVER, events));
  }

  ghost predicate SeenGoneDuring(s: State, events: seq<Event>, c: string)
    requires Inv(s)
    decreases |events|
  {
    events != [] &&
    (StepKeeps(s, events[0].op, events[0].live);
     || SeenGone(s, events[0].op, c)
     || SeenGoneDuring(Step(s, events[0].op, events[0].live), events[1..], c))
  }

  lemma {:induction false} StaysAway(s: State, events: seq<Event>, c: string, id: nat)
    requires Inv(s) && Away(s, c, id) && Fixed(s.model.members[c]) && UndisturbedRun(s, events, id)
    ensures StillAway(s, Run(s, events), c, id, SeenGoneDuring(s, events, c))
    decreases |events|
  {
    hide Inv;
    hide StillAway;
    hide Step;
    hide Fixed;
    hide Away;
    hide Undisturbed;
    hide SeenGone;
    if events == [] {
      SelfStillAway(s, c, id);
    } else {
      StepKeeps(s, events[0].op, events[0].live);
      var t := Step(s, events[0].op, events[0].live);
      StepStillAway(s, events[0].op, events[0].live, c, id);
      StillFixed(s, t, c, id, SeenGone(s, events[0].op, c));
      StaysAway(t, events[1..], c, id);
      StillAwayTwice(
        s, t, Run(s, events), c, id, SeenGone(s, events[0].op, c), SeenGoneDuring(t, events[1..], c));
    }
  }

  /**
   A pending member whose connection broke keeps its owner and its registration for as long as
   its process lives and does not come back: whatever other connections say, whatever the ticker
   does.  It keeps its attempt and its slot if and only if no probe that observed it brings in
   an inventory without its session; then it has ended.
   */
  lemma BrokenConnectionKeepsSlot(s: State, events: seq<Event>, c: string, id: nat)
    requires Inv(s) && Away(s, c, id) && R.Pending(s.model.members[c]) && UndisturbedRun(s, events, id)
    ensures
      var t := Run(s, events);
      && Away(t, c, id) && t.peers[id] == s.peers[id]
      && t.model.members[c].birth == s.model.members[c].birth
      && (R.Pending(t.model.members[c]) <==> !SeenGoneDuring(s, events, c))
      && (if SeenGoneDuring(s, events, c) then t.model.members[c].ended
          else Holds(s.model.members[c], t.model.members[c]))
  {
    StaysAway(s, events, c, id);
    var t := Run(s, events);
    ModelIsSound(t);
    EndedIsNotPending(t.model, c);
    hide Inv;
    hide Run;
    hide SeenGoneDuring;
  }

  lemma EndedIsNotPending(m: R.State, c: string)
    requires R.Inv(m) && c in m.members
    ensures m.members[c].ended ==> !R.Pending(m.members[c])
  {
    R.InvMember(m, c);
    hide R.Inv;
  }

  /** Breaking the connection of a pending member of a live process is what sends it away. */
  lemma DisconnectSendsAway(s: State, id: nat, live: set<nat>, c: string)
    requires Inv(s) && id in s.connections && id in s.peers
    requires c in s.owners && s.owners[c] == id && R.Pending(s.model.members[c]) && Alive(s, id, live)
    ensures
      var t := Disconnect(s, id, live, false);
      Away(t, c, id) && t.model == s.model && R.Pending(t.model.members[c])
  {
    OwnsOne(s, id);
    NeverAnonymous(s);
    hide R.Inv;
  }

  lemma NeverAnonymous(s: State)
    requires Inv(s)
    ensures "" !in s.owners
  {
    hide R.Inv;
  }

  /** Any other end of an owner's connection, and the death of an absent owner, removes the member. */
  lemma DisconnectRemoves(s: State, id: nat, live: set<nat>, stopping: bool, c: string)
    requires Inv(s) && id in s.connections && id in s.peers && c in s.owners && s.owners[c] == id
    requires stopping || !R.Pending(s.model.members[c]) || !Alive(s, id, live)
    ensures
      var t := Disconnect(s, id, live, stopping);
      c !in t.owners && c !in t.model.members
  {
    OwnsOne(s, id);
    NeverAnonymous(s);
    RemovedMembers(s.model, c);
    hide R.Inv;
    hide R.Remove;
  }

  /**
   A client changes hands only to its own process: the frame's speaker owned it already, or the
   owner was away, alive, and has the speaker's process number.
   */
  lemma OnlyItsProcessTakesOver(s: State, id: nat, frame: Frame, now: R.Time, live: set<nat>, c: string)
    requires Inv(s) && Known(s) && R.Registered(s.model) && id in s.connections && id in s.peers
    requires c in s.owners
    ensures
      var t := Handle(s, id, frame, now, live).0;
      c !in t.owners || t.owners[c] != s.owners[c] ==>
        && frame.request.Some? && frame.request.value.client == c
        && (s.owners[c] == id
            || (!s.peers[s.owners[c]].connected && Alive(s, s.owners[c], live)
                && s.peers[s.owners[c]].pid == s.peers[id].pid))
  {
    hide Inv;
    hide R.Exchange;
    hide R.ValidRequest;
    hide R.SameIdentity;
    hide R.Registered;
    hide R.Remove;
  }

  // ---------------------------------------------------------------- a client stays with its process

  /** Two processes that are alive at once have different process numbers. */
  ghost predicate DistinctNumbers(s: State, live: set<nat>) {
    forall i <- s.peers, j <- s.peers ::
      Alive(s, i, live) && Alive(s, j, live) && s.peers[i].pid == s.peers[j].pid ==>
        s.peers[i].process == s.peers[j].process
  }

  /** Every connection is still that of the process it was opened by. */
  ghost predicate SameProcesses(s: State, t: State) {
    forall i <- s.peers :: i in t.peers && t.peers[i].process == s.peers[i].process
  }

  lemma HandleProcesses(s: State, id: nat, frame: Frame, now: R.Time, live: set<nat>)
    requires Known(s) && id in s.peers && R.Registered(s.model)
    ensures SameProcesses(s, Handle(s, id, frame, now, live).0)
  {
    hide R.Registered;
    hide R.Exchange;
    hide R.Remove;
    hide Refusal;
  }

  lemma CloseProcesses(s: State, id: nat, live: set<nat>, stopping: bool)
    requires id in s.peers
    ensures
      var t := Disconnect(s, id, live, stopping);
      SameProcesses(s, t) && forall c <- t.owners :: c in s.owners && t.owners[c] == s.owners[c]
  {
    hide R.Remove;
  }

  lemma {:induction false} BuryOwners(s: State, visit: seq<string>, live: set<nat>)
    requires Known(s)
    ensures
      var t := Bury(s, visit, live);
      t.peers == s.peers && forall c <- t.owners :: c in s.owners && t.owners[c] == s.owners[c]
    decreases |visit|
  {
    hide R.Remove;
    hide Abandoned;
    if visit != [] {
      BuryOwners(if Abandoned(s, visit[0], live) then Drop(s, visit[0]) else s, visit[1..], live);
    }
  }

  lemma TickProcesses(s: State, visit: seq<string>, now: R.Time, live: set<nat>)
    requires Known(s) && R.Registered(Bury(s, visit, live).model)
    ensures
      var t := Tick(s, visit, now, live);
      SameProcesses(s, t) && forall c <- t.owners :: c in s.owners && t.owners[c] == s.owners[c]
  {
    BuryOwners(s, visit, live);
    TickIs(s, visit, now, live);
    hide Bury;
    hide R.Registered;
    hide R.Admit;
    hide R.BeginProbe;
  }

  /** The client, if it still has an owner, is owned by the process that owned it. */
  ghost predicate SameOwnerProcess(s: State, t: State, c: string) {
    && c in s.owners && s.owners[c] in s.peers
    && (c in t.owners ==> t.owners[c] in t.peers && t.peers[t.owners[c]].process == s.peers[s.owners[c]].process)
  }

  /** Nobody gained a client and connections stayed with their processes. */
  lemma FewerOwners(s: State, t: State, c: string)
    requires Known(s) && c in s.owners && SameProcesses(s, t)
    requires forall d <- t.owners :: d in s.owners && t.owners[d] == s.owners[d]
    ensures SameOwnerProcess(s, t, c)
  {
  }

  lemma AcceptProcesses(s: State, id: nat, pid: nat, process: nat)
    ensures SameProcesses(s, Accept(s, id, pid, process)) && Accept(s, id, pid, process).owners == s.owners
  {
  }

  lemma StepKeepsProcess(s: State, op: Op, live: set<nat>, c: string)
    requires Inv(s) && Known(s) && R.Registered(s.model) && c in s.owners && DistinctNumbers(s, live)
    ensures SameOwnerProcess(s, Step(s, op, live), c)
  {
    var t := Step(s, op, live);
    StepIs(s, op, live);
    FrameIsLive(s, op, live);
    hide *;
    NothingHappened(s, c);
    if Enabled(s, op, live) {
      match op
      case AcceptOp(id, pid, process) =>
        AcceptProcesses(s, id, pid, process);
        FewerOwners(s, t, c);
      case FrameOp(id, frame, now) => FrameKeepsProcess(s, id, frame, now, live, c);
      case CloseOp(id, stopping) =>
        CloseProcesses(s, id, live, stopping);
        FewerOwners(s, t, c);
      case TickOp(visit, now) =>
        TickProcesses(s, visit, now, live);
        FewerOwners(s, t, c);
      case ProbeOp(sequence, now, observation) =>
        ProbeProcesses(s, R.FinishProbe(s.model, sequence, now, observation).state);
        FewerOwners(s, t, c);
    }
  }

  lemma FrameIsLive(s: State, op: Op, live: set<nat>)
    ensures Enabled(s, op, live) && op.FrameOp? ==> op.id in s.connections && op.id in s.peers && Alive(s, op.id, live)
  {
  }

  lemma NothingHappened(s: State, c: string)
    requires Known(s) && c in s.owners
    ensures SameOwnerProcess(s, s, c)
  {
  }

  lemma ProbeProcesses(s: State, model: R.State)
    ensures SameProcesses(s, s.(model := model)) && s.(model := model).owners == s.owners
  {
  }

  lemma FrameKeepsProcess(s: State, id: nat, frame: Frame, now: R.Time, live: set<nat>, c: string)
    requires Inv(s) && Known(s) && R.Registered(s.model) && c in s.owners && DistinctNumbers(s, live)
    requires id in s.connections && id in s.peers && Alive(s, id, live)
    ensures SameOwnerProcess(s, Handle(s, id, frame, now, live).0, c)
  {
    HandleProcesses(s, id, frame, now, live);
    OnlyItsProcessTakesOver(s, id, frame, now, live, c);
    HandleOwners(s, id, frame, now, live, c);
    hide Inv;
    hide Handle;
    hide R.Registered;
  }

  /** A frame makes nobody but its own connection an owner. */
  lemma HandleOwners(s: State, id: nat, frame: Frame, now: R.Time, live: set<nat>, c: string)
    requires Known(s) && id in s.peers && R.Registered(s.model) && c in s.owners
    ensures
      var t := Handle(s, id, frame, now, live).0;
      c in t.owners ==> t.owners[c] in {s.owners[c], id}
  {
    hide R.Registered;
    hide R.Exchange;
    hide R.Remove;
    hide Refusal;
  }

  /** Throughout the run the client has an owner and live processes have different numbers. */
  ghost predicate OwnedThroughout(s: State, events: seq<Event>, c: string)
    requires Inv(s)
    decreases |events|
  {
    && c in s.owners
    && (events == [] ||
        (StepKeeps(s, events[0].op, events[0].live);
         && DistinctNumbers(s, events[0].live)
         && OwnedThroughout(Step(s, events[0].op, events[0].live), events[1..], c)))
  }

  /**
   A client stays with its process: over any run, for as long as it has an owner at all, however
   often its connection breaks and comes back, the owner belongs to the process it began with.
   */
  lemma {:induction false} ProcessKeepsItsClient(s: State, events: seq<Event>, c: string)
    requires Inv(s) && OwnedThroughout(s, events, c)
    ensures
      var t := Run(s, events);
      c in t.owners && SameOwnerProcess(s, t, c)
    decreases |events|
  {
    SoundServer(s);
    OwnedCases(s, events, c);
    hide *;
    if events != [] {
      var t := Step(s, events[0].op, events[0].live);
      StepKeepsProcess(s, events[0].op, events[0].live, c);
      ProcessKeepsItsClient(t, events[1..], c);
      SameOwnerTwice(s, t, Run(s, events), c);
    } else {
      NothingHappened(s, c);
    }
  }

  lemma OwnedCases(s: State, events: seq<Event>, c: string)
    requires Inv(s) && OwnedThroughout(s, events, c)
    ensures c in s.owners
    ensures events == [] ==> Run(s, events) == s
    ensures events != [] ==>
      var t := Step(s, events[0].op, events[0].live);
      && DistinctNumbers(s, events[0].live)
      && Inv(t) && c in t.owners && OwnedThroughout(t, events[1..], c) && Run(s, events) == Run(t, events[1..])
  {
    hide Inv;
    hide Step;
    hide DistinctNumbers;
    if events != [] {
      StepKeeps(s, events[0].op, events[0].live);
    }
  }

  lemma SameOwnerTwice(s: State, t: State, u: State, c: string)
    requires SameOwnerProcess(s, t, c) && c in t.owners && SameOwnerProcess(t, u, c)
    ensures SameOwnerProcess(s, u, c)
  {
  }

  /** While its process lives, frames of other processes do not disturb a client that is away. */
  lemma OtherProcessesDoNotDisturb(s: State, op: Op, live: set<nat>, id: nat)
    requires id in s.peers && Alive(s, id, live) && DistinctNumbers(s, live)
    requires op.FrameOp? && op.id in s.peers ==> s.peers[op.id].process != s.peers[id].process
    ensures Undisturbed(s, op, live, id)
  {
  }
}
