/**
 What the recovery service does with a frame and on a tick (internal/mirror/session_recovery_server.go),
 stated on its connections, owners and members.
 */
module ServiceMeaning {
  import opened Wrappers
  import R = Recovery
  import RT = RecoveryTheorems
  import opened RecoveryServer

  /**
   The connection may speak for the client: it has not spoken for another, the client's identity is
   unchanged, and the client's owner is this connection or an away one of the same live process number.
   */
  ghost predicate SpeaksFor(s: State, id: nat, r: R.Request, live: set<nat>)
    requires id in s.peers
  {
    && R.ValidRequest(r)
    && (s.peers[id].client == "" || s.peers[id].client == r.client)
    && (r.client in s.model.members ==>
          var m := s.model.members[r.client];
          m.token == r.token && m.session == r.session && m.sessionID == r.sessionID)
    && (r.client in s.owners && s.owners[r.client] != id ==>
          && s.owners[r.client] in s.peers
          && var owner := s.peers[s.owners[r.client]];
             !owner.connected && owner.pid == s.peers[id].pid && owner.process in live)
  }

  lemma RefusedIs(s: State, id: nat, r: R.Request, live: set<nat>)
    requires Known(s) && id in s.peers
    ensures Refusal(s, id, r, live).None? <==> SpeaksFor(s, id, r, live)
  {
    hide R.ValidRequest;
  }

  lemma LeavingIsValid(r: R.Request)
    ensures r.(event := R.NoEvent).client == r.client
  {
  }

  /** The state with the connection as the client's owner, and the coordinator in state `model`. */
  ghost predicate Owns(s: State, t: State, id: nat, client: string, model: R.State)
    requires id in s.peers
  {
    && t.model == model && t.connections == s.connections
    && t.owners == s.owners[client := id] && t.peers == s.peers[id := s.peers[id].(client := client)]
  }

  /** Without the client: neither a member nor an owner of it is left, and the connection is free again. */
  ghost predicate Without(s: State, t: State, id: nat, client: string)
    requires id in s.peers
  {
    && t.connections == s.connections && t.owners == s.owners - {client}
    && t.model.members == s.model.members - {client}
    && t.peers == s.peers[id := s.peers[id].(client := "")]
  }

  lemma RemovedIs(m: R.State, c: string)
    ensures R.Remove(m, c).members == m.members - {c}
  {
    hide R.Without;
  }

  lemma LeaveTells(s: State, id: nat, client: string)
    requires id in s.peers
    ensures
      var t := TakeOver(s, id, client);
      id in t.peers && t.model == s.model && Without(s, Depart(t, id, client), id, client)
  {
    RemovedIs(s.model, client);
    hide R.Remove;
    var t := TakeOver(s, id, client);
    assert t.owners - {client} == s.owners - {client};
  }

  lemma OwnTells(s: State, id: nat, client: string, model: R.State)
    requires id in s.peers
    ensures
      var t := TakeOver(s, id, client);
      id in t.peers && t.model == s.model && Owns(s, Own(t.(model := model), id, client), id, client, model)
  {
    var t := TakeOver(s, id, client);
    assert t.owners[client := id] == s.owners[client := id];
  }

  /**
   A request changes nothing unless the connection may speak for the client.  A departure then leaves
   nothing of the client; any other request goes to the coordinator and, if it is not refused
   there, makes the connection the client's owner.
   */
  lemma FrameTells(s: State, id: nat, frame: Frame, now: R.Time, live: set<nat>)
    requires Inv(s) && Known(s) && R.Registered(s.model) && id in s.peers && frame.known && frame.request.Some?
    ensures
      var r := frame.request.value;
      var (t, answer) := Handle(s, id, frame, now, live);
      if !SpeaksFor(s, id, if frame.leave then r.(event := R.NoEvent) else r, live) then t == s && answer.Failed?
      else if frame.leave then answer == Left && Without(s, t, id, r.client)
      else
        var (model, reply) := R.Exchange(s.model, r, now);
        if reply.Ok? then answer == Answered(reply.value) && Owns(s, t, id, r.client, model)
        else answer == Failed(reply.error) && t.model == s.model && t.connections == s.connections
  {
    hide *;
    var r := frame.request.value;
    LeavingIsValid(r);
    RefusedIs(s, id, if frame.leave then r.(event := R.NoEvent) else r, live);
    LeaveTells(s, id, r.client);
    OwnTells(s, id, r.client, R.Exchange(s.model, r, now).0);
    ExchangeKeys(s.model, r, now);
    FrameCases(s, id, frame, now, live);
  }

  lemma FrameCases(s: State, id: nat, frame: Frame, now: R.Time, live: set<nat>)
    requires Known(s) && R.Registered(s.model) && id in s.peers && frame.known && frame.request.Some?
    requires TakeOver(s, id, frame.request.value.client).model == s.model
    requires id in TakeOver(s, id, frame.request.value.client).peers
    ensures TakeOver(s, id, frame.request.value.client).connections == s.connections
    ensures
      var r := frame.request.value;
      var refusal := Refusal(s, id, if frame.leave then r.(event := R.NoEvent) else r, live);
      var t := TakeOver(s, id, r.client);
      var (model, reply) := R.Exchange(s.model, r, now);
      Handle(s, id, frame, now, live) ==
        if refusal.Some? then (s, Failed(refusal.value))
        else if frame.leave then (Depart(t, id, r.client), Left)
        else if reply.Err? then (t.(model := model), Failed(reply.error))
        else (Own(t.(model := model), id, r.client), Answered(reply.value))
  {
    hide Refusal;
    hide Depart;
    hide R.Exchange;
    hide R.Registered;
    hide Known;
  }

  // ---------------------------------------------------------------- broken connections

  /** The connection owns the client, and its end is no mere break: the member goes. */
  ghost predicate GoesWith(s: State, id: nat, c: string, live: set<nat>, stopping: bool)
    requires id in s.peers
  {
    && c in s.owners && s.owners[c] == id
    && (stopping || s.peers[id].process !in live || c !in s.model.members
        || s.model.members[c].active == "" || s.model.members[c].ready)
  }

  /**
   When a connection ends, the client it owns goes with it, unless the process lives on with a
   pending attempt; then the owner is away.  Every other owner and member is untouched.
   */
  lemma CloseTells(s: State, id: nat, live: set<nat>, stopping: bool, c: string)
    requires Inv(s) && id in s.peers && id in s.connections
    ensures
      var t := Disconnect(s, id, live, stopping);
      && t.connections == s.connections - {id}
      && (c in t.owners <==> c in s.owners && !GoesWith(s, id, c, live, stopping))
      && (c in t.owners ==> t.owners[c] == s.owners[c] && (s.owners[c] == id ==> !t.peers[id].connected))
      && (c in t.model.members <==> c in t.owners)
      && (c in t.model.members ==> t.model.members[c] == s.model.members[c])
      && (forall other :: other in s.peers && other != id ==> other in t.peers && t.peers[other] == s.peers[other])
  {
    hide *;
    OwnsOne(s, id);
    NeverAnonymous(s);
    OwnedAre(s);
    CloseCases(s, id, live, stopping);
    var d := s.peers[id].client;
    GoesWithOne(s, id, c, live, stopping);
    GoesWithOne(s, id, d, live, stopping);
    RemovedIs(s.model, d);
  }

  lemma GoesWithOne(s: State, id: nat, c: string, live: set<nat>, stopping: bool)
    requires id in s.peers
    ensures
      GoesWith(s, id, c, live, stopping) <==>
        c in s.owners && s.owners[c] == id && (stopping || !Waiting(s, c) || !Alive(s, id, live))
  {
  }

  lemma CloseCases(s: State, id: nat, live: set<nat>, stopping: bool)
    requires id in s.peers
    ensures
      var t, d := s.(connections := s.connections - {id}), s.peers[id].client;
      Disconnect(s, id, live, stopping) ==
        if d == "" || d !in s.owners || s.owners[d] != id then t
        else if !stopping && Waiting(s, d) && Alive(s, id, live)
        then t.(peers := s.peers[id := s.peers[id].(connected := false)])
        else t.(model := R.Remove(s.model, d), owners := s.owners - {d})
  {
    hide Waiting;
    hide Alive;
    hide R.Remove;
  }

  // ---------------------------------------------------------------- ticks

  /** The owner is a connection that broke and whose process has died since. */
  ghost predicate Dead(s: State, c: string, live: set<nat>) {
    && c in s.owners && s.owners[c] in s.peers
    && !s.peers[s.owners[c]].connected && s.peers[s.owners[c]].process !in live
  }

  lemma DeadIs(s: State, c: string, live: set<nat>)
    requires Known(s)
    ensures Abandoned(s, c, live) <==> Dead(s, c, live)
  {
  }

  lemma DropTells(s: State, c: string, d: string, live: set<nat>)
    ensures
      var t := Drop(s, c);
      && t.peers == s.peers && t.owners == s.owners - {c} && t.model.members == s.model.members - {c}
      && (d != c ==> (Dead(t, d, live) <==> Dead(s, d, live)))
  {
    RemovedIs(s.model, c);
    hide R.Remove;
  }

  /** A client is gone after a round exactly when its owner was dead and was looked at. */
  lemma {:induction false} BuryTells(s: State, visit: seq<string>, live: set<nat>, c: string)
    requires Known(s)
    ensures
      var t := Bury(s, visit, live);
      var gone := c in visit && Dead(s, c, live);
      && (c in t.owners <==> c in s.owners && !gone) && (c in t.owners ==> t.owners[c] == s.owners[c])
      && (c in t.model.members <==> c in s.model.members && !gone)
      && (c in t.model.members ==> t.model.members[c] == s.model.members[c])
    decreases |visit|
  {
    hide R.Remove;
    hide Dead;
    hide Abandoned;
    if visit != [] {
      DeadIs(s, visit[0], live);
      BuryFirst(s, visit, live);
      DropTells(s, visit[0], c, live);
      var u := if Dead(s, visit[0], live) then Drop(s, visit[0]) else s;
      StillPeers(s, visit[0]);
      hide Known;
      hide Bury;
      hide Drop;
      assert c in visit <==> c == visit[0] || c in visit[1..];
      BuryTells(u, visit[1..], live, c);
      NotOwned(u, c, live);
    }
  }

  lemma BuryFirst(s: State, visit: seq<string>, live: set<nat>)
    requires Known(s) && visit != []
    ensures Known(Drop(s, visit[0]))
    ensures Bury(s, visit, live) == Bury(if Abandoned(s, visit[0], live) then Drop(s, visit[0]) else s, visit[1..], live)
  {
    StillPeers(s, visit[0]);
    hide Abandoned;
    hide Drop;
    hide Known;
  }

  lemma StillPeers(s: State, c: string)
    requires Known(s)
    ensures Known(Drop(s, c))
  {
    hide R.Remove;
  }

  lemma NotOwned(s: State, c: string, live: set<nat>)
    ensures c !in s.owners ==> !Dead(s, c, live)
  {
  }

  /**
   A tick that looks at every owner removes exactly the clients of dead ones, and their members; the
   coordinator then admits and may begin a host observation.
   */
  lemma TickTells(s: State, visit: seq<string>, now: R.Time, live: set<nat>, c: string)
    requires Inv(s) && Known(s) && R.Registered(Bury(s, visit, live).model)
    requires forall d <- s.owners :: d in visit
    ensures
      var t := Tick(s, visit, now, live);
      && t.peers == s.peers && t.connections == s.connections
      && (c in t.owners <==> c in s.owners && !Dead(s, c, live)) && (c in t.owners ==> t.owners[c] == s.owners[c])
      && (c in t.model.members <==> c in t.owners)
  {
    hide *;
    BuryTells(s, visit, live, c);
    NotOwned(s, c, live);
    TickIs(s, visit, now, live);
    TickKeeps(s, visit, now, live);
    OwnedAre(Tick(s, visit, now, live));
    SamePeers(s, visit, live);
  }

  lemma SamePeers(s: State, visit: seq<string>, live: set<nat>)
    requires Known(s)
    ensures Bury(s, visit, live).peers == s.peers && Bury(s, visit, live).connections == s.connections
  {
    hide Bury;
  }

  lemma OwnedAre(s: State)
    requires Inv(s)
    ensures forall c :: c in s.owners <==> c in s.model.members
  {
    hide R.Inv;
  }

  /** After the round the coordinator ticks, and then begins a host observation if one is due. */
  lemma TickRuns(s: State, visit: seq<string>, now: R.Time, live: set<nat>)
    requires Inv(s) && Known(s) && R.Registered(Bury(s, visit, live).model)
    ensures
      var m := Bury(s, visit, live).model;
      R.Inv(m) && Tick(s, visit, now, live).model == RT.Run(m, [RT.TickOp(now), RT.BeginOp(now)])
  {
    hide *;
    var m := Bury(s, visit, live).model;
    BuryKeeps(s, visit, live);
    ModelIsSound(Bury(s, visit, live));
    TickIs(s, visit, now, live);
    RunOfTwo(m, RT.TickOp(now), RT.BeginOp(now));
    RT.StepIs(m, RT.TickOp(now));
    RT.StepIs(RT.Step(m, RT.TickOp(now)), RT.BeginOp(now));
  }

  lemma RunOfOne(m: R.State, a: RT.Op)
    requires R.Inv(m)
    ensures R.Registered(m) && RT.Run(m, [a]) == RT.Step(m, a)
  {
    hide R.Inv;
    hide R.Registered;
    hide RT.Step;
    RT.StepKeeps(m, a);
    assert [a][1..] == [];
  }

  lemma RunOfTwo(m: R.State, a: RT.Op, b: RT.Op)
    requires R.Inv(m)
    ensures R.Registered(m) && R.Registered(RT.Step(m, a))
    ensures RT.Run(m, [a, b]) == RT.Step(RT.Step(m, a), b)
  {
    hide R.Inv;
    hide R.Registered;
    hide RT.Step;
    RT.StepKeeps(m, a);
    RunOfOne(RT.Step(m, a), b);
    assert [a, b][1..] == [b];
  }
}
