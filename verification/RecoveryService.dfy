/**
 The recovery service as the source runs it: handlers, a ticker and finished probes updating the
 coordinator, the connections and the owners behind one lock.

 `State` reads the object's fields, and those of the coordinator it owns, as a state of
 RecoveryServer.dfy; every handler is proved to be the step of that state it stands for.
 */
module RecoveryService {
  import opened Wrappers
  import R = Recovery
  import RO = RecoveryObject
  import S = RecoveryServer

  class RecoveryService {
    const model: RO.SessionRecovery
    var peers: map<nat, S.Peer>
    var connections: set<nat>
    var owners: map<string, nat>

    ghost function State(): S.State
      reads this, model
    {
      S.State(model.State(), peers, connections, owners)
    }

    constructor ()
      ensures State() == S.NEW_SERVER && fresh(model)
    {
      model := new RO.SessionRecovery();
      peers, connections, owners := map[], {}, map[];
    }

    method Accept(id: nat, pid: nat, process: nat)
      modifies `peers, `connections
      ensures State() == S.Accept(old(State()), id, pid, process)
    {
      if id !in peers {
        peers := peers[id := S.Peer(pid, process, true, "")];
        connections := connections + {id};
      }
    }

    method Serve(id: nat, frame: S.Frame, now: R.Time, live: set<nat>) returns (answer: S.Answer)
      requires S.Known(State()) && id in peers && R.Registered(State().model)
      modifies model, `peers, `owners
      ensures (State(), answer) == S.Handle(old(State()), id, frame, now, live)
    {
      hide *;
      ghost var s := State();
      Fields();
      HandleIs(s, id, frame, now, live);
      if !frame.known {
        return S.Failed("recovery protocol/transport mismatch");
      }
      if frame.request.None? {
        return S.Status;
      }
      var r := frame.request.value;
      var refusal := Refuse(id, if frame.leave then r.(event := R.NoEvent) else r, live);
      if refusal.Some? {
        return S.Failed(refusal.value);
      }
      TakeOverIs(s, id, r.client);
      if r.client in owners && owners[r.client] != id {
        Own(id, r.client);
      }
      Fields();
      if frame.leave {
        DepartIs(State(), id, r.client);
        Drop(r.client);
        Fields();
        peers := peers[id := peers[id].(client := "")];
        Fields();
        return S.Left;
      }
      ghost var t := State();
      var reply := model.Exchange(r, now);
      Fields();
      if reply.Err? {
        return S.Failed(reply.error);
      }
      Own(id, r.client);
      return S.Answered(reply.value);
    }

    method Refuse(id: nat, r: R.Request, live: set<nat>) returns (refusal: Option<string>)
      requires S.Known(State()) && id in peers
      ensures refusal == S.Refusal(State(), id, r, live)
    {
      hide *;
      Fields();
      RefusalIs(State(), id, r, live);
      if !R.ValidRequest(r) {
        return Some("invalid recovery identity");
      }
      if peers[id].client != "" && peers[id].client != r.client {
        return Some("connection client changed");
      }
      if r.client in model.members && !R.SameIdentity(model.members[r.client], r) {
        return Some("recovery client identity changed");
      }
      if r.client in owners && owners[r.client] != id {
        var owner := peers[owners[r.client]];
        if owner.connected || owner.pid != peers[id].pid || owner.process !in live {
          return Some("client belongs to another live process/connection");
        }
      }
      return None;
    }

    method Own(id: nat, client: string)
      requires id in peers
      modifies `peers, `owners
      ensures id in old(State()).peers && State() == S.Own(old(State()), id, client)
    {
      hide *;
      Fields();
      OwnIs(State(), id, client);
      owners := owners[client := id];
      peers := peers[id := peers[id].(client := client)];
      Fields();
    }

    method Drop(client: string)
      modifies model, `owners
      ensures State() == S.Drop(old(State()), client)
    {
      hide *;
      Fields();
      DropIs(State(), client);
      owners := owners - {client};
      model.Remove(client);
      Fields();
    }

    method Close(id: nat, live: set<nat>, stopping: bool)
      requires id in peers
      modifies model, `peers, `owners, `connections
      ensures id in old(State()).peers && State() == S.Disconnect(old(State()), id, live, stopping)
    {
      hide *;
      Fields();
      CloseIs(State(), id, live, stopping);
      connections := connections - {id};
      Fields();
      var c := peers[id].client;
      if c != "" && c in owners && owners[c] == id {
        var waits := c in model.members && model.members[c].active != "" && !model.members[c].ready;
        if !stopping && waits && peers[id].process in live {
          peers := peers[id := peers[id].(connected := false)];
          Fields();
        } else {
          Drop(c);
        }
      }
    }

    /** Removes the owners that died while away, visiting each once in any order. */
    method BuryDead(live: set<nat>) returns (ghost visit: seq<string>)
      requires S.Inv(State())
      modifies model, `owners
      ensures OnRound(old(State()), State(), visit, {}, live)
    {
      hide *;
      ghost var start := State();
      Fields();
      visit := [];
      var rest := owners.Keys;
      RoundStarts(start, live);
      while rest != {}
        invariant OnRound(start, State(), visit, rest, live)
      {
        var c :| c in rest;
        RoundStep(start, State(), visit, rest, c, live);
        Fields();
        AbandonedIs(State(), c, live);
        rest := rest - {c};
        visit := visit + [c];
        if c in owners && !peers[owners[c]].connected && peers[owners[c]].process !in live {
          Drop(c);
        }
      }
    }

    method Tick(now: R.Time, live: set<nat>) returns (ghost visit: seq<string>)
      requires S.Inv(State())
      modifies model, `owners
      ensures S.Known(old(State())) && R.Registered(S.Bury(old(State()), visit, live).model)
      ensures State() == S.Tick(old(State()), visit, now, live) && S.Inv(State())
      ensures |visit| == |old(State()).owners.Keys| && forall c :: c in visit <==> c in old(State()).owners
    {
      hide *;
      ghost var start := State();
      visit := BuryDead(live);
      RoundEnds(start, State(), visit, now, live);
      Fields();
      model.Admit(now);
      var number, started := model.BeginProbe(now);
      Fields();
      S.TickKeeps(start, visit, now, live);
    }

    method ProbeEnded(number: nat, now: R.Time, observation: Result<R.Inventory, string>)
      requires R.Registered(State().model)
      modifies model
      ensures R.Registered(old(State()).model)
      ensures
        State() == old(State()).(model := R.FinishProbe(old(State()).model, number, now, observation).state)
    {
      hide *;
      Fields();
      model.FinishProbe(number, now, observation);
      Fields();
    }

    lemma Fields()
      ensures State() == S.State(model.State(), peers, connections, owners)
      ensures model.State().members == model.members
    {
    }
  }

  // ---------------------------------------------------------------- the specification, case by case

  lemma HandleIs(s: S.State, id: nat, frame: S.Frame, now: R.Time, live: set<nat>)
    requires S.Known(s) && id in s.peers && R.Registered(s.model)
    ensures frame.request.Some? ==>
      var t := S.TakeOver(s, id, frame.request.value.client);
      id in t.peers && t.model == s.model
    ensures
      S.Handle(s, id, frame, now, live) ==
      if !frame.known then (s, S.Failed("recovery protocol/transport mismatch"))
      else if frame.request.None? then (s, S.Status)
      else
        var r := frame.request.value;
        var refusal := S.Refusal(s, id, if frame.leave then r.(event := R.NoEvent) else r, live);
        if refusal.Some? then (s, S.Failed(refusal.value))
        else
          var t := S.TakeOver(s, id, r.client);
          if frame.leave then (S.Depart(t, id, r.client), S.Left)
          else
            var (model, reply) := R.Exchange(t.model, r, now);
            if reply.Err? then (t.(model := model), S.Failed(reply.error))
            else (S.Own(t.(model := model), id, r.client), S.Answered(reply.value))
  {
    if frame.request.Some? {
      TakeOverIs(s, id, frame.request.value.client);
    }
    hide S.Refusal;
    hide S.TakeOver;
    hide S.Depart;
    hide S.Own;
    hide S.Known;
    hide R.Exchange;
    hide R.Registered;
  }

  lemma TakeOverIs(s: S.State, id: nat, client: string)
    requires id in s.peers
    ensures
      var t := S.TakeOver(s, id, client);
      && t == (if client in s.owners && s.owners[client] != id then S.Own(s, id, client) else s)
      && id in t.peers && t.model == s.model
  {
  }

  lemma OwnIs(s: S.State, id: nat, client: string)
    requires id in s.peers
    ensures
      S.Own(s, id, client) == s.(owners := s.owners[client := id], peers := s.peers[id := s.peers[id].(client := client)])
  {
  }

  lemma DropIs(s: S.State, client: string)
    ensures S.Drop(s, client) == s.(model := R.Remove(s.model, client), owners := s.owners - {client})
  {
    hide R.Remove;
  }

  lemma DepartIs(s: S.State, id: nat, client: string)
    requires id in s.peers
    ensures
      var t := S.Drop(s, client);
      t.peers == s.peers && S.Depart(s, id, client) == t.(peers := s.peers[id := s.peers[id].(client := "")])
  {
    hide R.Remove;
  }

  lemma RefusalIs(s: S.State, id: nat, r: R.Request, live: set<nat>)
    requires S.Known(s) && id in s.peers
    ensures forall c <- s.owners :: s.owners[c] in s.peers
    ensures
      S.Refusal(s, id, r, live) ==
      if !R.ValidRequest(r) then Some("invalid recovery identity")
      else if s.peers[id].client != "" && s.peers[id].client != r.client then Some("connection client changed")
      else if r.client in s.model.members && !R.SameIdentity(s.model.members[r.client], r)
      then Some("recovery client identity changed")
      else if
        && r.client in s.owners && s.owners[r.client] != id
        && (s.peers[s.owners[r.client]].connected || s.peers[s.owners[r.client]].pid != s.peers[id].pid
            || s.peers[s.owners[r.client]].process !in live)
      then Some("client belongs to another live process/connection")
      else None
  {
    hide R.ValidRequest;
    hide R.SameIdentity;
  }

  lemma CloseIs(s: S.State, id: nat, live: set<nat>, stopping: bool)
    requires id in s.peers
    ensures
      var t, c := s.(connections := s.connections - {id}), s.peers[id].client;
      S.Disconnect(s, id, live, stopping) ==
        if c == "" || c !in s.owners || s.owners[c] != id then t
        else if !stopping && c in s.model.members && s.model.members[c].active != "" && !s.model.members[c].ready
                && s.peers[id].process in live
        then t.(peers := s.peers[id := s.peers[id].(connected := false)])
        else S.Drop(t, c)
  {
    hide S.Drop;
  }

  lemma AbandonedIs(s: S.State, c: string, live: set<nat>)
    requires S.Known(s)
    ensures c in s.owners ==> s.owners[c] in s.peers
    ensures S.Abandoned(s, c, live) <==>
      c in s.owners && !s.peers[s.owners[c]].connected && s.peers[s.owners[c]].process !in live
  {
  }

  // ---------------------------------------------------------------- a round of the ticker

  /** The owners in `visit` have been looked at, those in `rest` have not. */
  ghost predicate OnRound(start: S.State, s: S.State, visit: seq<string>, rest: set<string>, live: set<nat>) {
    && S.Known(start) && s == S.Bury(start, visit, live) && S.Inv(s)
    && |visit| + |rest| == |start.owners.Keys|
    && (forall c :: c in start.owners <==> c in visit || c in rest)
    && (forall c :: c in visit ==> c !in rest)
  }

  lemma RoundStarts(s: S.State, live: set<nat>)
    requires S.Inv(s)
    ensures OnRound(s, s, [], s.owners.Keys, live)
  {
    hide *;
    S.SoundServer(s);
    NoneBuried(s, live);
    FirstRound(s, live);
  }

  lemma FirstRound(s: S.State, live: set<nat>)
    requires S.Known(s) && S.Bury(s, [], live) == s && S.Inv(s)
    ensures OnRound(s, s, [], s.owners.Keys, live)
  {
    hide S.Inv;
    hide S.Known;
    hide S.Bury;
  }

  lemma RoundStep(start: S.State, s: S.State, visit: seq<string>, rest: set<string>, c: string, live: set<nat>)
    requires OnRound(start, s, visit, rest, live) && c in rest
    ensures S.Known(s)
    ensures OnRound(start, if S.Abandoned(s, c, live) then S.Drop(s, c) else s, visit + [c], rest - {c}, live)
  {
    hide S.Inv;
    hide S.Abandoned;
    hide S.Drop;
    hide S.Bury;
    KnownStill(s);
    S.DropKeeps(s, c);
    BuryOne(start, visit, c, live);
    hide S.Known;
  }

  lemma RoundEnds(start: S.State, s: S.State, visit: seq<string>, now: R.Time, live: set<nat>)
    requires OnRound(start, s, visit, {}, live)
    ensures R.Registered(s.model) && S.Known(start) && s == S.Bury(start, visit, live)
    ensures S.Tick(start, visit, now, live) == s.(model := R.BeginProbe(R.Admit(s.model, now).state, now).0)
    ensures |visit| == |start.owners.Keys| && forall c :: c in visit <==> c in start.owners
  {
    S.ModelIsSound(s);
    R.InvFacts(s.model);
    hide S.Inv;
    hide S.Known;
    hide S.Bury;
    S.TickIs(start, visit, now, live);
  }

  lemma NoneBuried(s: S.State, live: set<nat>)
    requires S.Known(s)
    ensures S.Bury(s, [], live) == s
  {
  }

  lemma KnownStill(s: S.State)
    requires S.Inv(s)
    ensures S.Known(s)
  {
    S.SoundServer(s);
  }

  lemma {:induction false} BuryOne(s: S.State, visit: seq<string>, c: string, live: set<nat>)
    requires S.Known(s)
    ensures
      var t := S.Bury(s, visit, live);
      S.Bury(s, visit + [c], live) == if S.Abandoned(t, c, live) then S.Drop(t, c) else t
    decreases |visit|
  {
    hide S.Abandoned;
    hide S.Drop;
    if visit == [] {
      assert [] + [c] == [c] && [c][1..] == [];
      assert [c][0] == c;
      BuryStep(s, c, live);
    } else {
      assert (visit + [c])[1..] == visit[1..] + [c];
      StillKnown(s, visit[0]);
      BuryOne(if S.Abandoned(s, visit[0], live) then S.Drop(s, visit[0]) else s, visit[1..], c, live);
    }
  }

  lemma StillKnown(s: S.State, c: string)
    requires S.Known(s)
    ensures S.Known(S.Drop(s, c))
  {
    hide R.Remove;
  }

  lemma BuryStep(s: S.State, c: string, live: set<nat>)
    requires S.Known(s)
    ensures S.Bury(s, [c], live) == if S.Abandoned(s, c, live) then S.Drop(s, c) else s
  {
    StillKnown(s, c);
    hide S.Abandoned;
    hide S.Drop;
    var t := if S.Abandoned(s, c, live) then S.Drop(s, c) else s;
    assert [c][1..] == [];
    NoneBuried(t, live);
  }
}
