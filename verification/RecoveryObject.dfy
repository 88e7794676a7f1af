/**
 The reconnect coordinator as the source runs it: fields updated in place, a queue that is
 rotated, and loops over members in any order.  Every method is proved to perform exactly the
 operation of Recovery.dfy on the state the object holds.
 */
module RecoveryObject {
  import opened Wrappers
  import R = Recovery
  import RT = RecoveryTheorems

  class SessionRecovery {
    var members: map<string, R.Member>
    var order: seq<string>
    var sessions: map<string, R.Retry>
    var available: bool
    var checking: bool
    var wanted: bool
    var reason: string
    var nextProbe: R.Time
    var lastProbe: R.Time
    var failures: nat
    var sequence: nat
    var observing: map<string, nat>
    var inventory: map<string, string>
    var births: nat

    function State(): R.State
      reads this
    {
      R.State(members, order, sessions, available, checking, wanted, reason, nextProbe, lastProbe,
              failures, sequence, observing, inventory, births)
    }

    constructor ()
      ensures State() == R.NEW_STATE
    {
      members, order, sessions := map[], [], map[];
      available, checking, wanted, reason := false, false, false, "Waiting for host observation";
      nextProbe, lastProbe, failures, sequence := R.ZERO_TIME, R.ZERO_TIME, 0, 0;
      observing, inventory, births := map[], map[], 0;
    }

    method RequestProbe(now: R.Time)
      modifies this
      ensures State() == R.RequestProbe(old(State()), now)
    {
      hide R.Registered;
      if checking {
        return;
      }
      wanted := true;
      if !checking {
        var due := now;
        var floor := lastProbe + R.SECOND;
        if due < floor {
          due := floor;
        }
        if nextProbe == R.ZERO_TIME || due < nextProbe {
          nextProbe := due;
        }
      }
    }

    /** Whether some member is neither attached nor ended. */
    method AnyWaiting() returns (waiting: bool)
      ensures waiting <==> !R.Settled(members)
    {
      waiting := false;
      var rest := members.Keys;
      while rest != {} && !waiting
        invariant rest <= members.Keys
        invariant waiting <==> exists c <- members.Keys - rest :: !members[c].ready && !members[c].ended
        decreases |rest|, !waiting
      {
        var c :| c in rest;
        rest := rest - {c};
        if !members[c].ready && !members[c].ended {
          waiting := true;
        }
      }
    }

    /** The registrations a probe started now observes. */
    method ObserveAll() returns (births: map<string, nat>)
      ensures births == R.Births(members)
    {
      births := map[];
      var rest := members.Keys;
      while rest != {}
        invariant rest <= members.Keys && births.Keys == members.Keys - rest
        invariant forall c <- births :: births[c] == members[c].birth
      {
        var c :| c in rest;
        rest := rest - {c};
        births := births[c := members[c].birth];
      }
    }

    method BeginProbe(now: R.Time) returns (number: nat, started: bool)
      modifies this
      ensures (State(), if started then Some(number) else None) == R.BeginProbe(old(State()), now)
    {
      hide *;
      Fields();
      BeginProbeCases(State(), now);
      if checking || |members| == 0 || now < nextProbe {
        return 0, false;
      }
      var waiting := AnyWaiting();
      if !wanted && !waiting {
        return 0, false;
      }
      checking, wanted, lastProbe, sequence := true, false, now, sequence + 1;
      observing := ObserveAll();
      Fields();
      return sequence, true;
    }

    method Expire(now: R.Time)
      modifies this
      ensures State() == R.Expire(old(State()), now)
    {
      ghost var before := members;
      var rest := members.Keys;
      Fields();
      ExpiredEnds(State(), now);
      hide *;
      while rest != {}
        invariant rest <= before.Keys && members == Expired(before, rest, now)
        invariant State() == old(State()).(members := members)
      {
        Fields();
        var c :| c in rest;
        ExpiredOne(before, rest, c, now);
        rest := rest - {c};
        var m := members[c];
        if m.active != "" && !m.ready && now >= m.deadline {
          members := members[c := m.(reset := true)];
        }
        Fields();
      }
      Fields();
    }

    /** The attempt is over: it is retired and its session backs off. */
    method Fail(c: string, now: R.Time)
      requires c in members && members[c].sessionID in sessions
      modifies this
      ensures State() == R.Fail(old(State()), c, now)
    {
      hide R.Registered;
      hide R.RecoveryDelay;
      var m := members[c];
      members := members[c := m.(retired := m.active, active := "", ready := false, reset := false)];
      var retry := sessions[m.sessionID];
      var at := now + R.RecoveryDelay(retry.failures);
      sessions := sessions[m.sessionID := R.Retry(R.Min(retry.failures + 1, 6), at)];
    }

    /** The pending grants and the sessions they are for. */
    method CountPending() returns (pending: nat, busy: set<string>)
      ensures pending == |R.PendingClients(State())| && busy == R.BusySessions(State())
    {
      ghost var seen: set<string> := {};
      var rest := members.Keys;
      pending, busy := 0, {};
      while rest != {}
        invariant rest <= members.Keys && pending == |seen|
        invariant forall c :: c in seen <==> c in members && c !in rest && R.Pending(members[c])
        invariant forall id :: id in busy <==> exists c <- seen :: members[c].sessionID == id
      {
        var c :| c in rest;
        rest := rest - {c};
        var m := members[c];
        if m.active != "" && !m.ready {
          pending := pending + 1;
          busy := busy + {m.sessionID};
          seen := seen + {c};
        }
      }
      assert seen == R.PendingClients(State());
    }

    /** The member at the head of the queue moves to the tail and gets a grant unless something blocks it. */
    method Turn(busy: set<string>, now: R.Time) returns (granted: bool)
      requires R.Registered(State()) && order != []
      modifies this
      ensures State() == R.ScanTurn(old(State()), busy, now).state
      ensures granted <==> R.ScanTurn(old(State()), busy, now).admitted != []
    {
      var c := order[0];
      order := order[1..] + [c];
      var m := members[c];
      var retry := sessions[m.sessionID];
      hide R.Registered;
      if m.ended || m.reset || m.active != "" || m.proposed == m.retired || m.sessionID in busy
         || now < retry.at || (if m.session in inventory then inventory[m.session] else "") != m.sessionID
      {
        return false;
      }
      members := members[c := m.(active := m.proposed, deadline := now + 15 * R.SECOND)];
      return true;
    }

    method Admit(now: R.Time)
      requires R.Registered(State())
      modifies this
      ensures State() == R.Admit(old(State()), now).state
    {
      hide *;
      Fields();
      AdmitCases(State(), now);
      Expire(now);
      Fields();
      if !available {
        return;
      }
      var pending, busy := CountPending();
      var n := |order|;
      var i := 0;
      ghost var goal := R.AdmitScan(State(), n, pending, busy, now).state;
      while i < n && pending < 2
        invariant i <= n == |State().order| && R.Registered(State())
        invariant R.AdmitScan(State(), n - i, pending, busy, now).state == goal
      {
        Fields();
        ScanStep(State(), n - i, pending, busy, now);
        var id := members[order[0]].sessionID;
        var granted := Turn(busy, now);
        if granted {
          pending := pending + 1;
          busy := busy + {id};
        }
        i := i + 1;
      }
      ScanDone(State(), n - i, pending, busy, now);
    }

    /** Ends the observed members the inventory does not show. */
    method EndMissing(inventory: map<string, string>)
      modifies `members
      ensures members == R.EndAbsent(old(State()), inventory)
    {
      ghost var s := State();
      var rest := observing.Keys;
      EndedEnds(s, inventory);
      hide *;
      Fields();
      while rest != {}
        invariant rest <= observing.Keys && members == Ended(s, rest, inventory)
      {
        var c :| c in rest;
        EndedOne(s, rest, c, inventory);
        rest := rest - {c};
        if c in members && members[c].birth == observing[c] && R.Absent(members[c], inventory) {
          members := members[c := R.EndMember(members[c])];
        }
      }
    }

    /** Whether the inventory lacks a member that has not ended. */
    method AnyMissing() returns (missing: bool)
      ensures missing <==> R.Missing(members, inventory)
    {
      missing := false;
      var rest := members.Keys;
      hide R.Absent;
      while rest != {} && !missing
        invariant rest <= members.Keys
        invariant missing <==> exists c <- members.Keys - rest :: !members[c].ended && R.Absent(members[c], inventory)
        decreases |rest|, !missing
      {
        var c :| c in rest;
        rest := rest - {c};
        if !members[c].ended && R.Absent(members[c], inventory) {
          missing := true;
        }
      }
    }

    method EndObservation()
      modifies this
      ensures State() == old(State()).(checking := false, observing := map[])
    {
      checking, observing := false, map[];
    }

    method Adopt(ids: map<string, string>, now: R.Time)
      modifies this
      ensures State() == old(State()).(
        available := true, failures := 0, reason := "Waiting for attachment admission",
        inventory := ids, nextProbe := now + 30 * R.SECOND)
    {
      available, failures, reason := true, 0, "Waiting for attachment admission";
      inventory, nextProbe := ids, now + 30 * R.SECOND;
    }

    method NoteFailure(error: string, now: R.Time)
      modifies this
      ensures State() == R.FailedProbe(old(State()), now, error)
    {
      hide *;
      Fields();
      FailedIs(State(), now, error);
      EndObservation();
      Fields();
      available := false;
      reason := "Host observation unavailable: " + error;
      nextProbe := now + R.RecoveryDelay(failures);
      failures := R.Min(failures + 1, 6);
      Fields();
    }

    method NoteInventory(ids: map<string, string>, now: R.Time)
      modifies this
      ensures State() == AfterObservation(old(State()), ids, now)
    {
      hide *;
      ghost var s := State();
      AfterObservationIs(s, ids, now);
      TakeInventory(ids, now);
      Fields();
      var missing := AnyMissing();
      if missing {
        RequestProbe(now);
      }
    }

    method TakeInventory(ids: map<string, string>, now: R.Time)
      modifies this
      ensures State() == old(State()).(
        checking := false, available := true, failures := 0,
        reason := "Waiting for attachment admission", inventory := ids,
        nextProbe := now + 30 * R.SECOND, members := R.EndAbsent(old(State()), ids), observing := map[])
    {
      hide *;
      Fields();
      EndMissing(ids);
      Fields();
      EndObservation();
      Fields();
      Adopt(ids, now);
    }

    method FinishProbe(number: nat, now: R.Time, observation: Result<R.Inventory, string>)
      requires R.Registered(State())
      modifies this
      ensures State() == R.FinishProbe(old(State()), number, now, observation).state
    {
      hide *;
      Fields();
      FinishCases(State(), number, now, observation);
      if !checking || number != sequence {
        return;
      }
      match observation
      case Err(error) => NoteFailure(error, now);
      case Ok(inventory) =>
        if !R.ValidInventory(inventory) {
          NoteFailure(R.INVALID_INVENTORY, now);
        } else {
          NoteInventory(inventory.ids.value, now);
          Admit(now);
        }
    }

    method Reply(c: string, now: R.Time, reset: bool) returns (reply: R.Reply)
      requires c in members
      ensures reply == R.MakeReply(State(), c, now, reset)
    {
      hide *;
      Fields();
      ReplyIs(State(), c, now, reset);
      var m := members[c];
      var pending := m.active != "" && !m.ready;
      var shown, retryAt, grant := reason, R.ZERO_TIME, None;
      var cancel := if m.reset && pending then m.active else "";
      if !available || checking {
        retryAt := nextProbe;
      }
      if m.sessionID in sessions && now < sessions[m.sessionID].at {
        retryAt := sessions[m.sessionID].at;
        shown := "Attachment failed; waiting for session backoff";
      }
      if !reset && !m.ended && pending {
        grant := Some(R.Grant(m.active, m.deadline));
      }
      reply := R.Reply(checking, shown, retryAt, grant, m.ended, reset, cancel);
    }

    /** Takes a client out of the queue. */
    method Unqueue(c: string)
      modifies `order
      ensures order == R.Without(old(order), c)
    {
      var i := 0;
      while i < |order| && order[i] != c
        invariant i <= |order| && c !in order[..i]
      {
        i := i + 1;
      }
      FirstWithout(order, c, i);
      if i < |order| {
        order := order[..i] + order[i + 1..];
      }
    }

    method SessionShared(id: string) returns (shared: bool)
      ensures shared <==> exists d <- members :: members[d].sessionID == id
    {
      shared := false;
      var rest := members.Keys;
      while rest != {} && !shared
        invariant rest <= members.Keys
        invariant shared <==> exists d <- members.Keys - rest :: members[d].sessionID == id
        decreases |rest|, !shared
      {
        var d :| d in rest;
        rest := rest - {d};
        if members[d].sessionID == id {
          shared := true;
        }
      }
    }

    method Remove(c: string)
      modifies this
      ensures State() == R.Remove(old(State()), c)
    {
      hide R.Without;
      if c !in members {
        return;
      }
      var id := members[c].sessionID;
      members := members - {c};
      Unqueue(c);
      var shared := SessionShared(id);
      if !shared {
        sessions := sessions - {id};
      }
    }

    method TokenInUse(token: string) returns (taken: bool)
      ensures taken <==> R.TokenTaken(State(), token)
    {
      taken := false;
      var rest := members.Keys;
      while rest != {} && !taken
        invariant rest <= members.Keys
        invariant taken <==> exists c <- members.Keys - rest :: members[c].token == token
        decreases |rest|, !taken
      {
        var c :| c in rest;
        rest := rest - {c};
        if members[c].token == token {
          taken := true;
        }
      }
    }

    method Enter(c: string, m: R.Member, retries: map<string, R.Retry>)
      modifies this
      ensures State() == old(State()).(
        members := old(members)[c := m], order := old(order) + [c], sessions := retries, births := old(births) + 1)
    {
      members, order, sessions, births := members[c := m], order + [c], retries, births + 1;
    }

    /** A caller seen for the first time joins the queue. */
    method Join(r: R.Request, now: R.Time)
      requires r.client !in members
      modifies this
      ensures State() == R.Register(old(State()), r, now)
    {
      hide *;
      Fields();
      RegisterIs(State(), r, now);
      NewMemberIs(State(), r);
      var m := R.Member(r.token, r.session, r.sessionID, births, r.attempt, "", "", R.ZERO_TIME, false, false, false);
      if r.state == R.Ready {
        m := m.(ready := true, active := r.attempt);
      }
      if r.state == R.Connecting || (r.event != R.NoEvent && r.state != R.Ready) {
        m := m.(reset := true, retired := r.attempt);
      }
      var retries := if r.sessionID in sessions then sessions else sessions[r.sessionID := R.Retry(0, R.ZERO_TIME)];
      Enter(r.client, m, retries);
      RequestProbe(now);
    }

    /** Applies the caller's report; tells whether the caller must resynchronize instead. */
    method Report(r: R.Request, now: R.Time) returns (resync: bool)
      requires R.Registered(State()) && r.client in members && members[r.client].sessionID == r.sessionID
      modifies this
      ensures
        var e := R.ApplyEvent(old(State()), r, now);
        State() == e.state && (resync <==> e.Resync?)
    {
      var m := members[r.client];
      assert m.sessionID in sessions;
      hide R.Registered;
      hide R.Fail;
      hide R.RequestProbe;
      if r.event != R.NoEvent {
        if r.event == R.LostEvent && r.attempt == m.retired {
          if m.active == "" {
            members := members[r.client := m.(reset := false)];
          }
        } else if r.attempt != m.active || m.active == "" {
          return true;
        } else if r.event == R.ReadyEvent {
          if !m.ready && (m.reset || now >= m.deadline) {
            return true;
          }
          members := members[r.client := m.(ready := true)];
          sessions := sessions[r.sessionID := R.Retry(0, R.ZERO_TIME)];
        } else {
          Fail(r.client, now);
          RequestProbe(now);
        }
      } else if m.active == "" && !m.reset && r.attempt != m.retired {
        members := members[r.client := m.(proposed := r.attempt)];
      }
      return false;
    }

    /** Refuses the caller, or makes it known; nothing changes for a refused caller. */
    method Identify(r: R.Request, now: R.Time) returns (refusal: Option<string>)
      requires R.Registered(State())
      modifies this
      ensures refusal.None? <==> Accepted(old(State()), r)
      ensures
        if refusal.None? then State() == R.Known(old(State()), r, now)
        else State() == old(State()) && refusal.value == Refusal(State(), r)
    {
      hide *;
      Fields();
      ghost var s := State();
      AcceptedIs(s, r);
      RefusalIs(s, r);
      if !R.ValidRequest(r) {
        return Some("invalid recovery identity or state");
      }
      if r.client !in members {
        var taken := TokenInUse(r.token);
        if taken {
          return Some("projection token already registered");
        }
        Join(r, now);
      } else if !R.SameIdentity(members[r.client], r) {
        return Some("recovery client identity changed");
      }
      if r.retry {
        RequestProbe(now);
      }
      Expire(now);
      KnownCases(s, r, now);
      return None;
    }

    /** A child the coordinator does not know about blocks its member until it is accounted for. */
    method Note(r: R.Request)
      requires r.client in members
      modifies `members
      ensures State() == R.NoteConnecting(old(State()), r)
    {
      hide R.Registered;
      var m := members[r.client];
      if r.state == R.Connecting && m.active != r.attempt && r.attempt != m.retired {
        members := members[r.client := m.(reset := true)];
      }
    }

    method Exchange(r: R.Request, now: R.Time) returns (result: Result<R.Reply, string>)
      requires R.Registered(State())
      modifies this
      ensures (State(), result) == R.Exchange(old(State()), r, now)
    {
      hide *;
      ghost var s := State();
      var refusal := Identify(r, now);
      if refusal.Some? {
        RefusedCases(s, r, now);
        return Err(refusal.value);
      }
      Fields();
      AcceptedIs(s, r);
      KnownCases(s, r, now);
      ExchangeCases(s, r, now);
      var m := members[r.client];
      if m.active != "" && r.attempt != m.active {
        var stale := Reply(r.client, now, true);
        return Ok(stale);
      }
      EventCases(s, r, now);
      var resync := Report(r, now);
      Fields();
      if resync {
        var stale := Reply(r.client, now, true);
        return Ok(stale);
      }
      Note(r);
      Admit(now);
      Fields();
      m := members[r.client];
      var reply := Reply(r.client, now, m.reset || r.attempt == m.retired);
      return Ok(reply);
    }

    lemma Fields()
      ensures State() == R.State(
        members, order, sessions, available, checking, wanted, reason, nextProbe, lastProbe,
        failures, sequence, observing, inventory, births)
    {
    }
  }

  ghost function Expired(members: map<string, R.Member>, rest: set<string>, now: R.Time): map<string, R.Member> {
    map c <- members :: if c in rest then members[c] else R.ExpireMember(members[c], now)
  }

  lemma ExpiredOne(members: map<string, R.Member>, rest: set<string>, c: string, now: R.Time)
    requires c in members && c in rest
    ensures
      var before := Expired(members, rest, now);
      var m := members[c];
      && c in before && before[c] == m
      && Expired(members, rest - {c}, now)
         == if m.active != "" && !m.ready && now >= m.deadline then before[c := m.(reset := true)] else before
  {
  }

  lemma ExpiredEnds(s: R.State, now: R.Time)
    ensures Expired(s.members, s.members.Keys, now) == s.members
    ensures R.Expire(s, now) == s.(members := Expired(s.members, {}, now))
  {
    assert R.Expire(s, now).members == Expired(s.members, {}, now);
  }

  lemma BeginProbeCases(s: R.State, now: R.Time)
    ensures
      R.BeginProbe(s, now) ==
      if s.checking || |s.members| == 0 || now < s.nextProbe || (!s.wanted && R.Settled(s.members)) then (s, None)
      else
        (s.(checking := true, wanted := false, lastProbe := now, sequence := s.sequence + 1,
            observing := R.Births(s.members)), Some(s.sequence + 1))
  {
  }

  lemma AdmitCases(s: R.State, now: R.Time)
    requires R.Registered(s)
    ensures
      var e := R.Expire(s, now);
      R.Admit(s, now).state ==
        if !e.available then e
        else R.AdmitScan(e, |e.order|, |R.PendingClients(e)|, R.BusySessions(e), now).state
  {
  }

  lemma ScanStep(s: R.State, fuel: nat, pending: nat, busy: set<string>, now: R.Time)
    requires R.Registered(s) && 0 < fuel <= |s.order| && pending < 2
    ensures
      var turn := R.ScanTurn(s, busy, now);
      && s.order[0] in s.members && |turn.admitted| <= 1
      && R.AdmitScan(s, fuel, pending, busy, now).state
         == R.AdmitScan(turn.state, fuel - 1, pending + |turn.admitted|,
                        if turn.admitted == [] then busy else busy + {s.members[s.order[0]].sessionID}, now).state
  {
  }

  lemma ScanDone(s: R.State, fuel: nat, pending: nat, busy: set<string>, now: R.Time)
    requires R.Registered(s) && fuel <= |s.order| && (fuel == 0 || pending >= 2)
    ensures R.AdmitScan(s, fuel, pending, busy, now).state == s
  {
  }

  /** The members when those observed in `rest` have not been looked at yet. */
  ghost function Ended(s: R.State, rest: set<string>, inventory: map<string, string>): map<string, R.Member> {
    map c <- s.members ::
      if c in s.observing && c !in rest && s.observing[c] == s.members[c].birth && R.Absent(s.members[c], inventory)
      then R.EndMember(s.members[c]) else s.members[c]
  }

  lemma EndedOne(s: R.State, rest: set<string>, c: string, inventory: map<string, string>)
    requires c in rest && c in s.observing
    ensures
      var before := Ended(s, rest, inventory);
      && (c in before <==> c in s.members)
      && Ended(s, rest - {c}, inventory)
         == if c in before && before[c].birth == s.observing[c] && R.Absent(before[c], inventory)
            then before[c := R.EndMember(before[c])] else before
  {
    hide R.Absent;
  }

  lemma EndedEnds(s: R.State, inventory: map<string, string>)
    ensures Ended(s, s.observing.Keys, inventory) == s.members
    ensures Ended(s, {}, inventory) == R.EndAbsent(s, inventory)
  {
  }

  lemma {:induction false} FirstWithout(order: seq<string>, c: string, i: nat)
    requires i <= |order| && c !in order[..i] && (i < |order| ==> order[i] == c)
    ensures R.Without(order, c) == if i < |order| then order[..i] + order[i + 1..] else order
  {
    if i == 0 {
      assert i < |order| ==> order[..0] + order[1..] == order[1..];
    } else {
      HeadKept(order, c, i);
      hide *;
      FirstWithout(order[1..], c, i - 1);
      Rejoined(order, i);
    }
  }

  lemma Rejoined(order: seq<string>, i: nat)
    requires 0 < i <= |order|
    ensures [order[0]] + order[1..] == order
    ensures i < |order| ==>
      [order[0]] + (order[1..][..i - 1] + order[1..][i..]) == order[..i] + order[i + 1..]
  {
  }

  lemma HeadKept(order: seq<string>, c: string, i: nat)
    requires 0 < i <= |order| && c !in order[..i]
    ensures R.Without(order, c) == [order[0]] + R.Without(order[1..], c)
    ensures c !in order[1..][..i - 1]
  {
    assert order[..i][0] == order[0];
    assert order[1..][..i - 1] == order[..i][1..];
  }

  /** The state a successful observation leaves, before anybody is admitted. */
  ghost function AfterObservation(s: R.State, ids: map<string, string>, now: R.Time): (t: R.State)
    ensures R.Registered(s) ==> R.Registered(t)
  {
    var t := s.(checking := false, available := true, failures := 0,
                reason := "Waiting for attachment admission", inventory := ids,
                nextProbe := now + 30 * R.SECOND, members := R.EndAbsent(s, ids), observing := map[]);
    if R.Missing(t.members, ids) then R.RequestProbe(t, now) else t
  }

  lemma AfterObservationIs(s: R.State, ids: map<string, string>, now: R.Time)
    ensures
      var t := s.(checking := false, available := true, failures := 0,
                  reason := "Waiting for attachment admission", inventory := ids,
                  nextProbe := now + 30 * R.SECOND, members := R.EndAbsent(s, ids), observing := map[]);
      AfterObservation(s, ids, now) == if R.Missing(t.members, ids) then R.RequestProbe(t, now) else t
  {
  }

  lemma FailedIs(s: R.State, now: R.Time, error: string)
    ensures R.FailedProbe(s, now, error) ==
      s.(checking := false, available := false, reason := "Host observation unavailable: " + error,
         nextProbe := now + R.RecoveryDelay(s.failures), failures := R.Min(s.failures + 1, 6), observing := map[])
  {
    hide R.RecoveryDelay;
    hide R.Min;
  }

  lemma RegisterIs(s: R.State, r: R.Request, now: R.Time)
    ensures R.Register(s, r, now) ==
      R.RequestProbe(
        s.(members := s.members[r.client := R.NewMember(s, r)], order := s.order + [r.client],
           sessions := if r.sessionID in s.sessions then s.sessions else s.sessions[r.sessionID := R.Retry(0, R.ZERO_TIME)],
           births := s.births + 1), now)
  {
    hide R.Registered;
    hide R.RequestProbe;
    hide R.NewMember;
  }

  lemma NewMemberIs(s: R.State, r: R.Request)
    ensures
      var blank := R.Member(r.token, r.session, r.sessionID, s.births, r.attempt, "", "", R.ZERO_TIME, false, false, false);
      var entered := if r.state == R.Ready then blank.(ready := true, active := r.attempt) else blank;
      R.NewMember(s, r) ==
        if r.state == R.Connecting || (r.event != R.NoEvent && r.state != R.Ready)
        then entered.(reset := true, retired := r.attempt) else entered
    ensures R.ZERO_TIME == 0
  {
  }

  lemma ReplyIs(s: R.State, c: string, now: R.Time, reset: bool)
    requires c in s.members
    ensures
      var m := s.members[c];
      var pending := m.active != "" && !m.ready;
      var backoff := m.sessionID in s.sessions && now < s.sessions[m.sessionID].at;
      R.MakeReply(s, c, now, reset) == R.Reply(
        s.checking,
        if backoff then "Attachment failed; waiting for session backoff" else s.reason,
        if backoff then s.sessions[m.sessionID].at
        else if !s.available || s.checking then s.nextProbe else R.ZERO_TIME,
        if !reset && !m.ended && pending then Some(R.Grant(m.active, m.deadline)) else None,
        m.ended, reset, if m.reset && pending then m.active else "")
  {
  }

  lemma FinishCases(s: R.State, number: nat, now: R.Time, observation: Result<R.Inventory, string>)
    requires R.Registered(s)
    ensures
      var f := R.FinishProbe(s, number, now, observation).state;
      var valid := observation.Ok? && R.ValidInventory(observation.value);
      && (!s.checking || number != s.sequence ==> f == s)
      && (s.checking && number == s.sequence && !valid ==>
            f == R.FailedProbe(s, now, if observation.Err? then observation.error else R.INVALID_INVENTORY))
      && (s.checking && number == s.sequence && valid ==>
            observation.value.ids.Some?
            && f == R.Admit(AfterObservation(s, observation.value.ids.value, now), now).state)
  {
    hide R.Registered;
    hide R.Admit;
    hide R.EndAbsent;
    hide R.Missing;
    hide R.RequestProbe;
    hide R.FailedProbe;
  }

  lemma KnownCases(s: R.State, r: R.Request, now: R.Time)
    requires R.Registered(s)
    ensures
      var k := if r.client in s.members then s else R.Register(s, r, now);
      R.Known(s, r, now) == R.Expire(if r.retry then R.RequestProbe(k, now) else k, now)
    ensures
      (r.client in s.members ==> R.SameIdentity(s.members[r.client], r)) ==>
        r.client in R.Known(s, r, now).members && R.Known(s, r, now).members[r.client].sessionID == r.sessionID
  {
    hide R.Registered;
    hide R.RequestProbe;
  }

  ghost predicate Accepted(s: R.State, r: R.Request) {
    && R.ValidRequest(r)
    && if r.client in s.members then R.SameIdentity(s.members[r.client], r) else !R.TokenTaken(s, r.token)
  }

  lemma AcceptedIs(s: R.State, r: R.Request)
    ensures Accepted(s, r) <==>
      && R.ValidRequest(r)
      && if r.client in s.members then R.SameIdentity(s.members[r.client], r) else !R.TokenTaken(s, r.token)
  {
  }

  ghost function Refusal(s: R.State, r: R.Request): string {
    if !R.ValidRequest(r) then "invalid recovery identity or state"
    else if r.client !in s.members then "projection token already registered"
    else "recovery client identity changed"
  }

  lemma RefusalIs(s: R.State, r: R.Request)
    ensures Refusal(s, r) ==
      if !R.ValidRequest(r) then "invalid recovery identity or state"
      else if r.client !in s.members then "projection token already registered"
      else "recovery client identity changed"
  {
  }

  lemma RefusedCases(s: R.State, r: R.Request, now: R.Time)
    requires R.Registered(s) && !Accepted(s, r)
    ensures
      R.Exchange(s, r, now) == (s, Err(Refusal(s, r)))
  {
    hide R.Registered;
    hide R.Known;
    hide R.TokenTaken;
  }

  lemma ExchangeCases(s: R.State, r: R.Request, now: R.Time)
    requires R.Registered(s) && Accepted(s, r)
    ensures
      var t := R.Known(s, r, now);
      && t.members[r.client].sessionID in t.sessions
      && (t.members[r.client].active != "" && r.attempt != t.members[r.client].active ==>
            R.Exchange(s, r, now) == (t, Ok(R.MakeReply(t, r.client, now, true))))
  {
    var t := R.Known(s, r, now);
    assert t.members[r.client].sessionID in t.sessions;
    hide R.Registered;
    hide R.Known;
    hide R.TokenTaken;
    hide R.ValidRequest;
    hide R.SameIdentity;
    hide R.MakeReply;
    hide R.ApplyEvent;
    hide R.NoteConnecting;
    hide R.Admit;
  }

  lemma EventCases(s: R.State, r: R.Request, now: R.Time)
    requires R.Registered(s) && Accepted(s, r)
    requires
      var m := R.Known(s, r, now).members[r.client];
      (m.active == "" || r.attempt == m.active) && m.sessionID in R.Known(s, r, now).sessions
    ensures
      var e := R.ApplyEvent(R.Known(s, r, now), r, now);
      && (e.Resync? ==> R.Exchange(s, r, now) == (e.state, Ok(R.MakeReply(e.state, r.client, now, true))))
      && (e.Proceed? ==>
            var v := R.Admit(R.NoteConnecting(e.state, r), now).state;
            && r.client in v.members
            && R.Exchange(s, r, now)
               == (v, Ok(R.MakeReply(v, r.client, now,
                                     v.members[r.client].reset || r.attempt == v.members[r.client].retired))))
  {
    hide R.Registered;
    hide R.Known;
    hide R.TokenTaken;
    hide R.ValidRequest;
    hide R.SameIdentity;
    hide R.MakeReply;
    hide R.ApplyEvent;
    hide R.NoteConnecting;
    hide R.Admit;
    var e := R.ApplyEvent(R.Known(s, r, now), r, now);
    if e.Proceed? {
      RT.AdmitKeys(R.NoteConnecting(e.state, r), now);
    }
  }
}
