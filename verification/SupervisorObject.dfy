/**
 The terminal's event loop as the source runs it: local variables shared by the cases of one
 loop, the input gate it shares with the reader, and a channel of input items between them.

 `State` reads the loop's variables as a state of Supervisor.dfy: the request under way, the
 items of the channel as one stretch of tagged bytes, the startup output by its size.  Every
 case of the loop is proved to be the step of that state it stands for.
 */
module SupervisorObject {
  import opened Wrappers
  import opened Bytes
  import R = Recovery
  import IG = InputGate
  import S = Supervisor
  import PS = PendingSlots
  import T = Terminals

  /** What the loop, or the reader beside it, reacts to. */
  datatype Event =
    | Ticked(now: R.Time, b: S.Boundary)
    | AdmissionPolled
    | Shown(data: Bytes, events: seq<bool>, drawn: bool, b: S.Boundary)
    | ChildDone(detached: bool)
    | Replied(a: S.Answer)
    | ItemReceived(written: bool, b: S.Boundary)
    | PasteAsked(origin: S.Origin, text: Bytes, written: bool)
    | Typed(keys: seq<IG.Key>, at: IG.Time)
    | PrefixChecked(at: IG.Time)
    | Cancelled

  class SessionSupervisor {
    const client: string
    const gate: IG.SessionInputGate
    var attempt: string
    var busy: bool
    var request: S.Message
    var retry: bool
    var reports: seq<S.Report>
    var child: Option<string>
    var holdsSlot: bool
    var grant: R.Grant
    var proved: bool
    var stopping: bool
    var startupOutput: Bytes
    var checking: bool
    var input: seq<IG.Item>
    var running: bool
    ghost var ready: bool
    var taken: nat
    ghost var opens: map<nat, S.Opening>

    ghost function State(): S.State
      reads this, gate
    {
      S.State(client, attempt, if busy then Some(request) else None, retry, reports, child, holdsSlot, ready,
              grant, proved, stopping, |startupOutput|, checking, gate.State(), IG.Flatten(input), taken, opens,
              running)
    }

    lemma Fields()
      ensures State() == S.State(
        client, attempt, if busy then Some(request) else None, retry, reports, child, holdsSlot, ready,
        grant, proved, stopping, |startupOutput|, checking, gate.State(), IG.Flatten(input), taken, opens, running)
      ensures gate.State().generation == gate.generation
    {
      hide IG.Flatten;
    }

    /** The reader sends no empty items. */
    ghost predicate Valid()
      reads this
    {
      IG.Filled(input)
    }

    constructor (client: string, attempt: string)
      ensures Valid() && State() == S.Started(client, attempt) && fresh(gate)
    {
      this.client, this.attempt := client, attempt;
      gate := new IG.SessionInputGate();
      busy, request, retry, reports := false, S.Message("", R.NoEvent, R.Offline, false), false, [];
      child, holdsSlot, grant := None, false, S.NO_GRANT;
      proved, stopping, startupOutput, checking := false, false, [], false;
      input, running := [], true;
      ready, taken, opens := false, 0, map[];
      new;
      Send();
    }

    function Phase(): (p: R.Phase)
      reads this, gate
      ensures p == S.Phase(State())
    {
      if gate.generation != 0 then R.Ready
      else if child.Some? then R.Connecting
      else if checking then R.Checking
      else R.Offline
    }

    method Send()
      modifies `busy, `request, `retry
      ensures State() == S.Send(old(State()))
    {
      hide *;
      Fields();
      SendIs(State());
      if busy {
        return;
      }
      var m := S.Message(attempt, R.NoEvent, Phase(), retry);
      if |reports| > 0 {
        m := m.(attempt := reports[0].attempt, event := reports[0].event);
      }
      BeginExchange(m);
      SetRetry(false);
    }

    // Assignments to the loop's variables, and what each does to the state they stand for.

    method SetRetry(v: bool)
      modifies `retry
      ensures retry == v && State() == old(State()).(retry := v)
    {
      hide *;
      Fields();
      retry := v;
      Fields();
    }

    method SetReports(v: seq<S.Report>)
      modifies `reports
      ensures reports == v && State() == old(State()).(reports := v)
    {
      hide *;
      Fields();
      reports := v;
      Fields();
    }

    method SetChild(v: Option<string>)
      modifies `child
      ensures child == v && State() == old(State()).(child := v)
    {
      hide *;
      Fields();
      child := v;
      Fields();
    }

    method SetSlot(v: bool)
      modifies `holdsSlot
      ensures holdsSlot == v && State() == old(State()).(slot := v)
    {
      hide *;
      Fields();
      holdsSlot := v;
      Fields();
    }

    method SetReady(v: bool)
      modifies `ready
      ensures ready == v && State() == old(State()).(ready := v)
    {
      hide *;
      Fields();
      ready := v;
      Fields();
    }

    method SetGrant(v: R.Grant)
      modifies `grant
      ensures grant == v && State() == old(State()).(grant := v)
    {
      hide *;
      Fields();
      grant := v;
      Fields();
    }

    method SetAttempt(v: string)
      modifies `attempt
      ensures attempt == v && State() == old(State()).(attempt := v)
    {
      hide *;
      Fields();
      attempt := v;
      Fields();
    }

    method SetProved(v: bool)
      modifies `proved
      ensures proved == v && State() == old(State()).(proved := v)
    {
      hide *;
      Fields();
      proved := v;
      Fields();
    }

    method SetStopping(v: bool)
      modifies `stopping
      ensures stopping == v && State() == old(State()).(stopping := v)
    {
      hide *;
      Fields();
      stopping := v;
      Fields();
    }

    method SetChecking(v: bool)
      modifies `checking
      ensures checking == v && State() == old(State()).(checking := v)
    {
      hide *;
      Fields();
      checking := v;
      Fields();
    }

    method SetRunning(v: bool)
      modifies `running
      ensures running == v && State() == old(State()).(running := v)
    {
      hide *;
      Fields();
      running := v;
      Fields();
    }

    method SetStartup(v: Bytes)
      modifies `startupOutput
      ensures startupOutput == v && State() == old(State()).(startup := |v|)
    {
      hide *;
      Fields();
      startupOutput := v;
      Fields();
    }

    method SetOpens(ghost v: map<nat, S.Opening>)
      modifies `opens
      ensures State() == old(State()).(opens := v)
    {
      hide *;
      Fields();
      opens := v;
      Fields();
    }

    method BeginExchange(m: S.Message)
      modifies `busy, `request
      ensures State() == old(State()).(inFlight := Some(m))
    {
      hide *;
      Fields();
      busy, request := true, m;
      Fields();
    }

    method EndExchange()
      modifies `busy
      ensures State() == old(State()).(inFlight := None)
    {
      hide *;
      Fields();
      busy := false;
      Fields();
    }

    /** The first item leaves the channel. */
    method TakeItem() returns (item: IG.Item)
      requires IG.Filled(input) && |input| > 0
      modifies `input, `taken
      ensures item == old(input[0]) && IG.Filled(input) && taken == old(taken) + |item.data|
      ensures
        var s, n := old(State()), |item.data|;
        && 0 < n <= |s.queue| && S.SameOrigin(s.queue[..n])
        && s.queue[..n] == IG.TagAll(item.data, item.generation, item.paste)
        && State() == s.(queue := s.queue[n..], taken := s.taken + n)
    {
      hide *;
      item := input[0];
      Fields();
      FirstItem(input);
      input := input[1..];
      taken := taken + |item.data|;
      Fields();
    }

    method SendItems(items: seq<IG.Item>)
      modifies `input
      ensures input == old(input) + items
      ensures State() == old(State()).(queue := old(State()).queue + IG.Flatten(items))
    {
      hide *;
      Fields();
      FlattenJoin(input, items);
      input := input + items;
      Fields();
    }

    method CloseGate()
      modifies gate
      ensures State() == old(State()).(gate := S.Shut(old(State()).gate))
    {
      hide *;
      Fields();
      ClosedIs(gate.State());
      gate.CloseGeneration();
      Fields();
    }

    method Lose()
      modifies gate, `proved, `stopping, `startupOutput
      ensures State() == S.Lose(old(State()))
    {
      hide *;
      LoseIs(State());
      CloseGate();
      SetProved(false);
      SetStopping(true);
      SetStartup([]);
    }

    method Open(b: S.Boundary)
      modifies gate, `opens, `startupOutput, `proved, `stopping, `holdsSlot, `ready, `reports, `busy, `request, `retry
      ensures State() == S.Open(old(State()), b)
    {
      hide S.Send;
      hide S.Lose;
      hide IG.OpenGate;
      hide IG.Flatten;
      if child.None? || stopping || !proved || gate.generation != 0 {
        return;
      }
      if b.now >= grant.deadline {
        Lose();
        return;
      }
      var result := gate.OpenGeneration(b.backlog, b.drained);
      if result == IG.OpenFailed {
        Lose();
      } else if result == IG.Opened {
        Opened(b.drawn);
      }
    }

    /** The gate has just opened for the child. */
    method Opened(drawn: bool)
      requires child.Some?
      modifies gate, `opens, `startupOutput, `proved, `stopping, `holdsSlot, `ready, `reports, `busy, `request, `retry
      ensures State() == S.Opened(old(State()), old(State()).gate, drawn)
    {
      hide *;
      Fields();
      OpenedIs(State(), gate.State(), drawn);
      SetOpens(opens[gate.generation := S.Opening(child.value, taken + |IG.Flatten(input)|)]);
      SetStartup([]);
      if !drawn {
        Lose();
        return;
      }
      Announce();
    }

    /** The slot is given up and the attempt reported ready. */
    method Announce()
      modifies `holdsSlot, `ready, `reports, `busy, `request, `retry
      ensures
        var s := old(State());
        State() == S.Send(
          s.(slot := false, ready := true, reports := s.reports + [S.Report(s.grant.attempt, R.ReadyEvent)]))
    {
      hide *;
      Fields();
      SetSlot(false);
      SetReady(true);
      SetReports(reports + [S.Report(grant.attempt, R.ReadyEvent)]);
      Send();
    }

    /** The loop returns; its deferred cleanup stops and reaps what is left. */
    method Exit()
      modifies gate, `child, `holdsSlot, `ready, `running
      ensures State() == S.Exit(old(State()))
    {
      hide *;
      ExitIs(State());
      CloseGate();
      SetChild(None);
      SetSlot(false);
      SetReady(false);
      SetRunning(false);
    }

    method Done(detached: bool)
      requires child.Some?
      modifies gate, `child, `holdsSlot, `ready, `running, `proved, `startupOutput, `reports, `busy, `request, `retry
      ensures State() == S.Done(old(State()), detached)
    {
      hide *;
      Fields();
      DoneIs(State(), detached);
      Reap();
      if detached {
        Exit();
        return;
      }
      SetReports(reports + [S.Report(grant.attempt, R.LostEvent)]);
      Send();
    }

    /** The child is gone, and its slot with it. */
    method Reap()
      modifies gate, `child, `holdsSlot, `ready, `proved, `startupOutput
      ensures reports == old(reports) && grant == old(grant)
      ensures
        var s := old(State());
        State() == s.(gate := S.Shut(s.gate), child := None, slot := false, ready := false, proved := false, startup := 0)
    {
      hide *;
      CloseGate();
      SetSlot(false);
      SetChild(None);
      SetReady(false);
      SetProved(false);
      SetStartup([]);
    }

    method Packet(data: Bytes, events: seq<bool>, drawn: bool, b: S.Boundary)
      modifies gate, `opens, `startupOutput, `proved, `stopping, `holdsSlot, `ready, `reports, `busy, `request, `retry
      ensures State() == S.Packet(old(State()), |data|, events, drawn, b)
    {
      hide *;
      Fields();
      PacketIs(State(), |data|, events, drawn, b);
      if gate.generation != 0 {
        if !drawn {
          Lose();
        }
      } else if !stopping {
        if |startupOutput| + |data| > S.MAX_FRAME {
          Lose();
        } else {
          SetStartup(startupOutput + data);
        }
      }
      Prove(events);
      Open(b);
    }

    /** The markers among the child's output; only the ready marker of a child not being stopped proves it. */
    method Prove(events: seq<bool>)
      modifies gate, `proved, `stopping, `startupOutput
      ensures State() == S.Proof(old(State()), events)
    {
      hide *;
      assert events[0..] == events;
      for i := 0 to |events|
        invariant S.Proof(old(State()), events) == S.Proof(State(), events[i..])
      {
        Fields();
        ProofIs(State(), events[i..]);
        assert events[i..][0] == events[i] && events[i..][1..] == events[i + 1..];
        if events[i] && !stopping {
          SetProved(true);
        } else {
          Lose();
        }
      }
      ProofIs(State(), events[|events|..]);
    }

    method Tick(now: R.Time, b: S.Boundary)
      modifies gate, `opens, `startupOutput, `proved, `stopping, `holdsSlot, `ready, `reports, `busy, `request, `retry
      ensures State() == S.Tick(old(State()), now, b)
    {
      hide S.Open;
      hide S.Lose;
      hide S.Send;
      hide IG.Flatten;
      if child.Some? && gate.generation == 0 && now >= grant.deadline {
        Lose();
      }
      Open(b);
      Send();
    }

    /** The next item of the channel. */
    method Item(written: bool, b: S.Boundary) returns (w: Option<S.Write>)
      requires Valid() && |input| > 0
      modifies gate, `input, `taken, `opens, `startupOutput, `proved, `stopping, `holdsSlot, `ready, `reports, `busy, `request, `retry
      ensures Valid()
      ensures
        var n := |old(input[0].data)|;
        && 0 < n <= |old(State()).queue| && S.SameOrigin(old(State()).queue[..n])
        && S.Outcome(State(), None, w) == S.Input(old(State()), n, written, b)
    {
      IsValid();
      hide *;
      Fields();
      ghost var s := State();
      var current := gate.generation;
      var item := TakeItem();
      InputIs(s, item, written, b);
      EntersIs(item);
      w := None;
      if child.Some? && current != 0 && item.generation == current {
        w := Some(S.Typed(child.value, item.generation, taken - |item.data|, IG.TagAll(item.data, item.generation, item.paste)));
        if !written {
          Lose();
        }
      } else if current == 0 && item.generation == 0 && !item.paste && Enter(item.data) {
        SetRetry(true);
        Send();
      }
      Open(b);
      IsValid();
    }

    lemma IsValid()
      ensures Valid() <==> IG.Filled(input)
    {
    }

    method Paste(origin: S.Origin, text: Bytes, written: bool) returns (w: Option<S.Write>)
      modifies gate, `proved, `stopping, `startupOutput
      ensures S.Outcome(State(), None, w) == S.Paste(old(State()), origin, text, written)
    {
      hide *;
      Fields();
      PasteIs(State(), origin, text, written);
      if child.None? || gate.generation == 0 || origin != S.Origin(client, grant.attempt, gate.generation) {
        return None;
      }
      w := Some(S.Pasted(child.value, gate.generation, origin, text));
      if !written {
        Lose();
      }
    }

    /**
     Takes an acknowledged report off the queue.  When no fresh attempt can be drawn the loop
     returns and its variables are gone, so the draw comes first.
     */
    method Acknowledge(m: S.Message, renewed: Option<string>) returns (ok: bool)
      modifies `reports, `grant, `attempt
      ensures (if ok then Some(State()) else None) == S.Acknowledge(old(State()), m, renewed)
      ensures !ok ==> State() == old(State())
    {
      hide *;
      Fields();
      AcknowledgeIs(State(), m, renewed);
      if m.event != R.NoEvent && |reports| > 0 && reports[0] == S.Report(m.attempt, m.event) {
        if m.event == R.LostEvent {
          if renewed.None? {
            return false;
          }
          SetGrant(S.NO_GRANT);
          SetAttempt(renewed.value);
        }
        SetReports(reports[1..]);
      }
      return true;
    }

    method Heed(reply: R.Reply)
      modifies gate, `proved, `stopping, `startupOutput, `grant, `reports
      ensures State() == S.Heed(old(State()), reply)
    {
      hide *;
      Fields();
      HeedIs(State(), reply);
      if child.Some? && reply.cancelAttempt == grant.attempt {
        Lose();
      }
      Reset(reply);
    }

    method Reset(reply: R.Reply)
      modifies gate, `proved, `stopping, `startupOutput, `grant, `reports
      ensures State() == S.ApplyReset(old(State()), reply)
    {
      hide *;
      Fields();
      ResetIs(State(), reply);
      if reply.reset && gate.generation == 0 {
        if child.Some? {
          Lose();
        } else if |reports| == 0 {
          SetGrant(S.NO_GRANT);
          if reply.cancelAttempt == attempt {
            SetReports(reports + [S.Report(attempt, R.LostEvent)]);
          }
        }
      }
    }

    method BeginAttempt(g: R.Grant)
      modifies `grant, `startupOutput, `stopping, `proved, `ready
      ensures State() == old(State()).(grant := g, startup := 0, stopping := false, proved := false, ready := false)
    {
      hide *;
      SetGrant(g);
      SetStartup([]);
      SetStopping(false);
      SetProved(false);
      SetReady(false);
    }

    /** A pending slot first, then the child. */
    method Launch(g: R.Grant, permit: bool, spawned: bool)
      modifies `grant, `startupOutput, `stopping, `proved, `ready, `holdsSlot, `child, `reports
      ensures State() == S.Launch(old(State()), g, permit, spawned)
    {
      hide *;
      Fields();
      LaunchIs(State(), g, permit, spawned);
      BeginAttempt(g);
      SetSlot(permit);
      if permit && spawned {
        SetChild(Some(g.attempt));
      } else {
        SetSlot(false);
        SetReports(reports + [S.Report(g.attempt, R.LostEvent)]);
      }
    }

    method Grantable(m: S.Message, reply: R.Reply, a: S.Answer) returns (started: Option<string>)
      modifies gate, `grant, `startupOutput, `stopping, `proved, `ready, `holdsSlot, `child, `reports, `running, `busy, `request, `retry
      ensures S.Outcome(State(), started, None) == S.Grantable(old(State()), m, reply, a)
    {
      hide *;
      Fields();
      AcceptsIs(State(), m, reply);
      GrantableIs(State(), m, reply, a);
      started := None;
      if reply.grant.Some? && !reply.reset && m.event == R.NoEvent && child.None? && |reports| == 0
         && grant.attempt == "" && reply.grant.value.attempt == attempt && S.ValidAttempt(attempt)
      {
        var g := reply.grant.value;
        if a.now >= g.deadline {
          SetReports(reports + [S.Report(g.attempt, R.LostEvent)]);
          Send();
          return;
        }
        if !a.planned {
          Exit();
          return;
        }
        Launch(g, a.permit, a.spawned);
        started := if a.permit && a.spawned then Some(g.attempt) else None;
      }
      Fields();
      NeededIs(State());
      if |reports| > 0 || retry {
        Send();
      }
    }

    method Reply(a: S.Answer) returns (started: Option<string>)
      requires busy
      modifies gate, `grant, `startupOutput, `stopping, `proved, `ready, `holdsSlot, `child, `reports, `running, `busy, `request, `retry, `attempt, `checking
      ensures S.Outcome(State(), started, None) == S.Answered(old(State()), a)
    {
      hide *;
      Fields();
      AnsweredIs(State(), a);
      var m := request;
      EndExchange();
      started := None;
      match a.reply
      case Err(_) => SetRetry(retry || m.retry);
      case Ok(reply) =>
        var ok := Acknowledge(m, a.renewed);
        if !ok {
          Exit();
          return;
        }
        SetChecking(reply.checking);
        started := Follow(m, reply, a);
    }

    /** What an acknowledged reply says, unless it is that the session has ended. */
    method Follow(m: S.Message, reply: R.Reply, a: S.Answer) returns (started: Option<string>)
      modifies gate, `grant, `startupOutput, `stopping, `proved, `ready, `holdsSlot, `child, `reports, `running, `busy, `request, `retry
      ensures S.Outcome(State(), started, None) ==
        if reply.ended then S.Outcome(S.Exit(old(State())), None, None)
        else S.Grantable(S.Heed(old(State()), reply), m, reply, a)
    {
      hide *;
      if reply.ended {
        Exit();
        return None;
      }
      Heed(reply);
      started := Grantable(m, reply, a);
    }

    /** The reader: a prefix that timed out, then the bytes that were read. */
    method Read(keys: seq<IG.Key>, at: IG.Time)
      requires Valid()
      modifies this, gate
      ensures Valid() && State() == S.Receive(old(State()), IG.Read(keys, at))
    {
      hide *;
      IsValid();
      Fields();
      var held := gate.FlushHeld(at);
      var read := gate.DecodeInput(keys);
      Fields();
      SendItems(held + read);
      ReadIs(old(State()), held, read, keys, at, gate.State());
      FilledJoin(held, read);
      FilledJoin(old(input), held + read);
      IsValid();
    }

    method CheckPrefix(at: IG.Time)
      requires Valid()
      modifies this, gate
      ensures Valid() && State() == S.Receive(old(State()), IG.Flush(at))
    {
      hide *;
      IsValid();
      Fields();
      var held := gate.FlushHeld(at);
      Fields();
      SendItems(held);
      CheckIs(old(State()), held, at, gate.State());
      FilledJoin(old(input), held);
      IsValid();
    }

    /** Which events can happen. */
    ghost predicate Ready(e: Event)
      reads this
    {
      && running
      && match e
         case Shown(_, _, _, _) => child.Some?
         case ChildDone(_) => child.Some?
         case Replied(_) => busy
         case ItemReceived(_, _) => |input| > 0
         case _ => true
    }

    /** The step of the specification that an event stands for. */
    ghost function StepOf(e: Event): S.Op
      requires e.ItemReceived? ==> |input| > 0
      reads this
    {
      match e
      case Ticked(now, b) => S.TickOp(now, b)
      case AdmissionPolled => S.PollOp
      case Shown(data, events, drawn, b) => S.PacketOp(|data|, events, drawn, b)
      case ChildDone(detached) => S.DoneOp(detached)
      case Replied(a) => S.AnswerOp(a)
      case ItemReceived(written, b) => S.InputOp(|input[0].data|, written, b)
      case PasteAsked(origin, text, written) => S.PasteOp(origin, text, written)
      case Typed(keys, at) => S.ReadOp(keys, at)
      case PrefixChecked(at) => S.FlushOp(at)
      case Cancelled => S.StopOp
    }

    method Dispatch(e: Event) returns (started: Option<string>, written: Option<S.Write>)
      requires Valid() && Ready(e)
      modifies this, gate
      ensures Valid() && S.Outcome(State(), started, written) == S.Step(old(State()), old(StepOf(e)))
    {
      started, written := None, None;
      DispatchCases(e);
      IsValid();
      hide *;
      match e
      case Ticked(now, b) => Tick(now, b);
      case AdmissionPolled => Send();
      case Shown(data, events, drawn, b) => Packet(data, events, drawn, b);
      case ChildDone(detached) => Done(detached);
      case Replied(a) => started := Reply(a);
      case ItemReceived(w, b) => written := Item(w, b);
      case PasteAsked(origin, text, w) => written := Paste(origin, text, w);
      case Typed(keys, at) => Read(keys, at);
      case PrefixChecked(at) => CheckPrefix(at);
      case Cancelled => Exit();
      IsValid();
    }

    /** What an event stands for, and what its case of the loop relies on. */
    lemma DispatchCases(e: Event)
      requires Valid() && Ready(e)
      ensures e.ItemReceived? ==> |input| > 0
      ensures (e.ChildDone? ==> child.Some?) && (e.Replied? ==> busy)
      ensures
        var s := State();
        S.Step(s, StepOf(e)) ==
          match e
          case Ticked(now, b) => S.Outcome(S.Tick(s, now, b), None, None)
          case AdmissionPolled => S.Outcome(S.Send(s), None, None)
          case Shown(data, events, drawn, b) => S.Outcome(S.Packet(s, |data|, events, drawn, b), None, None)
          case ChildDone(detached) => S.Outcome(S.Done(s, detached), None, None)
          case Replied(a) => S.Answered(s, a)
          case ItemReceived(written, b) => (FirstItem(input); S.Input(s, |input[0].data|, written, b))
          case PasteAsked(origin, text, written) => S.Paste(s, origin, text, written)
          case Typed(keys, at) => S.Outcome(S.Receive(s, IG.Read(keys, at)), None, None)
          case PrefixChecked(at) => S.Outcome(S.Receive(s, IG.Flush(at)), None, None)
          case Cancelled => S.Outcome(S.Exit(s), None, None)
    {
      IsEnabled(e);
      StepCases(State(), StepOf(e));
      hide S.Step;
      hide S.Enabled;
      hide S.SameOrigin;
      hide IG.Flatten;
      hide S.Tick;
      hide S.Send;
      hide S.Packet;
      hide S.Done;
      hide S.Answered;
      hide S.Input;
      hide S.Paste;
      hide S.Receive;
      hide S.Exit;
    }

    lemma IsEnabled(e: Event)
      requires Valid() && Ready(e)
      ensures S.Enabled(State(), StepOf(e))
    {
      if e.ItemReceived? {
        FirstItem(input);
      }
      hide IG.Flatten;
      hide S.SameOrigin;
    }

    /**
     One turn of the loop, or of the reader.  It is the specification's step, and so keeps its
     invariant; a child starts only for the current attempt, which had no grant, and only with a
     permit, which it then holds; and what is written goes to the child whose generation is open.
     */
    method Turn(e: Event) returns (started: Option<string>, written: Option<S.Write>)
      requires Valid() && Ready(e)
      requires e.Replied? && e.a.renewed.Some? ==> e.a.renewed.value !in {"", attempt}
      modifies this, gate
      ensures Valid() && S.Outcome(State(), started, written) == S.Step(old(State()), old(StepOf(e)))
      ensures old(S.Inv(State())) ==> S.Inv(State())
      ensures old(S.Inv(State())) && started.Some? ==>
        && e.Replied? && e.a.permit && old(child).None? && old(grant).attempt == ""
        && child == started == Some(old(attempt)) && holdsSlot
      ensures old(S.Inv(State())) && written.Some? ==>
        && old(child) == Some(written.value.child) && written.value.generation == old(gate.generation) != 0
        && (written.value.Pasted? ==>
              written.value.origin == S.Origin(client, written.value.child, written.value.generation))
    {
      ghost var s, op := State(), StepOf(e);
      assert op.AnswerOp? ==> e.Replied? && op.a == e.a;
      if S.Inv(s) {
        StepIsSafe(s, op);
      }
      hide *;
      started, written := Dispatch(e);
    }
  }

  /** What the invariant makes of a step. */
  lemma StepIsSafe(s: S.State, op: S.Op)
    requires S.Inv(s) && (op.AnswerOp? && op.a.renewed.Some? ==> op.a.renewed.value !in {"", s.attempt})
    ensures
      var o := S.Step(s, op);
      && S.Inv(o.state)
      && (o.started.Some? ==>
            && op.AnswerOp? && op.a.permit && s.child.None? && s.grant.attempt == ""
            && o.state.child == o.started == Some(s.attempt) && o.state.slot)
      && (o.written.Some? ==>
            && s.child == Some(o.written.value.child) && o.written.value.generation == s.gate.generation != 0
            && (o.written.value.Pasted? ==>
                  o.written.value.origin == S.Origin(s.client, o.written.value.child, o.written.value.generation)))
  {
    S.StepKeeps(s, op);
    PS.StepAttempt(s, op);
    if S.Step(s, op).written.Some? {
      T.WritesAreCurrent(s, op);
    }
    if S.Step(s, op).started.Some? {
      StartedBy(s, op);
    }
    hide S.Inv;
    hide S.Step;
  }

  /** The cases of an enabled step. */
  lemma StepCases(s: S.State, op: S.Op)
    requires S.Enabled(s, op)
    ensures S.Step(s, op) ==
      match op
      case TickOp(now, b) => S.Just(S.Tick(s, now, b))
      case PollOp => S.Just(S.Send(s))
      case PacketOp(size, events, shown, b) => S.Just(S.Packet(s, size, events, shown, b))
      case DoneOp(detached) => S.Just(S.Done(s, detached))
      case AnswerOp(a) => S.Answered(s, a)
      case InputOp(n, written, b) => S.Input(s, n, written, b)
      case PasteOp(origin, text, written) => S.Paste(s, origin, text, written)
      case ReadOp(keys, at) => S.Just(S.Receive(s, IG.Read(keys, at)))
      case FlushOp(at) => S.Just(S.Receive(s, IG.Flush(at)))
      case StopOp => S.Just(S.Exit(s))
  {
    hide S.Tick;
    hide S.Send;
    hide S.Packet;
    hide S.Done;
    hide S.Answered;
    hide S.Input;
    hide S.Paste;
    hide S.Receive;
    hide S.Exit;
  }

  predicate Enter(data: Bytes) { 13 in data || 10 in data }

  // ---------------------------------------------------------------- items and tagged bytes

  lemma {:induction false} FlattenJoin(a: seq<IG.Item>, b: seq<IG.Item>)
    ensures IG.Flatten(a + b) == IG.Flatten(a) + IG.Flatten(b)
    decreases |b|
  {
    if b == [] {
      assert a + b == a;
    } else {
      var n := |b| - 1;
      var last := IG.TagAll(b[n].data, b[n].generation, b[n].paste);
      assert (a + b)[..|a + b| - 1] == a + b[..n] && (a + b)[|a + b| - 1] == b[n];
      FlattenJoin(a, b[..n]);
      Regroup(IG.Flatten(a), IG.Flatten(b[..n]), last);
    }
  }

  lemma FlattenOne(item: IG.Item)
    ensures IG.Flatten([item]) == IG.TagAll(item.data, item.generation, item.paste)
  {
    assert [item][..0] == [];
  }

  /** The channel's first item is the head of the queue, bytes of one origin. */
  lemma FirstItem(items: seq<IG.Item>)
    requires IG.Filled(items) && items != []
    ensures
      var n, queue := |items[0].data|, IG.Flatten(items);
      && IG.Filled(items[1..])
      && 0 < n <= |queue| && S.SameOrigin(queue[..n])
      && queue[..n] == IG.TagAll(items[0].data, items[0].generation, items[0].paste)
      && queue[n..] == IG.Flatten(items[1..])
  {
    assert items[0] in items;
    assert items == [items[0]] + items[1..];
    FlattenJoin([items[0]], items[1..]);
    FlattenOne(items[0]);
    hide IG.Flatten;
  }

  // ---------------------------------------------------------------- the specification, case by case

  lemma ClosedIs(g: IG.Gate)
    ensures IG.Apply(g, IG.Close).gate == S.Shut(g)
  {
  }

  lemma SendIs(s: S.State)
    ensures S.Send(s) ==
      if s.inFlight.Some? then s
      else
        var m := S.Message(s.attempt, R.NoEvent, S.Phase(s), s.retry);
        s.(inFlight := Some(if s.reports == [] then m
                            else m.(attempt := s.reports[0].attempt, event := s.reports[0].event)),
           retry := false)
  {
    hide S.Phase;
  }

  lemma PasteIs(s: S.State, origin: S.Origin, text: Bytes, written: bool)
    ensures S.Paste(s, origin, text, written) ==
      if s.child.None? || s.gate.generation == 0 || origin != S.Origin(s.client, s.grant.attempt, s.gate.generation)
      then S.Outcome(s, None, None)
      else
        S.Outcome(if written then s else S.Lose(s), None,
                  Some(S.Pasted(s.child.value, s.gate.generation, origin, text)))
  {
    hide S.Lose;
  }

  lemma AcceptsIs(s: S.State, m: S.Message, reply: R.Reply)
    ensures S.Accepts(s, m, reply) <==>
      && reply.grant.Some? && !reply.reset && m.event == R.NoEvent
      && s.child.None? && s.reports == [] && s.grant.attempt == ""
      && reply.grant.value.attempt == s.attempt && S.ValidAttempt(s.attempt)
  {
    hide S.ValidAttempt;
  }

  lemma NeededIs(s: S.State)
    ensures S.SendIfNeeded(s) == if s.reports != [] || s.retry then S.Send(s) else s
  {
    hide S.Send;
  }

  lemma GrantableIs(s: S.State, m: S.Message, reply: R.Reply, a: S.Answer)
    ensures S.Accepts(s, m, reply) ==> reply.grant.Some?
    ensures S.Grantable(s, m, reply, a) ==
      if !S.Accepts(s, m, reply) then S.Outcome(S.SendIfNeeded(s), None, None)
      else
        var g := reply.grant.value;
        if a.now >= g.deadline then
          S.Outcome(S.Send(s.(reports := s.reports + [S.Report(g.attempt, R.LostEvent)])), None, None)
        else if !a.planned then S.Outcome(S.Exit(s), None, None)
        else
          S.Outcome(S.SendIfNeeded(S.Launch(s, g, a.permit, a.spawned)),
                    if a.permit && a.spawned then Some(g.attempt) else None, None)
  {
    hide S.ValidAttempt;
    hide S.Launch;
    hide S.Send;
    hide S.SendIfNeeded;
    hide S.Exit;
  }

  lemma FilledJoin(a: seq<IG.Item>, b: seq<IG.Item>)
    requires IG.Filled(a) && IG.Filled(b)
    ensures IG.Filled(a + b)
  {
  }

  lemma ReadIs(s: S.State, held: seq<IG.Item>, read: seq<IG.Item>, keys: seq<IG.Key>, at: IG.Time, g: IG.Gate)
    requires
      var flushed := IG.FlushPrefix(s.gate, at);
      IG.Flatten(held) == flushed.out && IG.Decoded(g, IG.Flatten(read)) == IG.Decode(flushed.gate, keys)
    ensures
      S.Receive(s, IG.Read(keys, at)) == s.(gate := g, queue := s.queue + IG.Flatten(held + read))
  {
    FlattenJoin(held, read);
    hide IG.Flatten;
    hide IG.FlushPrefix;
    hide IG.Decode;
  }

  lemma CheckIs(s: S.State, held: seq<IG.Item>, at: IG.Time, g: IG.Gate)
    requires IG.Decoded(g, IG.Flatten(held)) == IG.FlushPrefix(s.gate, at)
    ensures S.Receive(s, IG.Flush(at)) == s.(gate := g, queue := s.queue + IG.Flatten(held))
  {
    hide IG.Flatten;
    hide IG.FlushPrefix;
  }

  lemma LoseIs(s: S.State)
    ensures S.Lose(s) == s.(gate := S.Shut(s.gate), proved := false, stopping := true, startup := 0)
  {
  }

  lemma ExitIs(s: S.State)
    ensures S.Exit(s) == s.(gate := S.Shut(s.gate), child := None, slot := false, ready := false, running := false)
  {
  }

  lemma OpenedIs(s: S.State, g: IG.Gate, drawn: bool)
    requires s.child.Some?
    ensures
      var t := s.(gate := g, startup := 0,
                  opens := s.opens[g.generation := S.Opening(s.child.value, s.taken + |s.queue|)]);
      S.Opened(s, g, drawn) ==
        if !drawn then S.Lose(t)
        else S.Send(t.(slot := false, ready := true, reports := t.reports + [S.Report(s.grant.attempt, R.ReadyEvent)]))
  {
    hide S.Lose;
    hide S.Send;
  }

  lemma DoneIs(s: S.State, detached: bool)
    requires s.child.Some?
    ensures
      var t := s.(gate := S.Shut(s.gate), child := None, slot := false, ready := false, proved := false, startup := 0);
      S.Done(s, detached) ==
        if detached then S.Exit(t)
        else S.Send(t.(reports := t.reports + [S.Report(s.grant.attempt, R.LostEvent)]))
  {
    hide S.Exit;
    hide S.Send;
  }

  lemma ProofIs(s: S.State, events: seq<bool>)
    ensures S.Proof(s, events) ==
      if events == [] then s
      else S.Proof(if events[0] && !s.stopping then s.(proved := true) else S.Lose(s), events[1..])
  {
    hide S.Lose;
  }

  lemma PacketIs(s: S.State, size: nat, events: seq<bool>, drawn: bool, b: S.Boundary)
    ensures
      var t :=
        if s.gate.generation != 0 then (if drawn then s else S.Lose(s))
        else if s.stopping then s
        else if s.startup + size > S.MAX_FRAME then S.Lose(s)
        else s.(startup := s.startup + size);
      S.Packet(s, size, events, drawn, b) == S.Open(S.Proof(t, events), b)
  {
    hide S.Lose;
    hide S.Open;
    hide S.Proof;
  }

  /** Taking one whole item. */
  lemma InputIs(s: S.State, item: IG.Item, written: bool, b: S.Boundary)
    requires item.data != [] && |item.data| <= |s.queue| && S.SameOrigin(s.queue[..|item.data|])
    requires s.queue[..|item.data|] == IG.TagAll(item.data, item.generation, item.paste)
    ensures
      var n, bytes := |item.data|, s.queue[..|item.data|];
      var t := s.(queue := s.queue[n..], taken := s.taken + n);
      S.Input(s, n, written, b) ==
        if s.child.Some? && s.gate.generation != 0 && item.generation == s.gate.generation then
          S.Outcome(S.Open(if written then t else S.Lose(t), b), None,
                    Some(S.Typed(s.child.value, item.generation, s.taken, bytes)))
        else if s.gate.generation == 0 && item.generation == 0 && !item.paste && S.HasEnter(bytes)
        then S.Outcome(S.Open(S.Send(t.(retry := true)), b), None, None)
        else S.Outcome(S.Open(t, b), None, None)
  {
    hide S.Open;
    hide S.Lose;
    hide S.Send;
    hide S.HasEnter;
    hide S.SameOrigin;
    assert s.queue[..|item.data|][0] == IG.Tagged(item.data[0], item.generation, item.paste);
  }

  lemma EntersIs(item: IG.Item)
    ensures S.HasEnter(IG.TagAll(item.data, item.generation, item.paste)) <==> Enter(item.data)
  {
    var ts := IG.TagAll(item.data, item.generation, item.paste);
    forall k | 0 <= k < |item.data| ensures ts[k].b == item.data[k] && ts[k] in ts {
    }
  }

  lemma HeedIs(s: S.State, reply: R.Reply)
    ensures
      S.Heed(s, reply) ==
      S.ApplyReset(if s.child.Some? && reply.cancelAttempt == s.grant.attempt then S.Lose(s) else s, reply)
  {
    hide S.Lose;
    hide S.ApplyReset;
  }

  lemma ResetIs(s: S.State, reply: R.Reply)
    ensures
      S.ApplyReset(s, reply) ==
      if !reply.reset || s.gate.generation != 0 then s
      else if s.child.Some? then S.Lose(s)
      else if s.reports != [] then s
      else if reply.cancelAttempt == s.attempt then
        s.(grant := S.NO_GRANT, reports := s.reports + [S.Report(s.attempt, R.LostEvent)])
      else s.(grant := S.NO_GRANT)
  {
    hide S.Lose;
    assert [] + [S.Report(s.attempt, R.LostEvent)] == [S.Report(s.attempt, R.LostEvent)];
  }

  lemma LaunchIs(s: S.State, g: R.Grant, permit: bool, spawned: bool)
    ensures
      var t := s.(grant := g, startup := 0, stopping := false, proved := false, ready := false);
      S.Launch(s, g, permit, spawned) ==
        if permit && spawned then t.(slot := true, child := Some(g.attempt))
        else t.(slot := false, reports := t.reports + [S.Report(g.attempt, R.LostEvent)])
  {
  }

  lemma AcknowledgeIs(s: S.State, m: S.Message, renewed: Option<string>)
    ensures
      var t := s.(reports := if s.reports == [] then [] else s.reports[1..]);
      S.Acknowledge(s, m, renewed) ==
        if m.event == R.NoEvent || s.reports == [] || s.reports[0] != S.Report(m.attempt, m.event) then Some(s)
        else if m.event != R.LostEvent then Some(t)
        else if renewed.None? then None
        else Some(t.(grant := S.NO_GRANT, attempt := renewed.value))
  {
  }

  lemma AnsweredIs(s: S.State, a: S.Answer)
    requires s.inFlight.Some?
    ensures
      var m, t := s.inFlight.value, s.(inFlight := None);
      S.Answered(s, a) ==
        match a.reply
        case Err(_) => S.Outcome(t.(retry := t.retry || m.retry), None, None)
        case Ok(reply) =>
          var acked := S.Acknowledge(t, m, a.renewed);
          if acked.None? then S.Outcome(S.Exit(t), None, None)
          else
            var u := acked.value.(checking := reply.checking);
            if reply.ended then S.Outcome(S.Exit(u), None, None) else S.Grantable(S.Heed(u, reply), m, reply, a)
  {
    hide S.Acknowledge;
    hide S.Exit;
    hide S.Heed;
    hide S.Grantable;
  }

  // ---------------------------------------------------------------- what a step starts

  /** A child starts only on a reply, with a permit, when there is none. */
  lemma StartedBy(s: S.State, op: S.Op)
    requires S.Step(s, op).started.Some?
    ensures
      var o := S.Step(s, op);
      && op.AnswerOp? && op.a.permit && s.child.None?
      && o.state.child == o.started && o.state.slot
  {
    hide S.Tick;
    hide S.Packet;
    hide S.Done;
    hide S.Answered;
    hide S.Input;
    hide S.Paste;
    hide S.Receive;
    hide S.Send;
    hide S.Exit;
    hide S.SameOrigin;
    AnswerStarts(s, op.a);
  }

  lemma AnswerStarts(s: S.State, a: S.Answer)
    requires s.inFlight.Some? && S.Answered(s, a).started.Some?
    ensures
      var o := S.Answered(s, a);
      a.permit && s.child.None? && o.state.child == o.started && o.state.slot
  {
    hide S.Grantable;
    hide S.Exit;
    hide S.Lose;
    var m := s.inFlight.value;
    AcknowledgedChild(s.(inFlight := None), m, a.renewed);
    hide S.Acknowledge;
    var u := S.Acknowledge(s.(inFlight := None), m, a.renewed).value.(checking := a.reply.value.checking);
    HeededChild(u, a.reply.value);
    hide S.Heed;
    GrantStarts(S.Heed(u, a.reply.value), m, a.reply.value, a);
  }

  lemma AcknowledgedChild(s: S.State, m: S.Message, renewed: Option<string>)
    ensures S.Acknowledge(s, m, renewed).Some? ==> S.Acknowledge(s, m, renewed).value.child == s.child
  {
  }

  lemma HeededChild(s: S.State, reply: R.Reply)
    ensures S.Heed(s, reply).child == s.child
  {
    var t := if s.child.Some? && reply.cancelAttempt == s.grant.attempt then S.Lose(s) else s;
    LoseIs(s);
    LoseIs(t);
    hide *;
    HeedIs(s, reply);
    ResetIs(t, reply);
  }

  lemma GrantStarts(s: S.State, m: S.Message, reply: R.Reply, a: S.Answer)
    requires S.Grantable(s, m, reply, a).started.Some?
    ensures
      var o := S.Grantable(s, m, reply, a);
      a.permit && s.child.None? && o.state.child == o.started && o.state.slot
  {
    hide S.Exit;
    hide S.ValidAttempt;
  }
}
