/**
 The client's event loop (internal/mirror/session_supervisor.go): one terminal, at most one
 child, one grant, a queue of reports for the coordinator, and the input gate.

 Every case of the loop is a function from state to state.  What the outside world decides
 (replies, clocks, whether a start or a write succeeds, fresh attempt IDs) is a parameter.
 */
module Supervisor {
  import opened Wrappers
  import R = Recovery
  import IG = InputGate
  import opened Bytes

  datatype Report = Report(attempt: string, event: R.Event)

  datatype Message = Message(attempt: string, event: R.Event, state: R.Phase, retry: bool)

  /** The child a generation was opened for, and how many input bytes had been decoded by then. */
  datatype Opening = Opening(child: string, at: nat)

  /**
   An empty grant has the attempt "".  `ready` tells whether the current child was reported
   ready; `queue` holds the bytes decoded by the reader and not yet taken by the loop, of which
   `taken` came before; `opens` records the generations opened so far.
   */
  datatype State = State(
    client: string, attempt: string, inFlight: Option<Message>, retry: bool,
    reports: seq<Report>, child: Option<string>, slot: bool, ready: bool,
    grant: R.Grant, proved: bool, stopping: bool, startup: nat, checking: bool,
    gate: IG.Gate, queue: seq<IG.Tagged>, taken: nat, opens: map<nat, Opening>,
    running: bool)

  const NO_GRANT := R.Grant("", R.ZERO_TIME)
  const MAX_FRAME: nat := 4 * 1024 * 1024

  datatype Origin = Origin(client: string, attempt: string, generation: nat)

  /**
   What the loop wrote to the child's terminal while `generation` was open: typed bytes, the
   first of them being the index-th decoded, or the text of a local process that saw `origin`.
   */
  datatype Write =
    | Typed(child: string, generation: nat, index: nat, bytes: seq<IG.Tagged>)
    | Pasted(child: string, generation: nat, origin: Origin, text: Bytes)

  datatype Outcome = Outcome(state: State, started: Option<string>, written: Option<Write>)

  function Just(s: State): Outcome { Outcome(s, None, None) }

  function Phase(s: State): R.Phase {
    if s.gate.generation != 0 then R.Ready
    else if s.child.Some? then R.Connecting
    else if s.checking then R.Checking
    else R.Offline
  }

  // ---------------------------------------------------------------- the helpers of the loop

  /** The attempt and its grant are what they were, and nothing new is being started. */
  predicate SameAttempt(s: State, t: State) {
    t.attempt == s.attempt && t.grant == s.grant && (t.slot ==> s.slot)
  }

  /** Input decoded, taken and queued so far is what it was, and no generation opened. */
  predicate SameInput(s: State, t: State) {
    && t.queue == s.queue && t.taken == s.taken && t.opens == s.opens && t.client == s.client
    && t.gate.next == s.gate.next && t.gate.generation in {s.gate.generation, 0}
  }

  /** Sends the oldest report, or the current wish, unless an exchange is under way. */
  function Send(s: State): (t: State)
    ensures t == s.(inFlight := t.inFlight, retry := t.retry) && SameAttempt(s, t) && SameInput(s, t)
  {
    if s.inFlight.Some? then s
    else
      var m := if s.reports != [] then Message(s.reports[0].attempt, s.reports[0].event, Phase(s), s.retry)
               else Message(s.attempt, R.NoEvent, Phase(s), s.retry);
      s.(inFlight := Some(m), retry := false)
  }

  function Shut(g: IG.Gate): IG.Gate { g.(generation := 0) }

  /** Stops the child; it stays the child until it is reaped. */
  function Lose(s: State): (t: State)
    ensures SameAttempt(s, t) && SameInput(s, t)
  {
    s.(gate := Shut(s.gate), proved := false, stopping := true, startup := 0)
  }

  /**
   What opening the attachment meets: the clock at its deadline check and after the drain, the
   unread terminal input, and whether the screen takes the write.
   */
  datatype Boundary = Boundary(now: IG.Time, backlog: nat -> IG.ReadResult, drained: IG.Time, drawn: bool)

  /** Hands the terminal to a proven child, once input is at a boundary. */
  function Open(s: State, b: Boundary): (t: State)
    ensures SameAttempt(s, t)
  {
    if s.child.None? || s.stopping || !s.proved || s.gate.generation != 0 then s
    else if b.now >= s.grant.deadline then Lose(s)
    else
      var (g, result) := IG.OpenGate(s.gate, b.backlog, b.drained);
      if result == IG.OpenFailed then Lose(s.(gate := g))
      else if result == IG.NotYet then s.(gate := g)
      else Opened(s, g, b.drawn)
  }

  function Opened(s: State, g: IG.Gate, drawn: bool): (t: State)
    requires s.child.Some?
    ensures SameAttempt(s, t)
  {
    var t := s.(gate := g, startup := 0,
                opens := s.opens[g.generation := Opening(s.child.value, s.taken + |s.queue|)]);
    if !drawn then Lose(t)
    else Send(t.(slot := false, ready := true, reports := t.reports + [Report(s.grant.attempt, R.ReadyEvent)]))
  }

  /** The loop ends: whatever is left of the child is stopped and reaped, and its slot released. */
  function Exit(s: State): (t: State)
    ensures SameAttempt(s, t) && SameInput(s, t)
  {
    s.(gate := Shut(s.gate), child := None, slot := false, ready := false, running := false)
  }

  // ---------------------------------------------------------------- the cases of the loop

  function Done(s: State, detached: bool): (t: State)
    requires s.child.Some?
    ensures SameAttempt(s, t) && SameInput(s, t)
  {
    var t := s.(gate := Shut(s.gate), child := None, slot := false, ready := false, proved := false, startup := 0);
    if detached then Exit(t)
    else Send(t.(reports := t.reports + [Report(s.grant.attempt, R.LostEvent)]))
  }

  function Proof(s: State, events: seq<bool>): (t: State)
    ensures SameAttempt(s, t) && SameInput(s, t)
    decreases |events|
  {
    if events == [] then s
    else Proof(if events[0] && !s.stopping then s.(proved := true) else Lose(s), events[1..])
  }

  /** Output of the child; an event is true when it is the ready marker. */
  function Packet(s: State, size: nat, events: seq<bool>, shown: bool, b: Boundary): (t: State)
    ensures SameAttempt(s, t)
  {
    var t :=
      if s.gate.generation != 0 then (if shown then s else Lose(s))
      else if s.stopping then s
      else if s.startup + size > MAX_FRAME then Lose(s)
      else s.(startup := s.startup + size);
    Open(Proof(t, events), b)
  }

  function Tick(s: State, now: R.Time, b: Boundary): (t: State)
    ensures SameAttempt(s, t)
  {
    var t := if s.child.Some? && s.gate.generation == 0 && now >= s.grant.deadline then Lose(s) else s;
    Send(Open(t, b))
  }

  predicate SameOrigin(ts: seq<IG.Tagged>) {
    forall t <- ts :: t.generation == ts[0].generation && t.paste == ts[0].paste
  }

  predicate HasEnter(ts: seq<IG.Tagged>) {
    exists t <- ts :: t.b == 13 || t.b == 10
  }

  /** The loop takes the next item of input, `n` bytes of one origin. */
  function Input(s: State, n: nat, written: bool, b: Boundary): (o: Outcome)
    requires 0 < n <= |s.queue| && SameOrigin(s.queue[..n])
    ensures o.started.None?
  {
    var item := s.queue[..n];
    var t := s.(queue := s.queue[n..], taken := s.taken + n);
    if s.child.Some? && s.gate.generation != 0 && item[0].generation == s.gate.generation then
      Outcome(Open(if written then t else Lose(t), b), None,
              Some(Typed(s.child.value, item[0].generation, s.taken, item)))
    else if s.gate.generation == 0 && item[0].generation == 0 && !item[0].paste && HasEnter(item) then
      Just(Open(Send(t.(retry := true)), b))
    else Just(Open(t, b))
  }

  /** A request of another local process to type into the attachment it saw. */
  predicate PasteAccepted(s: State, origin: Origin) {
    s.child.Some? && s.gate.generation != 0 && origin == Origin(s.client, s.grant.attempt, s.gate.generation)
  }

  function Paste(s: State, origin: Origin, text: Bytes, written: bool): (o: Outcome)
    ensures SameAttempt(s, o.state) && SameInput(s, o.state) && o.started.None?
  {
    if !PasteAccepted(s, origin) then Just(s)
    else Outcome(if written then s else Lose(s), None, Some(Pasted(s.child.value, s.gate.generation, origin, text)))
  }

  /** A reply or failure of the exchange, and what starting a child would meet. */
  datatype Answer = Answer(
    now: R.Time, reply: Result<R.Reply, string>, renewed: Option<string>,
    planned: bool, permit: bool, spawned: bool)

  /** An acknowledged report leaves the queue; after a loss the next attempt has a fresh ID. */
  function Acknowledge(s: State, m: Message, renewed: Option<string>): (t: Option<State>)
    ensures t.Some? ==> SameInput(s, t.value)
  {
    if m.event == R.NoEvent || s.reports == [] || s.reports[0] != Report(m.attempt, m.event) then Some(s)
    else
      var t := s.(reports := s.reports[1..]);
      if m.event != R.LostEvent then Some(t)
      else if renewed.None? then None
      else Some(t.(grant := NO_GRANT, attempt := renewed.value))
  }

  function ApplyReset(s: State, reply: R.Reply): (t: State)
    ensures SameInput(s, t)
  {
    if !reply.reset || s.gate.generation != 0 then s
    else if s.child.Some? then Lose(s)
    else if s.reports != [] then s
    else
      s.(grant := NO_GRANT,
         reports := if reply.cancelAttempt == s.attempt then [Report(s.attempt, R.LostEvent)] else [])
  }

  predicate ValidAttempt(attempt: string) { R.Hex32(attempt) }

  predicate Accepts(s: State, m: Message, reply: R.Reply) {
    && reply.grant.Some? && !reply.reset && m.event == R.NoEvent
    && s.child.None? && s.reports == [] && s.grant.attempt == ""
    && reply.grant.value.attempt == s.attempt && ValidAttempt(s.attempt)
  }

  /** The grant is taken: a pending slot first, then the child. */
  function Launch(s: State, g: R.Grant, permit: bool, spawned: bool): (t: State)
    ensures SameInput(s, t)
  {
    var t := s.(grant := g, startup := 0, stopping := false, proved := false, ready := false);
    if permit && spawned then t.(slot := true, child := Some(g.attempt))
    else t.(slot := false, reports := t.reports + [Report(g.attempt, R.LostEvent)])
  }

  function SendIfNeeded(s: State): (t: State)
    ensures SameAttempt(s, t) && SameInput(s, t)
  {
    if s.reports != [] || s.retry then Send(s) else s
  }

  function Grantable(s: State, m: Message, reply: R.Reply, a: Answer): (o: Outcome)
    ensures SameInput(s, o.state) && o.written.None?
  {
    if !Accepts(s, m, reply) then Just(SendIfNeeded(s))
    else
      var g := reply.grant.value;
      if a.now >= g.deadline then Just(Send(s.(reports := s.reports + [Report(g.attempt, R.LostEvent)])))
      else if !a.planned then Just(Exit(s))
      else
        Outcome(SendIfNeeded(Launch(s, g, a.permit, a.spawned)),
                if a.permit && a.spawned then Some(g.attempt) else None, None)
  }

  function Heed(s: State, reply: R.Reply): (t: State)
    ensures SameInput(s, t)
  {
    var t := if s.child.Some? && reply.cancelAttempt == s.grant.attempt then Lose(s) else s;
    ApplyReset(t, reply)
  }

  function Answered(s: State, a: Answer): (o: Outcome)
    requires s.inFlight.Some?
    ensures SameInput(s, o.state) && o.written.None?
  {
    hide Acknowledge;
    hide Heed;
    hide Grantable;
    hide Exit;
    var m := s.inFlight.value;
    var t := s.(inFlight := None);
    match a.reply
    case Err(_) => Just(t.(retry := t.retry || m.retry))
    case Ok(reply) =>
      var acked := Acknowledge(t, m, a.renewed);
      if acked.None? then Just(Exit(t))
      else
        var u := acked.value.(checking := reply.checking);
        if reply.ended then Just(Exit(u)) else Grantable(Heed(u, reply), m, reply, a)
  }

  datatype Op =
    | TickOp(now: R.Time, b: Boundary)
    | PollOp
    | PacketOp(size: nat, events: seq<bool>, shown: bool, b: Boundary)
    | DoneOp(detached: bool)
    | AnswerOp(a: Answer)
    | InputOp(n: nat, written: bool, b: Boundary)
    | PasteOp(origin: Origin, text: Bytes, written: bool)
    | ReadOp(keys: seq<IG.Key>, at: IG.Time)
    | FlushOp(at: IG.Time)
    | StopOp

  /** Which cases of the loop can fire. */
  predicate Enabled(s: State, op: Op) {
    && s.running
    && match op
       case PacketOp(_, _, _, _) => s.child.Some?
       case DoneOp(_) => s.child.Some?
       case AnswerOp(_) => s.inFlight.Some?
       case InputOp(n, _, _) => 0 < n <= |s.queue| && SameOrigin(s.queue[..n])
       case _ => true
  }

  function Receive(s: State, op: IG.Op): (t: State)
    ensures SameAttempt(s, t)
  {
    var d := IG.Apply(s.gate, op);
    s.(gate := d.gate, queue := s.queue + d.out)
  }

  function Step(s: State, op: Op): Outcome {
    if !Enabled(s, op) then Just(s)
    else
      match op
      case TickOp(now, b) => Just(Tick(s, now, b))
      case PollOp => Just(Send(s))
      case PacketOp(size, events, shown, b) => Just(Packet(s, size, events, shown, b))
      case DoneOp(detached) => Just(Done(s, detached))
      case AnswerOp(a) => Answered(s, a)
      case InputOp(n, written, b) => Input(s, n, written, b)
      case PasteOp(origin, text, written) => Paste(s, origin, text, written)
      case ReadOp(keys, at) => Just(Receive(s, IG.Read(keys, at)))
      case FlushOp(at) => Just(Receive(s, IG.Flush(at)))
      case StopOp => Just(Exit(s))
  }

  /** A supervisor starts with a fresh attempt and at once asks the coordinator. */
  function Started(client: string, attempt: string): State {
    Send(State(client, attempt, None, false, [], None, false, false, NO_GRANT, false, false, 0, false,
               IG.NEW_GATE, [], 0, map[], true))
  }

  // ---------------------------------------------------------------- the invariant

  function ReadyReport(s: State): Report { Report(s.attempt, R.ReadyEvent) }

  function LostReport(s: State): Report { Report(s.attempt, R.LostEvent) }

  /**
   One attempt at a time: the queue of reports is empty, [ready], [lost] or [ready, lost] for
   the current attempt; a live child runs it and holds its grant; a grant without a child
   waits for its loss to be acknowledged.
   */
  ghost predicate OneAttempt(s: State) {
    && s.attempt != ""
    && (s.child.Some? ==>
          && s.child.value == s.attempt == s.grant.attempt
          && (s.reports == [] || s.reports == [ReadyReport(s)]))
    && (s.child.None? && s.running ==>
          s.reports == [] || s.reports == [LostReport(s)] || s.reports == [ReadyReport(s), LostReport(s)])
    && (s.child.None? && s.running && s.grant.attempt != "" ==>
          s.grant.attempt == s.attempt && s.reports != [])
  }

  /** A child holds its pending slot until it is reported ready or reaped, and is reported ready once. */
  ghost predicate SlotHeld(s: State) {
    && (s.slot <==> s.child.Some? && !s.ready)
    && (s.slot ==> s.reports == [] && s.gate.generation == 0)
    && (s.ready ==> s.child.Some? && (s.gate.generation != 0 || s.stopping))
    && (s.child.None? ==> s.gate.generation == 0)
    && (s.child.Some? ==> s.running)
  }

  /** Queued bytes never carry a generation that opened after they were decoded. */
  ghost predicate InputInv(s: State) {
    && IG.GateInv(s.gate)
    && (forall g :: g in s.opens <==> 0 < g <= s.gate.next)
    && (forall g <- s.opens :: s.opens[g].at <= s.taken + |s.queue|)
    && (forall k :: 0 <= k < |s.queue| && s.queue[k].generation != 0 ==>
          s.queue[k].generation in s.opens && s.opens[s.queue[k].generation].at <= s.taken + k)
    && (s.gate.generation != 0 ==> s.child.Some? && s.opens[s.gate.generation].child == s.child.value)
  }

  ghost predicate Inv(s: State) {
    OneAttempt(s) && SlotHeld(s) && InputInv(s)
  }

  // ---------------------------------------------------------------- every step keeps it

  lemma SendKeeps(s: State)
    requires Inv(s)
    ensures Inv(Send(s))
  {
    hide IG.GateInv;
  }

  lemma LoseKeeps(s: State)
    requires Inv(s)
    ensures Inv(Lose(s))
  {
  }

  /** A new gate that opened nothing, while no attachment takes input. */
  lemma GateMoved(s: State, g: IG.Gate)
    requires Inv(s) && IG.GateInv(g) && g.next == s.gate.next && g.generation == s.gate.generation
    ensures Inv(s.(gate := g))
  {
    hide IG.GateInv;
  }

  lemma OpenedInput(s: State, g: IG.Gate)
    requires InputInv(s) && s.child.Some? && IG.GateInv(g) && g.generation == g.next == s.gate.next + 1
    ensures
      InputInv(s.(gate := g, startup := 0,
                  opens := s.opens[g.generation := Opening(s.child.value, s.taken + |s.queue|)]))
  {
    hide IG.GateInv;
  }

  lemma OpenedKeeps(s: State, g: IG.Gate, drawn: bool)
    requires Inv(s) && s.slot && s.child.Some?
    requires IG.GateInv(g) && g.generation == g.next == s.gate.next + 1
    ensures Inv(Opened(s, g, drawn))
  {
    InvIs(s);
    OpenedInput(s, g);
    hide Inv;
    hide OneAttempt;
    hide SlotHeld;
    hide InputInv;
    hide Lose;
    hide Send;
    hide IG.GateInv;
    var t := s.(gate := g, startup := 0,
                opens := s.opens[g.generation := Opening(s.child.value, s.taken + |s.queue|)]);
    OpenedParts(s, t, drawn);
  }

  lemma InvIs(s: State)
    ensures Inv(s) <==> OneAttempt(s) && SlotHeld(s) && InputInv(s)
  {
  }

  /** The gate is open and the screen was drawn, or the child is lost again. */
  lemma OpenedParts(s: State, t: State, drawn: bool)
    requires OneAttempt(s) && SlotHeld(s) && s.slot && s.child.Some?
    requires t == s.(gate := t.gate, startup := t.startup, opens := t.opens) && InputInv(t) && t.gate.generation != 0
    ensures Inv(Lose(t))
    ensures Inv(Send(t.(slot := false, ready := true, reports := t.reports + [Report(s.grant.attempt, R.ReadyEvent)])))
  {
  }

  lemma ReadyOnce(s: State)
    requires Inv(s) && s.child.Some? && !s.stopping && s.gate.generation == 0
    ensures s.slot
  {
  }

  lemma OpenKeeps(s: State, b: Boundary)
    requires Inv(s)
    ensures Inv(Open(s, b))
  {
    hide Inv;
    hide IG.OpenGate;
    hide Lose;
    hide Opened;
    hide IG.GateInv;
    GateIsSound(s);
    LoseKeeps(s);
    IG.OpenIsFresh(s.gate, b.backlog, b.drained);
    var (g, result) := IG.OpenGate(s.gate, b.backlog, b.drained);
    if s.child.Some? && !s.stopping && s.gate.generation == 0 {
      ReadyOnce(s);
      if result == IG.Opened {
        OpenedKeeps(s, g, b.drawn);
      } else {
        GateMoved(s, g);
        LoseKeeps(s.(gate := g));
      }
    }
  }

  lemma GateIsSound(s: State)
    requires Inv(s)
    ensures IG.GateInv(s.gate)
  {
  }

  lemma ExitKeeps(s: State)
    requires Inv(s)
    ensures Inv(Exit(s))
  {
  }

  lemma DoneKeeps(s: State, detached: bool)
    requires Inv(s) && s.child.Some?
    ensures Inv(Done(s, detached))
  {
  }

  lemma SameAttemptTwice(s: State, t: State, u: State)
    requires SameAttempt(s, t) && SameAttempt(t, u)
    ensures SameAttempt(s, u)
  {
  }

  lemma InputFrame(s: State, n: nat, written: bool, b: Boundary)
    requires 0 < n <= |s.queue| && SameOrigin(s.queue[..n])
    ensures SameAttempt(s, Input(s, n, written, b).state)
  {
    var t := s.(queue := s.queue[n..], taken := s.taken + n);
    var asked := t.(retry := true);
    assert SameAttempt(s, t) && SameAttempt(s, asked);
    InputCases(s, n, written, b);
    hide *;
    SameAttemptTwice(s, t, Open(t, b));
    SameAttemptTwice(s, t, Lose(t));
    SameAttemptTwice(s, Lose(t), Open(Lose(t), b));
    SameAttemptTwice(s, asked, Send(asked));
    SameAttemptTwice(s, Send(asked), Open(Send(asked), b));
  }

  lemma {:induction false} ProofKeeps(s: State, events: seq<bool>)
    requires Inv(s)
    ensures Inv(Proof(s, events))
    decreases |events|
  {
    if events != [] {
      LoseKeeps(s);
      hide Lose;
      assert Inv(s.(proved := true));
      hide Inv;
      ProofKeeps(if events[0] && !s.stopping then s.(proved := true) else Lose(s), events[1..]);
    }
  }

  lemma PacketKeeps(s: State, size: nat, events: seq<bool>, shown: bool, b: Boundary)
    requires Inv(s)
    ensures Inv(Packet(s, size, events, shown, b))
  {
    StartupKeeps(s, size);
    PacketCases(s, size, events, shown, b);
    hide *;
    LoseKeeps(s);
    ProofKeeps(s, events);
    ProofKeeps(Lose(s), events);
    ProofKeeps(s.(startup := s.startup + size), events);
    OpenKeeps(Proof(s, events), b);
    OpenKeeps(Proof(Lose(s), events), b);
    OpenKeeps(Proof(s.(startup := s.startup + size), events), b);
  }

  lemma StartupKeeps(s: State, size: nat)
    requires Inv(s)
    ensures Inv(s.(startup := s.startup + size))
  {
  }

  lemma PacketCases(s: State, size: nat, events: seq<bool>, shown: bool, b: Boundary)
    ensures Packet(s, size, events, shown, b) in {
      Open(Proof(s, events), b), Open(Proof(Lose(s), events), b),
      Open(Proof(s.(startup := s.startup + size), events), b)}
  {
    hide Open;
    hide Lose;
    hide Proof;
  }

  lemma TickKeeps(s: State, now: R.Time, b: Boundary)
    requires Inv(s)
    ensures Inv(Tick(s, now, b))
  {
    hide Inv;
    hide Lose;
    hide Open;
    hide Send;
    LoseKeeps(s);
    var t := if s.child.Some? && s.gate.generation == 0 && now >= s.grant.deadline then Lose(s) else s;
    OpenKeeps(t, b);
    SendKeeps(Open(t, b));
  }

  lemma TakenInput(s: State, n: nat)
    requires InputInv(s) && n <= |s.queue|
    ensures InputInv(s.(queue := s.queue[n..], taken := s.taken + n))
  {
    hide IG.GateInv;
  }

  lemma TakenKeeps(s: State, n: nat)
    requires Inv(s) && n <= |s.queue|
    ensures Inv(s.(queue := s.queue[n..], taken := s.taken + n))
  {
    TakenInput(s, n);
    hide InputInv;
  }

  lemma InputKeeps(s: State, n: nat, written: bool, b: Boundary)
    requires Inv(s) && 0 < n <= |s.queue| && SameOrigin(s.queue[..n])
    ensures Inv(Input(s, n, written, b).state)
  {
    var t := s.(queue := s.queue[n..], taken := s.taken + n);
    TakenKeeps(s, n);
    RetryKeeps(t);
    InputCases(s, n, written, b);
    hide *;
    LoseKeeps(t);
    OpenKeeps(t, b);
    OpenKeeps(Lose(t), b);
    SendKeeps(t.(retry := true));
    OpenKeeps(Send(t.(retry := true)), b);
  }

  lemma RetryKeeps(s: State)
    requires Inv(s)
    ensures Inv(s.(retry := true))
  {
  }

  lemma InputCases(s: State, n: nat, written: bool, b: Boundary)
    requires 0 < n <= |s.queue| && SameOrigin(s.queue[..n])
    ensures
      var t := s.(queue := s.queue[n..], taken := s.taken + n);
      Input(s, n, written, b).state in {Open(t, b), Open(Lose(t), b), Open(Send(t.(retry := true)), b)}
  {
    hide Open;
    hide Lose;
    hide Send;
    hide SameOrigin;
    hide HasEnter;
  }

  lemma ReceivedInput(s: State, gate: IG.Gate, out: seq<IG.Tagged>)
    requires InputInv(s) && IG.GateInv(gate) && gate.next == s.gate.next && IG.TagsUpTo(out, s.gate.next)
    requires gate.generation == s.gate.generation
    ensures InputInv(s.(gate := gate, queue := s.queue + out))
  {
    hide IG.GateInv;
    var q := s.queue + out;
    forall k | 0 <= k < |q| && q[k].generation != 0
      ensures q[k].generation in s.opens && s.opens[q[k].generation].at <= s.taken + k
    {
      if k >= |s.queue| {
        assert q[k] == out[k - |s.queue|];
        assert q[k].generation <= s.gate.next;
      } else {
        assert q[k] == s.queue[k];
      }
    }
  }

  lemma GateApplied(g: IG.Gate, op: IG.Op)
    requires IG.GateInv(g) && (op.Read? || op.Flush?)
    ensures
      var d := IG.Apply(g, op);
      && IG.GateInv(d.gate) && d.gate.next == g.next && d.gate.generation == g.generation
      && IG.TagsUpTo(d.out, g.next)
  {
    if op.Read? {
      var flushed := IG.FlushPrefix(g, op.at);
      IG.DecodeTags(flushed.gate, op.keys);
    }
  }

  lemma ReceiveKeeps(s: State, op: IG.Op)
    requires Inv(s) && (op.Read? || op.Flush?)
    ensures Inv(Receive(s, op))
  {
    GateIsSound(s);
    GateApplied(s.gate, op);
    var d := IG.Apply(s.gate, op);
    hide IG.Apply;
    hide IG.GateInv;
    hide IG.TagsUpTo;
    ReceivedInput(s, d.gate, d.out);
    hide InputInv;
  }

  lemma AcknowledgeKeeps(s: State, m: Message, renewed: Option<string>)
    requires Inv(s) && s.running && (renewed.Some? ==> renewed.value != "")
    ensures
      var t := Acknowledge(s, m, renewed);
      t.Some? ==> Inv(t.value) && t.value.running
  {
    hide IG.GateInv;
  }

  lemma ResetKeeps(s: State, reply: R.Reply)
    requires Inv(s) && s.running
    ensures Inv(ApplyReset(s, reply)) && ApplyReset(s, reply).running
  {
    LoseKeeps(s);
    hide Lose;
    hide IG.GateInv;
    assert Lose(s).running;
  }

  lemma HeedKeeps(s: State, reply: R.Reply)
    requires Inv(s) && s.running
    ensures Inv(Heed(s, reply)) && Heed(s, reply).running
  {
    LoseKeeps(s);
    assert Lose(s).running;
    hide Inv;
    hide Lose;
    hide ApplyReset;
    ResetKeeps(if s.child.Some? && reply.cancelAttempt == s.grant.attempt then Lose(s) else s, reply);
  }

  lemma LaunchKeeps(s: State, g: R.Grant, permit: bool, spawned: bool)
    requires Inv(s) && s.running && s.child.None? && s.reports == [] && g.attempt == s.attempt
    ensures Inv(Launch(s, g, permit, spawned))
  {
    hide IG.GateInv;
  }

  lemma ExpiredKeeps(s: State, attempt: string)
    requires Inv(s) && s.child.None? && s.running && s.reports == [] && attempt == s.attempt
    ensures Inv(s.(reports := s.reports + [Report(attempt, R.LostEvent)]))
  {
    hide IG.GateInv;
  }

  lemma GrantableKeeps(s: State, m: Message, reply: R.Reply, a: Answer)
    requires Inv(s) && s.running
    ensures Inv(Grantable(s, m, reply, a).state)
  {
    hide Inv;
    hide Send;
    hide Launch;
    hide Exit;
    hide ValidAttempt;
    SendKeeps(s);
    ExitKeeps(s);
    if Accepts(s, m, reply) {
      var g := reply.grant.value;
      ExpiredKeeps(s, g.attempt);
      SendKeeps(s.(reports := s.reports + [Report(g.attempt, R.LostEvent)]));
      LaunchKeeps(s, g, a.permit, a.spawned);
      SendKeeps(Launch(s, g, a.permit, a.spawned));
    }
  }

  lemma AnsweredKeeps(s: State, a: Answer)
    requires Inv(s) && s.running && s.inFlight.Some? && (a.renewed.Some? ==> a.renewed.value != "")
    ensures Inv(Answered(s, a).state)
  {
    var m := s.inFlight.value;
    var t := s.(inFlight := None);
    assert Inv(t) && Inv(t.(retry := t.retry || m.retry));
    if a.reply.Ok? {
      AcknowledgeKeeps(t, m, a.renewed);
      ExitKeeps(t);
      var acked := Acknowledge(t, m, a.renewed);
      if acked.Some? {
        var u := acked.value.(checking := a.reply.value.checking);
        CheckingKeeps(acked.value, a.reply.value.checking);
        hide *;
        ExitKeeps(u);
        HeedKeeps(u, a.reply.value);
        GrantableKeeps(Heed(u, a.reply.value), m, a.reply.value, a);
        AnsweredCases(s, a);
      }
    }
  }

  lemma AnsweredCases(s: State, a: Answer)
    requires s.inFlight.Some? && a.reply.Ok?
    requires Acknowledge(s.(inFlight := None), s.inFlight.value, a.renewed).Some?
    ensures
      var u := Acknowledge(s.(inFlight := None), s.inFlight.value, a.renewed).value.(checking := a.reply.value.checking);
      Answered(s, a) ==
        if a.reply.value.ended then Just(Exit(u))
        else Grantable(Heed(u, a.reply.value), s.inFlight.value, a.reply.value, a)
    ensures Just(Exit(s)).state == Exit(s)
  {
    hide Acknowledge;
    hide Exit;
    hide Heed;
    hide Grantable;
  }

  lemma CheckingKeeps(s: State, checking: bool)
    requires Inv(s)
    ensures Inv(s.(checking := checking))
  {
  }

  /** Every case of the loop keeps the supervisor's invariant. */
  lemma StepKeeps(s: State, op: Op)
    requires Inv(s) && (op.AnswerOp? && op.a.renewed.Some? ==> op.a.renewed.value != "")
    ensures Inv(Step(s, op).state)
  {
    hide Inv;
    hide Tick;
    hide Send;
    hide Packet;
    hide Done;
    hide Answered;
    hide Input;
    hide Lose;
    hide Receive;
    hide Exit;
    hide SameOrigin;
    hide PasteAccepted;
    if Enabled(s, op) {
      match op
      case TickOp(now, b) => TickKeeps(s, now, b);
      case PollOp => SendKeeps(s);
      case PacketOp(size, events, shown, b) => PacketKeeps(s, size, events, shown, b);
      case DoneOp(detached) => DoneKeeps(s, detached);
      case AnswerOp(a) => AnsweredKeeps(s, a);
      case InputOp(n, written, b) => InputKeeps(s, n, written, b);
      case PasteOp(_, _, _) => LoseKeeps(s);
      case ReadOp(keys, at) => ReceiveKeeps(s, IG.Read(keys, at));
      case FlushOp(at) => ReceiveKeeps(s, IG.Flush(at));
      case StopOp => ExitKeeps(s);
    }
  }

  lemma StartKeeps(client: string, attempt: string)
    requires attempt != ""
    ensures Inv(Started(client, attempt))
  {
  }
}
