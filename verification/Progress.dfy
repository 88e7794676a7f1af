/**
 That the client's event loop gets on (internal/mirror/session_supervisor.go): when a proven
 child takes the terminal, when a child is stopped, what a lost child, a reply or a key press
 sets in motion.  Everything is stated on the fields of the states before and after a step.
 */
module Progress {
  import opened Wrappers
  import opened Bytes
  import R = Recovery
  import IG = InputGate
  import opened Supervisor

  // ---------------------------------------------------------------- the input boundary

  /** The n-th read finds nothing more, and no earlier one failed. */
  ghost predicate EmptyAt(backlog: nat -> IG.ReadResult, n: nat) {
    backlog(n) == IG.WouldBlock && forall i: nat :: i < n ==> backlog(i).Data? || backlog(i).Interrupted?
  }

  ghost predicate BrokenAt(backlog: nat -> IG.ReadResult, n: nat) {
    && (backlog(n).Failed? || backlog(n).Closed?)
    && forall i: nat :: i < n ==> backlog(i).Data? || backlog(i).Interrupted?
  }

  /** Sixteen reads empty the terminal. */
  ghost predicate Empties(backlog: nat -> IG.ReadResult) {
    exists n: nat :: n < 16 && EmptyAt(backlog, n)
  }

  /** One of sixteen reads finds the terminal failing or closed. */
  ghost predicate Breaks(backlog: nat -> IG.ReadResult) {
    exists n: nat :: n < 16 && BrokenAt(backlog, n)
  }

  /**
   The terminal is at an input boundary: all that was typed is read, it leaves no paste
   unfinished, and no beginning of a paste younger than 30 milliseconds.
   */
  ghost predicate AtBoundary(g: IG.Gate, backlog: nat -> IG.ReadResult, at: IG.Time) {
    && Empties(backlog)
    && var keys := IG.Drained(backlog, 0);
       var read := IG.Scan(g.prefix + IG.Typed(keys), g.paste);
       !read.paste && (read.held == [] || at - IG.Decode(g, keys).gate.prefixAt >= 30_000_000)
  }

  ghost predicate EmptyFrom(backlog: nat -> IG.ReadResult, i: nat, n: nat) {
    i <= n && backlog(n) == IG.WouldBlock && forall k: nat :: i <= k < n ==> backlog(k).Data? || backlog(k).Interrupted?
  }

  ghost predicate BrokenFrom(backlog: nat -> IG.ReadResult, i: nat, n: nat) {
    && i <= n && (backlog(n).Failed? || backlog(n).Closed?)
    && forall k: nat :: i <= k < n ==> backlog(k).Data? || backlog(k).Interrupted?
  }

  lemma {:induction false} DrainReads(g: IG.Gate, backlog: nat -> IG.ReadResult, i: nat)
    ensures IG.Drain(g, backlog, i).0 == IG.Decode(g, IG.Drained(backlog, i)).gate
    decreases 16 - i
  {
    hide IG.Decode;
    IG.DecodeNone(g);
    if i < 16 {
      match backlog(i)
      case Data(keys) =>
        DrainReads(IG.Decode(g, keys).gate, backlog, i + 1);
        IG.DecodeTwice(g, keys, IG.Drained(backlog, i + 1));
      case Interrupted => DrainReads(g, backlog, i + 1);
      case _ =>
    }
  }

  lemma {:induction false} DrainEnds(g: IG.Gate, backlog: nat -> IG.ReadResult, i: nat)
    ensures IG.Drain(g, backlog, i).1 == IG.Opened <==> exists n: nat :: n < 16 && EmptyFrom(backlog, i, n)
    ensures IG.Drain(g, backlog, i).1 == IG.OpenFailed <==> exists n: nat :: n < 16 && BrokenFrom(backlog, i, n)
    decreases 16 - i
  {
    hide IG.Decode;
    if i < 16 {
      if backlog(i).Data? || backlog(i).Interrupted? {
        var j := i + 1;
        DrainEnds(if backlog(i).Data? then IG.Decode(g, backlog(i).keys).gate else g, backlog, j);
        if n: nat :| n < 16 && EmptyFrom(backlog, j, n) {
          assert EmptyFrom(backlog, i, n);
        }
        if n: nat :| n < 16 && EmptyFrom(backlog, i, n) {
          assert EmptyFrom(backlog, j, n);
        }
        if n: nat :| n < 16 && BrokenFrom(backlog, j, n) {
          assert BrokenFrom(backlog, i, n);
        }
        if n: nat :| n < 16 && BrokenFrom(backlog, i, n) {
          assert BrokenFrom(backlog, j, n);
        }
      } else {
        assert backlog(i) == IG.WouldBlock ==> EmptyFrom(backlog, i, i);
        assert backlog(i).Failed? || backlog(i).Closed? ==> BrokenFrom(backlog, i, i);
      }
    }
  }

  lemma FromTheFirst(backlog: nat -> IG.ReadResult)
    ensures Empties(backlog) <==> exists n: nat :: n < 16 && EmptyFrom(backlog, 0, n)
    ensures Breaks(backlog) <==> exists n: nat :: n < 16 && BrokenFrom(backlog, 0, n)
  {
    assert forall n: nat :: EmptyAt(backlog, n) <==> EmptyFrom(backlog, 0, n);
    assert forall n: nat :: BrokenAt(backlog, n) <==> BrokenFrom(backlog, 0, n);
  }

  lemma DrainedScan(g: IG.Gate, keys: seq<IG.Key>)
    requires IG.GateInv(g)
    ensures
      var d := IG.Decode(g, keys).gate;
      var read := IG.Scan(g.prefix + IG.Typed(keys), g.paste);
      d.prefix == read.held && d.paste == read.paste && d.next == g.next && d.generation == g.generation
  {
    hide IG.Scan;
    IG.DecodeScans(g, keys);
    IG.DecodeTags(g, keys);
    hide IG.Decode;
  }

  /** A gate opens exactly when the terminal is at an input boundary, and fails exactly when the terminal does. */
  lemma GateOpens(g: IG.Gate, backlog: nat -> IG.ReadResult, at: IG.Time)
    requires IG.GateInv(g)
    ensures
      var (h, result) := IG.OpenGate(g, backlog, at);
      && (result == IG.OpenFailed <==> Breaks(backlog))
      && (result == IG.Opened <==> AtBoundary(g, backlog, at))
      && (result == IG.Opened ==> h.generation == h.next == g.next + 1 && h.prefix == [] && !h.paste)
      && (result != IG.Opened ==> h.generation == g.generation && h.next == g.next)
  {
    hide IG.Decode;
    hide IG.Scan;
    hide IG.Drain;
    hide Empties;
    hide Breaks;
    hide EmptyFrom;
    hide BrokenFrom;
    FromTheFirst(backlog);
    DrainEnds(g, backlog, 0);
    DrainReads(g, backlog, 0);
    DrainedScan(g, IG.Drained(backlog, 0));
    hide IG.Drained;
    hide IG.GateInv;
  }

  /** With nothing to read and neither a paste nor a fresh beginning of one, the terminal is at a boundary. */
  lemma IdleTerminal(g: IG.Gate, backlog: nat -> IG.ReadResult, at: IG.Time)
    requires IG.GateInv(g) && backlog(0) == IG.WouldBlock
    requires !g.paste && (g.prefix == [] || at - g.prefixAt >= 30_000_000)
    ensures AtBoundary(g, backlog, at)
  {
    assert EmptyAt(backlog, 0);
    assert IG.Drained(backlog, 0) == [];
    assert g.prefix + IG.Typed([]) == g.prefix;
    IG.ScanHeld(g.prefix, g.paste);
    IG.DecodeNone(g);
  }

  // ---------------------------------------------------------------- handing over the terminal

  /** A live child that has not been told to stop waits for the terminal. */
  ghost predicate Waiting(s: State) {
    s.running && s.child.Some? && !s.stopping && s.gate.generation == 0
  }

  /** What is sent when no exchange is under way: the oldest report, or the wish for a grant. */
  function Due(s: State): Message {
    var phase :=
      if s.gate.generation != 0 then R.Ready
      else if s.child.Some? then R.Connecting
      else if s.checking then R.Checking
      else R.Offline;
    if s.reports == [] then Message(s.attempt, R.NoEvent, phase, s.retry)
    else Message(s.reports[0].attempt, s.reports[0].event, phase, s.retry)
  }

  /** An exchange is under way: the one before, or a new one about what is due. */
  ghost predicate Exchanging(s: State, t: State) {
    if s.inFlight.Some? then t.inFlight == s.inFlight && t.retry == s.retry
    else t.inFlight == Some(Due(s)) && !t.retry
  }

  /**
   The child has the terminal: a new generation is open for it, input decoded so far is older, its
   slot is given back, it is reported ready, and the report is on its way or waits its turn.
   */
  ghost predicate HandedOver(s: State, t: State) {
    && t.running && t.child == s.child && s.child.Some? && !t.stopping && t.proved
    && t.gate.generation == t.gate.next == s.gate.next + 1 && t.gate.prefix == [] && !t.gate.paste
    && t.opens == s.opens[t.gate.generation := Opening(s.child.value, s.taken + |s.queue|)]
    && t.queue == s.queue && t.taken == s.taken
    && !t.slot && t.ready && t.reports == [Report(s.attempt, R.ReadyEvent)]
    && t.inFlight.Some?
    && (s.inFlight.Some? ==> t.inFlight == s.inFlight)
    && (s.inFlight.None? ==> t.inFlight == Some(Message(s.attempt, R.ReadyEvent, R.Ready, s.retry)))
  }

  /** The child is told to stop; it keeps its slot until it is reaped. */
  ghost predicate Stopped(s: State, t: State) {
    && t.running && t.child == s.child && t.stopping && !t.proved && t.gate.generation == 0 && t.startup == 0
    && t.slot == s.slot && t.reports == s.reports && t.queue == s.queue && t.taken == s.taken
  }

  /** The child goes on waiting. */
  ghost predicate StillWaiting(s: State, t: State) {
    && Waiting(t) && t.child == s.child && t.slot == s.slot && t.reports == s.reports
    && t.queue == s.queue && t.taken == s.taken && t.opens == s.opens
  }

  lemma OpenCases(s: State, b: Boundary)
    requires Waiting(s) && s.proved
    ensures
      var (g, result) := IG.OpenGate(s.gate, b.backlog, b.drained);
      Open(s, b) ==
        if s.grant.deadline <= b.now then Lose(s)
        else if result == IG.OpenFailed then Lose(s.(gate := g))
        else if result == IG.NotYet then s.(gate := g)
        else Opened(s, g, b.drawn)
  {
    hide IG.OpenGate;
    hide Lose;
    hide Opened;
  }

  lemma LoseStops(s: State, g: IG.Gate)
    requires s.running
    ensures Stopped(s, Lose(s.(gate := g)))
  {
  }

  lemma OpenedHandsOver(s: State, g: IG.Gate)
    requires Inv(s) && Waiting(s) && s.proved && g.generation == g.next == s.gate.next + 1
    requires g.prefix == [] && !g.paste
    ensures HandedOver(s, Opened(s, g, true)) && Stopped(s, Opened(s, g, false))
  {
    hide IG.GateInv;
  }

  lemma KeptWaiting(s: State, g: IG.Gate)
    requires Waiting(s) && g.generation == s.gate.generation
    ensures StillWaiting(s, s.(gate := g))
  {
  }

  /** What becomes of a proven child that waits for the terminal. */
  lemma ProvenChild(s: State, b: Boundary)
    requires Inv(s) && Waiting(s) && s.proved
    ensures
      var t := Open(s, b);
      if s.grant.deadline <= b.now || Breaks(b.backlog) then Stopped(s, t)
      else if !AtBoundary(s.gate, b.backlog, b.drained) then StillWaiting(s, t) && t.proved && t.startup == s.startup
      else if b.drawn then HandedOver(s, t)
      else Stopped(s, t)
  {
    OpenCases(s, b);
    GateIsSound(s);
    hide *;
    GateOpens(s.gate, b.backlog, b.drained);
    var (g, result) := IG.OpenGate(s.gate, b.backlog, b.drained);
    SameGate(s);
    LoseStops(s, s.gate);
    LoseStops(s, g);
    KeptProved(s, g);
    if result == IG.Opened {
      OpenedHandsOver(s, g);
      OneOfThree(b);
    } else if result == IG.NotYet {
      NothingOpened(s);
      KeptWaiting(s, g);
    }
  }

  lemma SameGate(s: State)
    ensures s.(gate := s.gate) == s
  {
  }

  lemma NothingOpened(s: State)
    requires Waiting(s)
    ensures s.gate.generation == 0
  {
  }

  lemma KeptProved(s: State, g: IG.Gate)
    ensures s.(gate := g).proved == s.proved && s.(gate := g).startup == s.startup
  {
  }

  lemma OneOfThree(b: Boundary)
    ensures b.drawn == true || b.drawn == false
  {
  }

  lemma UnprovenWaits(s: State, b: Boundary)
    requires Waiting(s) && !s.proved
    ensures Open(s, b) == s && StillWaiting(s, s)
  {
  }

  // ---------------------------------------------------------------- packets

  ghost predicate AllReady(events: seq<bool>) {
    forall i :: 0 <= i < |events| ==> events[i]
  }

  lemma FirstOfAll(events: seq<bool>)
    requires events != []
    ensures AllReady(events) <==> events[0] && AllReady(events[1..])
  {
    if events[0] && AllReady(events[1..]) {
      assert events == [events[0]] + events[1..];
    }
  }

  lemma {:induction false} ProofOfReady(s: State, events: seq<bool>)
    requires AllReady(events) && !s.stopping
    ensures Proof(s, events) == s.(proved := s.proved || events != [])
    decreases |events|
  {
    hide AllReady;
    if events != [] {
      FirstOfAll(events);
      ProofOfReady(s.(proved := true), events[1..]);
    }
  }

  lemma {:induction false} ProofOfOther(s: State, events: seq<bool>)
    requires !AllReady(events) || (s.stopping && !s.proved && s.gate.generation == 0 && s.startup == 0)
    requires s.running && s.child.Some?
    ensures Stopped(s, Proof(s, events))
    decreases |events|
  {
    hide AllReady;
    if events == [] {
      assert AllReady(events) by {
        NothingIsReady(events);
      }
    } else {
      FirstOfAll(events);
      ProofFirst(s, events);
      hide *;
      SameGate(s);
      LoseStops(s, s.gate);
      StoppedIs(s, Lose(s));
      var t := if events[0] && !s.stopping then s.(proved := true) else Lose(s);
      ProofOfOther(t, events[1..]);
      StoppedAgain(s, t, Proof(t, events[1..]));
    }
  }

  lemma ProofFirst(s: State, events: seq<bool>)
    requires events != []
    ensures Proof(s, events) == Proof(if events[0] && !s.stopping then s.(proved := true) else Lose(s), events[1..])
  {
  }

  lemma NothingIsReady(events: seq<bool>)
    requires events == []
    ensures AllReady(events)
  {
  }

  lemma StoppedAgain(s: State, t: State, u: State)
    requires Stopped(t, u) && t.child == s.child && t.slot == s.slot && t.reports == s.reports
    requires t.queue == s.queue && t.taken == s.taken
    ensures Stopped(s, u)
  {
  }

  lemma StoppedStays(s: State, t: State, b: Boundary)
    requires Stopped(s, t)
    ensures Open(t, b) == t
  {
  }

  lemma PacketIs(s: State, size: nat, events: seq<bool>, shown: bool, b: Boundary)
    requires Waiting(s)
    ensures
      Step(s, PacketOp(size, events, shown, b)).state ==
        Open(Proof(if s.startup + size > 4 * 1024 * 1024 then Lose(s) else s.(startup := s.startup + size), events), b)
  {
    hide Open;
    hide Lose;
    hide Proof;
  }

  lemma TooMuch(s: State, events: seq<bool>, b: Boundary)
    requires s.running && s.child.Some?
    ensures Stopped(s, Open(Proof(Lose(s), events), b))
  {
    hide *;
    SameGate(s);
    LoseStops(s, s.gate);
    var t := Lose(s);
    StoppedIs(s, t);
    ProofOfOther(t, events);
    StoppedAgain(s, t, Proof(t, events));
    StoppedStays(s, Proof(t, events), b);
  }

  lemma BadMarker(s: State, size: nat, events: seq<bool>, b: Boundary)
    requires Waiting(s) && !AllReady(events)
    ensures Stopped(s, Open(Proof(s.(startup := s.startup + size), events), b))
  {
    hide *;
    WaitingIs(s);
    var u := s.(startup := s.startup + size);
    ProofOfOther(u, events);
    StoppedAgain(s, u, Proof(u, events));
    StoppedStays(s, Proof(u, events), b);
  }

  lemma SmallPacket(s: State, size: nat, proved: bool, b: Boundary)
    requires Inv(s) && Waiting(s)
    ensures
      var t := Open(s.(startup := s.startup + size, proved := proved), b);
      if !proved then StillWaiting(s, t) && !t.proved && t.startup == s.startup + size
      else if s.grant.deadline <= b.now || Breaks(b.backlog) then Stopped(s, t)
      else if !AtBoundary(s.gate, b.backlog, b.drained) then
        StillWaiting(s, t) && t.proved && t.startup == s.startup + size
      else if b.drawn then HandedOver(s, t)
      else Stopped(s, t)
  {
    hide *;
    var v := s.(startup := s.startup + size, proved := proved);
    Grown(s, size, proved);
    if proved {
      ProvenChild(v, b);
      Handed(s, v, Open(v, b));
    } else {
      UnprovenWaits(v, b);
      Handed(s, v, v);
    }
  }

  /**
   Output of a child that waits for the terminal.  Too much of it, or any marker but the ready
   marker, stops the child; so does a proven child's late or failing terminal.  A proven child is
   handed the terminal as soon as it is at an input boundary, however much output it began with.
   */
  lemma PacketTells(s: State, size: nat, events: seq<bool>, shown: bool, b: Boundary)
    requires Inv(s) && Waiting(s)
    ensures
      var t := Step(s, PacketOp(size, events, shown, b)).state;
      if s.startup + size > 4_194_304 || !AllReady(events) then Stopped(s, t)
      else if !s.proved && events == [] then StillWaiting(s, t) && !t.proved && t.startup == s.startup + size
      else if s.grant.deadline <= b.now || Breaks(b.backlog) then Stopped(s, t)
      else if !AtBoundary(s.gate, b.backlog, b.drained) then
        StillWaiting(s, t) && t.proved && t.startup == s.startup + size
      else if b.drawn then HandedOver(s, t)
      else Stopped(s, t)
  {
    hide *;
    PacketIs(s, size, events, shown, b);
    WaitingIs(s);
    if s.startup + size > 4_194_304 {
      TooMuch(s, events, b);
    } else if !AllReady(events) {
      BadMarker(s, size, events, b);
    } else {
      ProofOfReady(s.(startup := s.startup + size), events);
      SmallPacket(s, size, s.proved || events != [], b);
    }
  }

  lemma WaitingIs(s: State)
    requires Waiting(s)
    ensures s.running && s.child.Some? && !s.stopping && s.gate.generation == 0
  {
  }

  lemma StoppedIs(s: State, t: State)
    requires Stopped(s, t)
    ensures t.running && t.child == s.child && t.stopping && !t.proved && t.gate.generation == 0 && t.startup == 0
    ensures t.slot == s.slot && t.reports == s.reports && t.queue == s.queue && t.taken == s.taken
  {
  }

  lemma Grown(s: State, size: nat, proved: bool)
    requires Inv(s) && Waiting(s)
    ensures
      var v := s.(startup := s.startup + size, proved := proved);
      Inv(v) && Waiting(v)
  {
    hide IG.GateInv;
  }

  /** What holds of the child with more startup output holds of the child before. */
  lemma Handed(s: State, v: State, t: State)
    requires v == s.(startup := v.startup, proved := v.proved)
    ensures HandedOver(v, t) ==> HandedOver(s, t)
    ensures Stopped(v, t) ==> Stopped(s, t)
    ensures StillWaiting(v, t) ==> StillWaiting(s, t)
  {
  }

  lemma OpenPacketIs(s: State, size: nat, events: seq<bool>, shown: bool, b: Boundary)
    requires s.running && s.child.Some? && s.gate.generation != 0
    ensures
      Step(s, PacketOp(size, events, shown, b)).state == Open(Proof(if shown then s else Lose(s), events), b)
  {
    hide Open;
    hide Lose;
    hide Proof;
  }

  lemma OpenStays(s: State, b: Boundary)
    requires s.gate.generation != 0 || s.child.None?
    ensures Open(s, b) == s
  {
  }

  /** Once the child has the terminal, output that cannot be shown or any marker but ready takes it away. */
  lemma PacketWhileOpen(s: State, size: nat, events: seq<bool>, shown: bool, b: Boundary)
    requires s.running && s.child.Some? && s.gate.generation != 0
    ensures
      var t := Step(s, PacketOp(size, events, shown, b)).state;
      if !shown || (!s.stopping && !AllReady(events)) then Stopped(s, t)
      else if !s.stopping then t == s.(proved := s.proved || events != [])
      else if events == [] then t == s
      else Stopped(s, t)
  {
    hide *;
    OpenPacketIs(s, size, events, shown, b);
    SameGate(s);
    LoseStops(s, s.gate);
    if !shown {
      TooMuch(s, events, b);
    } else if !s.stopping {
      if AllReady(events) {
        ProofOfReady(s, events);
        OpenStays(s.(proved := s.proved || events != []), b);
      } else {
        ProofOfOther(s, events);
        StoppedStays(s, Proof(s, events), b);
      }
    } else {
      ProofWhileStopping(s, events);
      OpenStays(s, b);
      if events != [] {
        StoppedStays(s, Proof(s, events), b);
      }
    }
  }

  lemma ProofWhileStopping(s: State, events: seq<bool>)
    requires s.running && s.child.Some? && s.stopping
    ensures if events == [] then Proof(s, events) == s else Stopped(s, Proof(s, events))
  {
    hide *;
    if events == [] {
      ProofOfNone(s, events);
    } else {
      ProofFirst(s, events);
      SameGate(s);
      LoseStops(s, s.gate);
      StoppedIs(s, Lose(s));
      ProofOfOther(Lose(s), events[1..]);
      StoppedAgain(s, Lose(s), Proof(Lose(s), events[1..]));
    }
  }

  lemma ProofOfNone(s: State, events: seq<bool>)
    requires events == []
    ensures Proof(s, events) == s
  {
  }

  // ---------------------------------------------------------------- ticks and polls

  lemma SendIs(s: State)
    ensures Send(s) == if s.inFlight.Some? then s else s.(inFlight := Some(Due(s)), retry := false)
  {
    hide SameAttempt;
    hide SameInput;
  }

  lemma SendExchanges(s: State)
    ensures Exchanging(s, Send(s)) && Send(s) == s.(inFlight := Send(s).inFlight, retry := Send(s).retry)
  {
    SendIs(s);
    hide Send;
  }

  lemma SentIsStopped(s: State, t: State)
    requires Stopped(s, t)
    ensures Stopped(s, Send(t)) && Exchanging(t, Send(t))
  {
    SendExchanges(t);
    hide Send;
    hide Exchanging;
  }

  lemma SentIsWaiting(s: State, t: State)
    requires StillWaiting(s, t)
    ensures StillWaiting(s, Send(t)) && Send(t).proved == t.proved && Exchanging(t, Send(t))
  {
    SendExchanges(t);
    hide Send;
    hide Exchanging;
  }

  lemma SentIsHandedOver(s: State, t: State)
    requires HandedOver(s, t)
    ensures HandedOver(s, Send(t))
  {
    SendExchanges(t);
    hide Send;
  }

  lemma TickIs(s: State, now: R.Time, b: Boundary)
    requires s.running
    ensures
      Step(s, TickOp(now, b)).state
      == Send(Open(if s.child.Some? && s.gate.generation == 0 && s.grant.deadline <= now then Lose(s) else s, b))
  {
    hide Send;
    hide Open;
    hide Lose;
  }

  /**
   A tick stops a child whose grant has run out before it took the terminal, hands the terminal to
   a proven child at an input boundary, and sends what is due.
   */
  lemma TickTells(s: State, now: R.Time, b: Boundary)
    requires Inv(s) && Waiting(s)
    ensures
      var t := Step(s, TickOp(now, b)).state;
      && t.inFlight.Some?
      && if s.grant.deadline <= now || (s.proved && (s.grant.deadline <= b.now || Breaks(b.backlog))) then Stopped(s, t)
         else if !s.proved || !AtBoundary(s.gate, b.backlog, b.drained) then StillWaiting(s, t) && t.proved == s.proved
         else if b.drawn then HandedOver(s, t)
         else Stopped(s, t)
  {
    hide *;
    WaitingIs(s);
    TickIs(s, now, b);
    SendExchanges(Open(s, b));
    ExchangeGoesOn(Open(s, b), Send(Open(s, b)));
    if s.grant.deadline <= now {
      SameGate(s);
      LoseStops(s, s.gate);
      StoppedStays(s, Lose(s), b);
      SentIsStopped(s, Lose(s));
      ExchangeGoesOn(Lose(s), Send(Lose(s)));
    } else if s.proved {
      ProvenChild(s, b);
      TickedChild(s, Open(s, b));
    } else {
      UnprovenWaits(s, b);
      SentIsWaiting(s, s);
    }
  }

  lemma TickedChild(s: State, t: State)
    ensures Stopped(s, t) ==> Stopped(s, Send(t))
    ensures StillWaiting(s, t) ==> StillWaiting(s, Send(t)) && Send(t).proved == t.proved
    ensures HandedOver(s, t) ==> HandedOver(s, Send(t))
  {
    hide *;
    if Stopped(s, t) {
      SentIsStopped(s, t);
    }
    if StillWaiting(s, t) {
      SentIsWaiting(s, t);
    }
    if HandedOver(s, t) {
      SentIsHandedOver(s, t);
    }
  }

  lemma ExchangeGoesOn(s: State, t: State)
    requires Exchanging(s, t)
    ensures t.inFlight.Some?
  {
  }

  /** A child told to stop stays so until it is reaped, and a late one is never handed the terminal. */
  lemma StoppingStays(s: State, now: R.Time, b: Boundary)
    requires s.running && s.child.Some? && s.stopping && s.gate.generation == 0
    ensures
      var t := Step(s, TickOp(now, b)).state;
      && t.stopping && t.child == s.child && t.gate.generation == 0 && t.slot == s.slot && t.reports == s.reports
      && t.inFlight.Some?
  {
    hide *;
    TickIs(s, now, b);
    var u := if s.grant.deadline <= now then Lose(s) else s;
    SameGate(s);
    LoseStops(s, s.gate);
    if s.grant.deadline <= now {
      StoppedIs(s, Lose(s));
    }
    OpenWhileStopping(u, b);
    SendExchanges(u);
    ExchangeGoesOn(u, Send(u));
  }

  lemma OpenWhileStopping(s: State, b: Boundary)
    requires s.stopping
    ensures Open(s, b) == s
  {
  }

  /** Whatever the state, a tick and an admission poll send what is due unless an exchange is under way. */
  lemma IdleLoopAsks(s: State, now: R.Time, b: Boundary)
    requires s.running && (s.child.None? || s.gate.generation != 0)
    ensures
      var t := Step(s, TickOp(now, b)).state;
      t == s.(inFlight := t.inFlight, retry := t.retry) && Exchanging(s, t)
  {
    hide *;
    TickIs(s, now, b);
    OpenStays(s, b);
    SendExchanges(s);
  }

  lemma PollAsks(s: State)
    requires s.running
    ensures
      var t := Step(s, PollOp).state;
      t == s.(inFlight := t.inFlight, retry := t.retry) && Exchanging(s, t)
  {
    PollIs(s);
    hide *;
    SendExchanges(s);
  }

  lemma PollIs(s: State)
    requires s.running
    ensures Step(s, PollOp).state == Send(s)
  {
    hide Send;
  }

  // ---------------------------------------------------------------- the end of a child

  /**
   When a child is reaped its slot is given back and no attachment takes input.  A detach ends the
   loop; anything else queues the loss of its attempt behind a ready report not yet heard of, and
   sends the oldest report.
   */
  lemma DoneTells(s: State, detached: bool)
    requires Inv(s) && s.running && s.child.Some?
    ensures
      var t := Step(s, DoneOp(detached)).state;
      && t.child.None? && !t.slot && !t.ready && t.gate.generation == 0 && t.queue == s.queue && t.taken == s.taken
      && t.running == !detached
      && t.reports == (if detached then s.reports else s.reports + [Report(s.attempt, R.LostEvent)])
      && (!detached ==>
            && t.inFlight.Some? && (s.inFlight.Some? ==> t.inFlight == s.inFlight)
            && (s.inFlight.None? ==>
                  t.inFlight == Some(Message(
                    s.attempt, if s.reports == [] then R.LostEvent else R.ReadyEvent,
                    if s.checking then R.Checking else R.Offline, s.retry))))
  {
    hide IG.GateInv;
  }

  // ---------------------------------------------------------------- keys

  lemma InputIs(s: State, n: nat, written: bool, b: Boundary)
    requires s.running && 0 < n <= |s.queue| && SameOrigin(s.queue[..n])
    ensures
      var t := s.(queue := s.queue[n..], taken := s.taken + n);
      var item := s.queue[..n];
      var o := Step(s, InputOp(n, written, b));
      && o.started.None?
      && if s.child.Some? && s.gate.generation != 0 && item[0].generation == s.gate.generation then
           && o.state == Open(if written then t else Lose(t), b)
           && o.written == Some(Typed(s.child.value, s.gate.generation, s.taken, item))
         else if s.gate.generation == 0 && item[0].generation == 0 && !item[0].paste && HasEnter(item) then
           o.state == Open(Send(t.(retry := true)), b) && o.written.None?
         else o.state == Open(t, b) && o.written.None?
  {
    hide Open;
    hide Send;
    hide Lose;
    hide HasEnter;
    hide SameOrigin;
  }

  /** Bytes of the open generation are written to its child, and the child is stopped if that fails. */
  lemma TypingReachesTheChild(s: State, n: nat, written: bool, b: Boundary)
    requires s.running && s.child.Some? && s.gate.generation != 0
    requires 0 < n <= |s.queue| && SameOrigin(s.queue[..n]) && s.queue[0].generation == s.gate.generation
    ensures
      var o := Step(s, InputOp(n, written, b));
      var t := s.(queue := s.queue[n..], taken := s.taken + n);
      && o.written == Some(Typed(s.child.value, s.gate.generation, s.taken, s.queue[..n]))
      && if written then o.state == t else Stopped(t, o.state)
  {
    assert s.queue[..n][0] == s.queue[0];
    hide *;
    InputIs(s, n, written, b);
    var t := s.(queue := s.queue[n..], taken := s.taken + n);
    SameGate(t);
    LoseStops(t, t.gate);
    OpenStays(t, b);
    StoppedStays(t, Lose(t), b);
  }

  /** Enter, typed while no attachment takes input, asks for a retry: in the exchange begun now, or the next one. */
  lemma EnterRetries(s: State, n: nat, written: bool, b: Boundary)
    requires s.running && s.child.None? && s.gate.generation == 0
    requires 0 < n <= |s.queue| && SameOrigin(s.queue[..n])
    requires s.queue[0].generation == 0 && !s.queue[0].paste
    requires exists i :: 0 <= i < n && s.queue[i].b in {10, 13}
    ensures
      var o := Step(s, InputOp(n, written, b));
      && o.written.None? && o.state.inFlight.Some? && o.state.queue == s.queue[n..]
      && if s.inFlight.Some? then o.state.inFlight == s.inFlight && o.state.retry
         else o.state.inFlight == Some(Due(s.(retry := true)))
  {
    assert s.queue[..n][0] == s.queue[0];
    EnterIsThere(s, n);
    hide *;
    InputIs(s, n, written, b);
    var t := s.(queue := s.queue[n..], taken := s.taken + n);
    SendExchanges(t.(retry := true));
    DueIs(s, t);
    OpenStays(Send(t.(retry := true)), b);
    Asked(t.(retry := true), Send(t.(retry := true)));
  }

  lemma EnterIsThere(s: State, n: nat)
    requires 0 < n <= |s.queue| && exists i :: 0 <= i < n && s.queue[i].b in {10, 13}
    ensures HasEnter(s.queue[..n])
  {
    var i :| 0 <= i < n && s.queue[i].b in {10, 13};
    assert s.queue[..n][i] == s.queue[i];
  }

  lemma DueIs(s: State, t: State)
    requires t == s.(queue := t.queue, taken := t.taken)
    ensures Due(t.(retry := true)) == Due(s.(retry := true))
  {
  }

  lemma Asked(s: State, t: State)
    requires Exchanging(s, t)
    ensures if s.inFlight.Some? then t.inFlight == s.inFlight && t.retry == s.retry else t.inFlight == Some(Due(s))
  {
  }

  /** Every other byte is dropped; taking it may still find the boundary a proven child waits for. */
  lemma OtherInputIsDropped(s: State, n: nat, written: bool, b: Boundary)
    requires Inv(s) && Waiting(s) && s.proved && 0 < n <= |s.queue| && SameOrigin(s.queue[..n])
    requires s.queue[0].generation != 0 || s.queue[0].paste || forall i :: 0 <= i < n ==> s.queue[i].b !in {10, 13}
    ensures
      var o := Step(s, InputOp(n, written, b));
      var t := s.(queue := s.queue[n..], taken := s.taken + n);
      && o.written.None?
      && if s.grant.deadline <= b.now || Breaks(b.backlog) then Stopped(t, o.state)
         else if !AtBoundary(s.gate, b.backlog, b.drained) then StillWaiting(t, o.state)
         else if b.drawn then HandedOver(t, o.state)
         else Stopped(t, o.state)
  {
    assert s.queue[..n][0] == s.queue[0];
    EnterIsElsewhere(s, n);
    hide *;
    WaitingIs(s);
    InputIs(s, n, written, b);
    TakenKeeps(s, n);
    var t := s.(queue := s.queue[n..], taken := s.taken + n);
    TakenWaits(s, t);
    ProvenChild(t, b);
  }

  lemma EnterIsElsewhere(s: State, n: nat)
    requires 0 < n <= |s.queue|
    ensures (forall i :: 0 <= i < n ==> s.queue[i].b !in {10, 13}) ==> !HasEnter(s.queue[..n])
  {
    forall t <- s.queue[..n] ensures exists i :: 0 <= i < n && s.queue[i] == t {
      var i :| 0 <= i < n && s.queue[..n][i] == t;
      assert s.queue[i] == t;
    }
  }

  lemma TakenWaits(s: State, t: State)
    requires Waiting(s) && t == s.(queue := t.queue, taken := t.taken)
    ensures Waiting(t)
  {
  }

  /**
   The text of another local process is written exactly when that process saw this client, this
   attempt and the generation that is open; a write that fails stops the child.
   */
  lemma PasteTells(s: State, origin: Origin, text: Bytes, written: bool)
    requires s.running
    ensures
      var o := Step(s, PasteOp(origin, text, written));
      && o.started.None?
      && if s.child.Some? && s.gate.generation != 0 && origin.client == s.client
            && origin.attempt == s.grant.attempt && origin.generation == s.gate.generation
         then
           && o.written == Some(Pasted(s.child.value, s.gate.generation, origin, text))
           && if written then o.state == s else Stopped(s, o.state)
         else o.written.None? && o.state == s
  {
    SameGate(s);
    LoseStops(s, s.gate);
    hide Lose;
    hide Stopped;
  }

  /** When the loop is told to stop, nothing of the child is left, and nothing happens any more. */
  lemma StopTells(s: State, op: Op)
    requires s.running
    ensures
      var t := Step(s, StopOp).state;
      !t.running && t.child.None? && !t.slot && t.gate.generation == 0 && Step(t, op) == Outcome(t, None, None)
  {
    StopIs(s);
    var t := Exit(s);
    assert !Enabled(t, op) by {
      hide SameOrigin;
    }
    hide Exit;
    DisabledIs(t, op);
  }

  lemma StopIs(s: State)
    requires s.running
    ensures Step(s, StopOp) == Just(Exit(s))
  {
    hide Exit;
  }

  lemma DisabledIs(s: State, op: Op)
    requires !Enabled(s, op)
    ensures Step(s, op) == Outcome(s, None, None)
  {
    hide Enabled;
    hide Tick;
    hide Send;
    hide Packet;
    hide Done;
    hide Answered;
    hide Input;
    hide Paste;
    hide Receive;
    hide Exit;
  }

  /** A loop begins by asking for a grant, with nothing to report. */
  lemma StartTells(client: string, attempt: string)
    ensures
      var t := Started(client, attempt);
      && t.running && t.child.None? && !t.slot && t.reports == [] && t.gate.generation == 0 && t.queue == []
      && t.inFlight == Some(Message(attempt, R.NoEvent, R.Offline, false))
  {
  }

  // ---------------------------------------------------------------- replies

  lemma AnswerIs(s: State, a: Answer)
    requires s.running && s.inFlight.Some?
    ensures Step(s, AnswerOp(a)) == Answered(s, a)
  {
    hide Answered;
  }

  /** A failed exchange changes nothing but that it is over; a wish for a retry is kept. */
  lemma FailedExchange(s: State, a: Answer)
    requires s.running && s.inFlight.Some? && a.reply.Err?
    ensures
      var o := Step(s, AnswerOp(a));
      && o.state == s.(inFlight := None, retry := s.retry || s.inFlight.value.retry)
      && o.started.None? && o.written.None?
  {
  }

  /**
   The state when a reply has been taken for what it answers: a report it acknowledges is gone, and
   after a loss the next attempt has a fresh identifier; None when there is none to be had.
   */
  function Acknowledged(s: State, renewed: Option<string>): Option<State>
    requires s.inFlight.Some?
  {
    var m := s.inFlight.value;
    if m.event == R.NoEvent || s.reports == [] || s.reports[0] != Report(m.attempt, m.event) then
      Some(s.(inFlight := None))
    else if m.event != R.LostEvent then Some(s.(inFlight := None, reports := s.reports[1..]))
    else if renewed.None? then None
    else Some(s.(inFlight := None, reports := s.reports[1..], grant := R.Grant("", 0), attempt := renewed.value))
  }

  lemma AcknowledgedIs(s: State, renewed: Option<string>)
    requires s.inFlight.Some?
    ensures Acknowledge(s.(inFlight := None), s.inFlight.value, renewed) == Acknowledged(s, renewed)
  {
    hide SameInput;
  }

  /** What there is to report or to retry is sent at once, after an answered exchange. */
  ghost predicate SentIfDue(u: State, t: State) {
    if u.reports != [] || u.retry then t == u.(inFlight := Some(Due(u)), retry := false) else t == u
  }

  lemma SendIfNeededIs(u: State)
    requires u.inFlight.None?
    ensures SentIfDue(u, SendIfNeeded(u))
  {
    SendIs(u);
    hide Send;
    hide Due;
  }

  /** The loop is over and the child with it. */
  ghost predicate Over(t: State) {
    !t.running && t.child.None? && !t.slot && t.gate.generation == 0
  }

  lemma ExitIsOver(s: State)
    ensures Over(Exit(s))
  {
  }

  lemma HeedWithChild(u: State, reply: R.Reply)
    requires Inv(u) && u.running && u.child.Some? && u.inFlight.None?
    ensures
      var v := Heed(u, reply);
      && v.inFlight.None? && v.child.Some?
      && if reply.cancelAttempt == u.attempt || (reply.reset && u.gate.generation == 0) then Stopped(u, v) else v == u
  {
    ChildRunsTheAttempt(u);
    hide Inv;
    SameGate(u);
    LoseStops(u, u.gate);
    hide Stopped;
    LosesAgain(u);
    hide Lose;
  }

  lemma ChildRunsTheAttempt(u: State)
    requires Inv(u) && u.child.Some?
    ensures u.grant.attempt == u.attempt
  {
  }

  lemma LosesAgain(u: State)
    ensures
      var v := Lose(u);
      Lose(v) == v && v.inFlight == u.inFlight && v.child == u.child && v.gate.generation == 0
  {
  }

  lemma HeedWithoutChild(u: State, reply: R.Reply)
    requires Inv(u) && u.running && u.child.None? && u.inFlight.None?
    ensures
      Heed(u, reply) ==
        if reply.reset && u.reports == [] then
          u.(grant := R.Grant("", 0),
             reports := if reply.cancelAttempt == u.attempt then [Report(u.attempt, R.LostEvent)] else [])
        else u
  {
    hide IG.GateInv;
  }

  lemma NotAccepted(u: State, m: Message, reply: R.Reply, a: Answer)
    requires u.inFlight.None? && (u.child.Some? || !Accepts(u, m, reply))
    ensures
      var o := Grantable(u, m, reply, a);
      o.started.None? && o.written.None? && SentIfDue(u, o.state)
  {
    SendIfNeededIs(u);
    hide SendIfNeeded;
    hide SentIfDue;
    hide Exit;
    hide Launch;
    hide Send;
  }

  lemma SentAfterStop(u: State, v: State, t: State)
    requires Stopped(u, v) && SentIfDue(v, t)
    ensures Stopped(u, t)
  {
    hide Due;
  }

  /** A grant is acceptable: for the current attempt, asked for without an event, with nothing else going on. */
  ghost predicate Acceptable(u: State, m: Message, reply: R.Reply) {
    && reply.grant.Some? && reply.grant.value.attempt == u.attempt && R.Hex32(u.attempt)
    && !reply.reset && m.event == R.NoEvent && u.child.None? && u.reports == [] && u.grant.attempt == ""
  }

  lemma AcceptableIs(u: State, m: Message, reply: R.Reply)
    ensures Acceptable(u, m, reply) <==> Accepts(u, m, reply)
  {
    hide R.Hex32;
  }

  /** What an acceptable grant sets in motion. */
  ghost predicate Granted(u: State, g: R.Grant, a: Answer, o: Outcome) {
    var t := o.state;
    var lost := [Report(u.attempt, R.LostEvent)];
    if g.deadline <= a.now then o.started.None? && SentIfDue(u.(reports := lost), t)
    else if !a.planned then o.started.None? && Over(t)
    else if a.permit && a.spawned then
      && o.started == Some(u.attempt)
      && t == u.(child := Some(u.attempt), slot := true, grant := g, startup := 0, stopping := false, proved := false,
                 ready := false, inFlight := t.inFlight, retry := t.retry)
    else
      && o.started.None?
      && SentIfDue(u.(slot := false, reports := lost, grant := g, startup := 0, stopping := false, proved := false,
                      ready := false), t)
  }

  lemma LateGrant(u: State, m: Message, reply: R.Reply, a: Answer)
    requires u.inFlight.None? && Accepts(u, m, reply) && reply.grant.value.deadline <= a.now
    ensures Granted(u, reply.grant.value, a, Grantable(u, m, reply, a))
  {
    var v := u.(reports := [Report(u.attempt, R.LostEvent)]);
    assert u.reports + [Report(u.attempt, R.LostEvent)] == v.reports;
    SendIs(v);
    hide Send;
    hide Due;
    hide Launch;
    hide Exit;
    hide SendIfNeeded;
    hide ValidAttempt;
  }

  lemma TimelyGrant(u: State, m: Message, reply: R.Reply, a: Answer)
    requires u.inFlight.None? && Accepts(u, m, reply) && a.now < reply.grant.value.deadline
    ensures Granted(u, reply.grant.value, a, Grantable(u, m, reply, a))
  {
    var g := reply.grant.value;
    var v := Launch(u, g, a.permit, a.spawned);
    ExitIsOver(u);
    LaunchIs(u, g, a.permit, a.spawned);
    assert v.inFlight.None?;
    SendIfNeededIs(v);
    hide Send;
    hide Due;
    hide Launch;
    hide Exit;
    hide SendIfNeeded;
    hide ValidAttempt;
  }

  lemma LaunchIs(u: State, g: R.Grant, permit: bool, spawned: bool)
    requires u.reports == []
    ensures
      Launch(u, g, permit, spawned) ==
        if permit && spawned then
          u.(child := Some(g.attempt), slot := true, grant := g, startup := 0, stopping := false, proved := false, ready := false)
        else
          u.(slot := false, reports := [Report(g.attempt, R.LostEvent)], grant := g, startup := 0, stopping := false,
             proved := false, ready := false)
  {
    hide SameInput;
  }

  lemma AcceptedIsGranted(u: State, m: Message, reply: R.Reply, a: Answer)
    requires u.inFlight.None? && Acceptable(u, m, reply)
    ensures reply.grant.Some? && Granted(u, reply.grant.value, a, Grantable(u, m, reply, a))
  {
    AcceptableIs(u, m, reply);
    AcceptedGrant(u, m, reply);
    hide *;
    if reply.grant.value.deadline <= a.now {
      LateGrant(u, m, reply, a);
    } else {
      TimelyGrant(u, m, reply, a);
    }
  }

  lemma AcceptedGrant(u: State, m: Message, reply: R.Reply)
    requires Accepts(u, m, reply)
    ensures reply.grant.Some?
  {
  }

  /**
   What an answer sets in motion, after what it acknowledges: the end of the loop, the end of a child
   whose attempt is cancelled or reset, the release of an attempt the coordinator holds without a
   child, the start of a granted child, or only the next exchange.
   */
  ghost predicate Follows(u: State, m: Message, v: R.Reply, a: Answer, o: Outcome) {
    var t := o.state;
    if v.ended then Over(t) && o.started.None?
    else if u.child.Some? then
      && o.started.None?
      && if v.cancelAttempt == u.attempt || (v.reset && u.gate.generation == 0) then Stopped(u, t) else SentIfDue(u, t)
    else if v.reset && u.reports == [] then
      && o.started.None?
      && SentIfDue(u.(grant := R.Grant("", 0),
                      reports := if v.cancelAttempt == u.attempt then [Report(u.attempt, R.LostEvent)] else []), t)
    else if Acceptable(u, m, v) && v.grant.Some? then Granted(u, v.grant.value, a, o)
    else o.started.None? && SentIfDue(u, t)
  }

  lemma WithChild(u: State, m: Message, v: R.Reply, a: Answer)
    requires Inv(u) && u.running && u.child.Some? && u.inFlight.None? && !v.ended
    ensures Follows(u, m, v, a, Grantable(Heed(u, v), m, v, a))
  {
    HeedWithChild(u, v);
    NotAccepted(Heed(u, v), m, v, a);
    var t := Grantable(Heed(u, v), m, v, a).state;
    if v.cancelAttempt == u.attempt || (v.reset && u.gate.generation == 0) {
      SentAfterStop(u, Heed(u, v), t);
    }
    hide Inv;
    hide Heed;
    hide Grantable;
    hide Stopped;
    hide SentIfDue;
    hide Granted;
    hide Acceptable;
    hide Over;
  }

  lemma WithoutChild(u: State, m: Message, v: R.Reply, a: Answer)
    requires Inv(u) && u.running && u.child.None? && u.inFlight.None? && !v.ended
    ensures Follows(u, m, v, a, Grantable(Heed(u, v), m, v, a))
  {
    HeedWithoutChild(u, v);
    AcceptableIs(u, m, v);
    hide Inv;
    hide Heed;
    hide Grantable;
    hide SentIfDue;
    hide Granted;
    hide Over;
    hide R.Hex32;
    if v.reset || !Acceptable(u, m, v) {
      NotAccepted(Heed(u, v), m, v, a);
    } else {
      AcceptedIsGranted(u, m, v, a);
    }
  }

  lemma EndedIs(u: State, m: Message, v: R.Reply, a: Answer)
    requires v.ended
    ensures Follows(u, m, v, a, Just(Exit(u)))
  {
    ExitIsOver(u);
    hide Exit;
    hide Over;
  }

  /** Every reply of the coordinator is followed by exactly what it calls for. */
  lemma AnswerTells(s: State, a: Answer)
    requires Inv(s) && s.running && s.inFlight.Some? && a.reply.Ok? && (a.renewed.Some? ==> a.renewed.value != "")
    ensures
      var o := Step(s, AnswerOp(a));
      var u := Acknowledged(s, a.renewed);
      if u.None? then Over(o.state) && o.started.None?
      else Follows(u.value.(checking := a.reply.value.checking), s.inFlight.value, a.reply.value, a, o)
  {
    hide *;
    AnswerIs(s, a);
    AcknowledgedIs(s, a.renewed);
    IdleKeeps(s);
    AcknowledgeKeeps(s.(inFlight := None), s.inFlight.value, a.renewed);
    AcknowledgedIdle(s, a.renewed);
    if Acknowledged(s, a.renewed).None? {
      NoFreshAttempt(s, a);
      ExitIsOver(s.(inFlight := None));
    } else {
      var acked := Acknowledged(s, a.renewed).value;
      var u := acked.(checking := a.reply.value.checking);
      CheckingKeeps(acked, a.reply.value.checking);
      AnsweredCases(s, a);
      if a.reply.value.ended {
        EndedIs(u, s.inFlight.value, a.reply.value, a);
      } else if u.child.Some? {
        WithChild(u, s.inFlight.value, a.reply.value, a);
      } else {
        WithoutChild(u, s.inFlight.value, a.reply.value, a);
      }
    }
  }

  lemma IdleKeeps(s: State)
    requires Inv(s)
    ensures Inv(s.(inFlight := None))
  {
    hide IG.GateInv;
  }

  lemma AcknowledgedIdle(s: State, renewed: Option<string>)
    requires s.inFlight.Some?
    ensures
      Acknowledged(s, renewed).Some? ==>
        var u := Acknowledged(s, renewed).value;
        u.inFlight.None? && u.running == s.running
  {
    var u := Acknowledged(s, renewed);
    if u.Some? {
      var t := s.(inFlight := None, reports := u.value.reports, grant := u.value.grant, attempt := u.value.attempt);
      assert u.value == t;
    }
  }

  lemma NoFreshAttempt(s: State, a: Answer)
    requires s.inFlight.Some? && a.reply.Ok?
    requires Acknowledge(s.(inFlight := None), s.inFlight.value, a.renewed).None?
    ensures Answered(s, a) == Just(Exit(s.(inFlight := None))) == Outcome(Exit(s.(inFlight := None)), None, None)
  {
    hide Acknowledge;
    hide Exit;
    hide Heed;
    hide Grantable;
  }

  // ---------------------------------------------------------------- the reader

  /** Everything the gate still holds or is inside of was begun while generation `e` was open. */
  ghost predicate Current(g: IG.Gate, e: nat) {
    && g.generation == e
    && (g.prefix != [] ==> g.prefixGeneration == e)
    && (g.paste ==> g.pasteGeneration == e)
  }

  ghost predicate AllTagged(ts: seq<IG.Tagged>, e: nat) {
    forall t <- ts :: t.generation == e
  }

  lemma {:induction false} SettleIsCurrent(g: IG.Gate, e: nat)
    requires Current(g, e)
    ensures Current(IG.Settle(g).gate, e) && AllTagged(IG.Settle(g).out, e)
    decreases |g.prefix|
  {
    hide IG.Target;
    if g.prefix != [] {
      if g.prefix <= IG.Target(g.paste) {
        if |g.prefix| == |IG.Target(g.paste)| {
          IG.SettleFull(g);
        } else {
          IG.SettleHold(g);
        }
      } else {
        IG.SettleByte(g);
        hide IG.Settle;
        SettleIsCurrent(g.(prefix := g.prefix[1..]), e);
      }
    }
  }

  lemma {:induction false} DecodeIsCurrent(g: IG.Gate, keys: seq<IG.Key>, e: nat)
    requires Current(g, e)
    ensures Current(IG.Decode(g, keys).gate, e) && AllTagged(IG.Decode(g, keys).out, e)
    decreases |keys|
  {
    if keys != [] {
      SettleIsCurrent(IG.Join(g, keys[0]), e);
      IG.DecodeMore(g, keys);
      var h := IG.Push(g, keys[0]).gate;
      assert Current(h, e);
      hide IG.Settle;
      hide IG.Decode;
      hide Current;
      DecodeIsCurrent(h, keys[1..], e);
    }
  }

  lemma FlushIsCurrent(g: IG.Gate, at: IG.Time, e: nat)
    requires Current(g, e)
    ensures Current(IG.FlushPrefix(g, at).gate, e) && AllTagged(IG.FlushPrefix(g, at).out, e)
    ensures IG.Unmark(IG.Marks(IG.FlushPrefix(g, at).out)) + IG.FlushPrefix(g, at).gate.prefix == g.prefix
  {
  }

  lemma DecodeKeepsBytes(g: IG.Gate, keys: seq<IG.Key>)
    requires IG.GateInv(g)
    ensures
      var d := IG.Decode(g, keys);
      IG.Unmark(IG.Marks(d.out)) + d.gate.prefix == g.prefix + IG.Typed(keys)
  {
    hide IG.Scan;
    hide IG.Decode;
    IG.DecodeScans(g, keys);
    IG.ScanKeepsBytes(g.prefix + IG.Typed(keys), g.paste);
  }

  lemma FlushedGate(g: IG.Gate, at: IG.Time)
    requires IG.GateInv(g)
    ensures IG.GateInv(IG.FlushPrefix(g, at).gate)
  {
  }

  lemma BytesJoin(a: seq<IG.Tagged>, b: seq<IG.Tagged>, held: Bytes)
    ensures IG.Unmark(IG.Marks(a + b)) + held == IG.Unmark(IG.Marks(a)) + (IG.Unmark(IG.Marks(b)) + held)
  {
  }

  lemma CurrentJoin(a: seq<IG.Tagged>, b: seq<IG.Tagged>, e: nat)
    requires AllTagged(a, e) && AllTagged(b, e)
    ensures AllTagged(a + b, e)
  {
  }

  /**
   From the moment the terminal is handed over, what is read is queued under the open generation,
   with no byte lost: what is queued and what is held are what was held and what was typed.
   */
  lemma ReadingIsCurrent(s: State, keys: seq<IG.Key>, at: IG.Time)
    requires Inv(s) && s.running && Current(s.gate, s.gate.generation)
    ensures
      var t := Step(s, ReadOp(keys, at)).state;
      && t == s.(gate := t.gate, queue := t.queue) && s.queue <= t.queue
      && var read := t.queue[|s.queue|..];
         && AllTagged(read, s.gate.generation) && Current(t.gate, s.gate.generation)
         && IG.Unmark(IG.Marks(read)) + t.gate.prefix == s.gate.prefix + IG.Typed(keys)
  {
    hide *;
    ReadIs(s, keys, at);
    GateIsSound(s);
    var e := s.gate.generation;
    var flushed := IG.FlushPrefix(s.gate, at);
    var decoded := IG.Decode(flushed.gate, keys);
    FlushIsCurrent(s.gate, at, e);
    FlushedGate(s.gate, at);
    DecodeIsCurrent(flushed.gate, keys, e);
    DecodeKeepsBytes(flushed.gate, keys);
    CurrentJoin(flushed.out, decoded.out, e);
    BytesJoin(flushed.out, decoded.out, decoded.gate.prefix);
    Regroup(IG.Unmark(IG.Marks(flushed.out)), flushed.gate.prefix, IG.Typed(keys));
    assert (s.queue + (flushed.out + decoded.out))[|s.queue|..] == flushed.out + decoded.out;
  }

  lemma ReadIs(s: State, keys: seq<IG.Key>, at: IG.Time)
    requires s.running
    ensures
      var flushed := IG.FlushPrefix(s.gate, at);
      var decoded := IG.Decode(flushed.gate, keys);
      Step(s, ReadOp(keys, at)).state == s.(gate := decoded.gate, queue := s.queue + (flushed.out + decoded.out))
  {
    hide IG.FlushPrefix;
    hide IG.Decode;
  }

  /** A terminal just handed over holds nothing of before. */
  lemma HandedOverIsCurrent(s: State, t: State)
    requires HandedOver(s, t)
    ensures Current(t.gate, t.gate.generation)
  {
  }

  /** A held beginning of a paste delimiter is let through once it is 30 milliseconds old, and not before. */
  lemma HeldBytesComeLate(s: State, at: IG.Time)
    requires s.running
    ensures
      var t := Step(s, FlushOp(at)).state;
      if s.gate.prefix != [] && at - s.gate.prefixAt >= 30_000_000 then
        && t.gate == s.gate.(prefix := [])
        && t.queue == s.queue + IG.TagAll(s.gate.prefix, s.gate.prefixGeneration, s.gate.paste)
      else t.gate == s.gate && t.queue == s.queue
  {
    assert s.queue + [] == s.queue;
  }
}
