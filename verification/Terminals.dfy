/**
 Whole runs of one terminal: what is typed, and what another process asks to type, only
 reaches the attachment it was meant for.
 */
module Terminals {
  import opened Wrappers
  import R = Recovery
  import IG = InputGate
  import opened Bytes
  import opened Supervisor

  // ---------------------------------------------------------------- input and generations

  function Decoded(s: State): nat { s.taken + |s.queue| }

  /** Generations are only ever added, each for the input decoded after it, and none reopens. */
  ghost predicate Grows(s: State, t: State) {
    && Decoded(s) <= Decoded(t) && s.gate.next <= t.gate.next && t.client == s.client
    && (t.gate.generation in {s.gate.generation, 0} || t.gate.generation > s.gate.next)
    && (forall g <- s.opens :: g in t.opens && t.opens[g] == s.opens[g])
    && (forall g <- t.opens :: g !in s.opens ==> t.opens[g].at >= Decoded(s))
  }

  lemma GrowsTwice(s: State, t: State, u: State)
    requires Grows(s, t) && Grows(t, u)
    ensures Grows(s, u)
  {
  }

  lemma SameInputGrows(s: State, t: State)
    requires SameInput(s, t)
    ensures Grows(s, t)
  {
  }

  lemma OpenedGrows(s: State, g: IG.Gate, drawn: bool)
    requires InputInv(s) && s.child.Some? && g.generation == g.next == s.gate.next + 1
    ensures Grows(s, Opened(s, g, drawn))
  {
    hide IG.GateInv;
    var t := s.(gate := g, startup := 0,
                opens := s.opens[g.generation := Opening(s.child.value, s.taken + |s.queue|)]);
    assert g.generation !in s.opens;
    assert Grows(s, t);
    OpenedSameInput(s, g, drawn);
    hide *;
    SameInputGrows(t, Opened(s, g, drawn));
    GrowsTwice(s, t, Opened(s, g, drawn));
  }

  lemma OpenedSameInput(s: State, g: IG.Gate, drawn: bool)
    requires s.child.Some?
    ensures
      var t := s.(gate := g, startup := 0,
                  opens := s.opens[g.generation := Opening(s.child.value, s.taken + |s.queue|)]);
      SameInput(t, Opened(s, g, drawn))
  {
    hide Lose;
    hide Send;
  }

  lemma OpenGrows(s: State, b: Boundary)
    requires Inv(s)
    ensures Grows(s, Open(s, b))
  {
    GateIsSound(s);
    InvIs(s);
    IG.OpenIsFresh(s.gate, b.backlog, b.drained);
    hide Inv;
    hide InputInv;
    hide IG.OpenGate;
    hide IG.GateInv;
    hide Opened;
    hide Grows;
    SameInputGrows(s, s);
    SameInputGrows(s, Lose(s));
    var (g, result) := IG.OpenGate(s.gate, b.backlog, b.drained);
    if result == IG.Opened {
      if s.child.Some? {
        OpenedGrows(s, g, b.drawn);
      }
    } else {
      SameInputGrows(s, s.(gate := g));
      SameInputGrows(s, Lose(s.(gate := g)));
    }
  }

  lemma OpenAfterGrows(s: State, t: State, b: Boundary)
    requires Inv(t) && Grows(s, t)
    ensures Grows(s, Open(t, b))
  {
    OpenGrows(t, b);
    GrowsTwice(s, t, Open(t, b));
  }

  lemma PacketGrows(s: State, size: nat, events: seq<bool>, shown: bool, b: Boundary)
    requires Inv(s)
    ensures Grows(s, Packet(s, size, events, shown, b))
  {
    var u := s.(startup := s.startup + size);
    StartupKeeps(s, size);
    PacketCases(s, size, events, shown, b);
    SameInputTwice(s, Lose(s), Proof(Lose(s), events));
    SameInputTwice(s, u, Proof(u, events));
    hide *;
    LoseKeeps(s);
    ProofKeeps(s, events);
    ProofKeeps(Lose(s), events);
    ProofKeeps(u, events);
    SameInputGrows(s, Proof(s, events));
    SameInputGrows(s, Proof(Lose(s), events));
    SameInputGrows(s, Proof(u, events));
    OpenAfterGrows(s, Proof(s, events), b);
    OpenAfterGrows(s, Proof(Lose(s), events), b);
    OpenAfterGrows(s, Proof(u, events), b);
  }

  lemma SameInputTwice(s: State, t: State, u: State)
    requires SameInput(s, t) && SameInput(t, u)
    ensures SameInput(s, u)
  {
  }

  lemma TickGrows(s: State, now: R.Time, b: Boundary)
    requires Inv(s)
    ensures Grows(s, Tick(s, now, b))
  {
    var t := if s.child.Some? && s.gate.generation == 0 && now >= s.grant.deadline then Lose(s) else s;
    assert Tick(s, now, b) == Send(Open(t, b));
    hide *;
    LoseKeeps(s);
    SameInputSelf(s);
    SameInputGrows(s, t);
    OpenAfterGrows(s, t, b);
    SameInputGrows(Open(t, b), Send(Open(t, b)));
    GrowsTwice(s, Open(t, b), Send(Open(t, b)));
  }

  lemma SameInputSelf(s: State)
    ensures SameInput(s, s)
  {
  }

  lemma InputGrows(s: State, n: nat, written: bool, b: Boundary)
    requires Inv(s) && 0 < n <= |s.queue| && SameOrigin(s.queue[..n])
    ensures Grows(s, Input(s, n, written, b).state)
  {
    var t := s.(queue := s.queue[n..], taken := s.taken + n);
    var asked := t.(retry := true);
    assert Grows(s, t) && Grows(s, asked);
    TakenKeeps(s, n);
    RetryKeeps(t);
    InputCases(s, n, written, b);
    hide *;
    LoseKeeps(t);
    SendKeeps(asked);
    SameInputGrows(t, Lose(t));
    GrowsTwice(s, t, Lose(t));
    SameInputGrows(asked, Send(asked));
    GrowsTwice(s, asked, Send(asked));
    OpenAfterGrows(s, t, b);
    OpenAfterGrows(s, Lose(t), b);
    OpenAfterGrows(s, Send(asked), b);
  }

  lemma ReceiveGrows(s: State, op: IG.Op)
    requires Inv(s) && (op.Read? || op.Flush?)
    ensures Grows(s, Receive(s, op))
  {
    GateIsSound(s);
    GateApplied(s.gate, op);
    hide Inv;
    hide IG.Apply;
    hide IG.GateInv;
  }

  lemma StepGrows(s: State, op: Op)
    requires Inv(s)
    ensures Grows(s, Step(s, op).state)
  {
    hide Inv;
    hide Grows;
    hide Tick;
    hide Send;
    hide Packet;
    hide Done;
    hide Answered;
    hide Input;
    hide Paste;
    hide Receive;
    hide Exit;
    hide SameOrigin;
    hide SameInput;
    SameInputSelf(s);
    SameInputGrows(s, s);
    if Enabled(s, op) {
      match op
      case TickOp(now, b) => TickGrows(s, now, b);
      case PollOp => SameInputGrows(s, Send(s));
      case PacketOp(size, events, shown, b) => PacketGrows(s, size, events, shown, b);
      case DoneOp(detached) => SameInputGrows(s, Done(s, detached));
      case AnswerOp(a) => SameInputGrows(s, Answered(s, a).state);
      case InputOp(n, written, b) => InputGrows(s, n, written, b);
      case PasteOp(origin, text, written) => SameInputGrows(s, Paste(s, origin, text, written).state);
      case ReadOp(keys, at) => ReceiveGrows(s, IG.Read(keys, at));
      case FlushOp(at) => ReceiveGrows(s, IG.Flush(at));
      case StopOp => SameInputGrows(s, Exit(s));
    }
  }

  /** Fresh attempt IDs are never empty. */
  ghost predicate Named(op: Op) {
    op.AnswerOp? && op.a.renewed.Some? ==> op.a.renewed.value != ""
  }

  ghost function Run(s: State, ops: seq<Op>): (t: State)
    requires Inv(s) && forall op <- ops :: Named(op)
    ensures Inv(t)
    decreases |ops|
  {
    if ops == [] then s
    else
      StepKeepsNamed(s, ops[0]);
      Run(Step(s, ops[0]).state, ops[1..])
  }

  lemma {:induction false} RunGrows(s: State, ops: seq<Op>)
    requires Inv(s) && forall op <- ops :: Named(op)
    ensures Grows(s, Run(s, ops))
    decreases |ops|
  {
    hide Inv;
    hide Grows;
    hide Step;
    hide Named;
    if ops == [] {
      SameInputSelf(s);
      SameInputGrows(s, s);
    } else {
      StepKeepsNamed(s, ops[0]);
      var t := Step(s, ops[0]).state;
      StepGrows(s, ops[0]);
      RunGrows(t, ops[1..]);
      GrowsTwice(s, t, Run(t, ops[1..]));
    }
  }

  lemma StepKeepsNamed(s: State, op: Op)
    requires Inv(s) && Named(op)
    ensures Inv(Step(s, op).state)
  {
    hide Inv;
    hide Step;
    StepKeeps(s, op);
  }

  /**
   What is written goes to the live child of the open generation, which was opened for it.
   Typed bytes are the head of the queue, carry that generation and were decoded after it
   opened; a pasted text is the one asked for, by a process that named this client, this
   attempt and this generation.
   */
  lemma WritesAreCurrent(s: State, op: Op)
    requires Inv(s) && Step(s, op).written.Some?
    ensures
      var w := Step(s, op).written.value;
      && s.child == Some(w.child) && w.generation == s.gate.generation != 0
      && w.generation in s.opens && s.opens[w.generation].child == w.child
      && match w
         case Typed(_, _, index, bytes) =>
           && op.InputOp? && index == s.taken && bytes != [] && bytes <= s.queue
           && (forall t <- bytes :: t.generation == w.generation)
           && s.opens[w.generation].at <= index
         case Pasted(_, _, origin, text) =>
           op.PasteOp? && text == op.text && origin == op.origin == Origin(s.client, w.child, w.generation)
  {
    WrittenBy(s, op);
    if op.InputOp? {
      TypedIsCurrent(s, op.n, op.written, op.b);
    } else {
      PastedIsCurrent(s, op.origin, op.text, op.written);
    }
    hide Inv;
    hide Input;
    hide Paste;
  }

  /** Only two cases of the loop write to the child. */
  lemma WrittenBy(s: State, op: Op)
    requires Step(s, op).written.Some?
    ensures
      && Enabled(s, op)
      && if op.InputOp? then 0 < op.n <= |s.queue| && SameOrigin(s.queue[..op.n]) && Step(s, op) == Input(s, op.n, op.written, op.b)
         else op.PasteOp? && Step(s, op) == Paste(s, op.origin, op.text, op.written)
  {
    hide Tick;
    hide Packet;
    hide Done;
    hide Answered;
    hide Input;
    hide Paste;
    hide Receive;
    hide Send;
    hide Exit;
    hide SameOrigin;
  }

  lemma TypedIsCurrent(s: State, n: nat, written: bool, b: Boundary)
    requires Inv(s) && 0 < n <= |s.queue| && SameOrigin(s.queue[..n])
    ensures
      var o := Input(s, n, written, b);
      o.written.Some? ==>
        var w := o.written.value;
        && w.Typed? && s.child == Some(w.child) && w.generation == s.gate.generation != 0
        && w.generation in s.opens && s.opens[w.generation].child == w.child
        && w.index == s.taken && w.bytes != [] && w.bytes <= s.queue
        && (forall t <- w.bytes :: t.generation == w.generation)
        && s.opens[w.generation].at <= w.index
  {
    assert s.queue[..n][0] == s.queue[0];
    hide OneAttempt;
    hide SlotHeld;
    hide IG.GateInv;
    hide Open;
    hide Lose;
    hide Send;
    hide HasEnter;
  }

  /** Which attachment is open, and for whom. */
  lemma Attached(s: State)
    requires Inv(s) && s.gate.generation != 0
    ensures s.running && s.child == Some(s.grant.attempt) && 0 < s.gate.generation <= s.gate.next
    ensures s.gate.generation in s.opens && s.opens[s.gate.generation].child == s.grant.attempt
  {
  }

  lemma PastedIsCurrent(s: State, origin: Origin, text: Bytes, written: bool)
    requires Inv(s)
    ensures
      var o := Paste(s, origin, text, written);
      o.written.Some? ==>
        var w := o.written.value;
        && s.child == Some(w.child) && w.generation == s.gate.generation != 0
        && w.generation in s.opens && s.opens[w.generation].child == w.child
        && w == Pasted(w.child, w.generation, Origin(s.client, w.child, w.generation), text)
        && origin == w.origin
  {
    if s.gate.generation != 0 {
      Attached(s);
    }
    hide Inv;
    hide Lose;
  }

  /**
   No stale input: once a byte has been decoded, no generation that opens afterwards ever
   writes it to its child, however long it stays queued and however often attachments come and
   go.  The child a generation belongs to never changes.
   */
  lemma StaleInputIsNeverWritten(s: State, ops: seq<Op>, op: Op)
    requires Inv(s) && (forall o <- ops :: Named(o)) && Step(Run(s, ops), op).written.Some?
    ensures
      var t := Run(s, ops);
      var w := Step(t, op).written.value;
      && w.generation in t.opens && t.opens[w.generation].child == w.child
      && (if w.generation in s.opens then s.opens[w.generation] == t.opens[w.generation]
          else w.Typed? ==> w.index >= Decoded(s))
  {
    RunGrows(s, ops);
    WritesAreCurrent(Run(s, ops), op);
    hide Inv;
    hide Run;
    hide Step;
  }

  /** A generation opens for the current child with nothing held back of what was read before. */
  lemma OpeningIsClean(s: State, b: Boundary)
    requires Inv(s) && s.gate.generation == 0
    ensures
      var t := Open(s, b);
      t.gate.generation != 0 ==>
        && s.child.Some? && s.proved && !s.stopping && b.now < s.grant.deadline
        && t.gate.generation !in s.opens && t.gate.generation in t.opens
        && t.opens[t.gate.generation] == Opening(s.child.value, Decoded(s))
        && t.gate.prefix == [] && !t.gate.paste && t.ready && t.reports == [ReadyReport(s)]
  {
    GateIsSound(s);
    IG.OpenIsFresh(s.gate, b.backlog, b.drained);
    hide IG.OpenGate;
    hide IG.GateInv;
  }

  lemma {:induction false} RunInTwo(s: State, ops: seq<Op>, k: nat)
    requires Inv(s) && (forall op <- ops :: Named(op)) && k <= |ops|
    ensures Run(s, ops) == Run(Run(s, ops[..k]), ops[k..])
    decreases k
  {
    hide Inv;
    hide Step;
    hide Named;
    if k == 0 {
      assert ops[0..] == ops;
    } else {
      StepKeepsNamed(s, ops[0]);
      assert ops[..k][1..] == ops[1..][..k - 1] && ops[1..][k - 1..] == ops[k..];
      RunInTwo(Step(s, ops[0]).state, ops[1..], k - 1);
    }
  }

  /**
   A text that a local process wants typed reaches the child if and only if the attachment the
   process saw is still open.  It has then been open ever since: the text is written to the
   very child that was seen.
   */
  lemma PasteReachesWhatItSaw(s: State, ops: seq<Op>, text: Bytes, written: bool)
    requires Inv(s) && (forall o <- ops :: Named(o)) && s.gate.generation != 0
    ensures
      var origin, t := Origin(s.client, s.grant.attempt, s.gate.generation), Run(s, ops);
      var o := Step(t, PasteOp(origin, text, written));
      && s.child.Some?
      && (o.written.Some? <==> t.gate.generation == s.gate.generation)
      && (o.written.Some? ==>
            && o.written.value == Pasted(s.child.value, s.gate.generation, origin, text)
            && forall k :: 0 <= k <= |ops| ==> Run(s, ops[..k]).gate.generation == s.gate.generation)
  {
    var origin, t := Origin(s.client, s.grant.attempt, s.gate.generation), Run(s, ops);
    Attached(s);
    RunGrows(s, ops);
    if t.gate.generation == s.gate.generation {
      Attached(t);
      StillOpen(s, ops);
    }
    hide Inv;
    hide Run;
    hide Lose;
    hide Grows;
    PasteStep(t, origin, text, written);
    if t.gate.generation == s.gate.generation {
      OpensStay(s, t);
    }
  }

  lemma OpensStay(s: State, t: State)
    requires Grows(s, t)
    ensures t.client == s.client && forall g <- s.opens :: g in t.opens && t.opens[g] == s.opens[g]
  {
  }

  lemma PasteStep(t: State, origin: Origin, text: Bytes, written: bool)
    ensures
      var o := Step(t, PasteOp(origin, text, written));
      && (o.written.Some? <==> t.running && PasteAccepted(t, origin))
      && (o.written.Some? ==> o.written.value == Pasted(t.child.value, t.gate.generation, origin, text))
  {
    hide Lose;
  }

  lemma StillOpen(s: State, ops: seq<Op>)
    requires Inv(s) && (forall o <- ops :: Named(o)) && s.gate.generation != 0
    requires Run(s, ops).gate.generation == s.gate.generation
    ensures forall k :: 0 <= k <= |ops| ==> Run(s, ops[..k]).gate.generation == s.gate.generation
  {
    Attached(s);
    hide Inv;
    hide Named;
    hide Run;
    forall k | 0 <= k <= |ops| ensures Run(s, ops[..k]).gate.generation == s.gate.generation {
      RunInTwo(s, ops, k);
      RunGrows(s, ops[..k]);
      RunGrows(Run(s, ops[..k]), ops[k..]);
    }
  }
}
