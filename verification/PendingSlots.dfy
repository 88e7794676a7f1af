/**
 Any number of terminals sharing the two pending locks (internal/mirror/session_admission.go).
 Replies are arbitrary throughout, so coordinators may crash, restart, repeat or lose them.
 */
module PendingSlots {
  import opened Wrappers
  import R = Recovery
  import IG = InputGate
  import opened Supervisor
  import opened Terminals

  const SLOTS: nat := 2

  type Locks = seq<Option<nat>>

  /** The first lock that can be taken; a lock file that does not open safely ends the search. */
  function TryLocks(locks: Locks, usable: seq<bool>, from: nat): (r: Option<nat>)
    requires from <= |locks| == |usable|
    ensures r.Some? ==> from <= r.value < |locks| && locks[r.value].None? && usable[r.value]
    ensures r.Some? ==> forall k :: from <= k < r.value ==> locks[k].Some? && usable[k]
    ensures r.None? && (forall k :: from <= k < |locks| ==> usable[k]) ==> forall k :: from <= k < |locks| ==> locks[k].Some?
    decreases |locks| - from
  {
    if from == |locks| || !usable[from] then None
    else if locks[from].None? then Some(from)
    else TryLocks(locks, usable, from + 1)
  }

  function Release(locks: Locks, i: nat): (r: Locks)
    ensures |r| == |locks|
    ensures forall k :: 0 <= k < |locks| ==> r[k] == if locks[k] == Some(i) then None else locks[k]
  {
    seq(|locks|, k requires 0 <= k < |locks| => if locks[k] == Some(i) then None else locks[k])
  }

  /** Two lock files; an array entry names the process that has the file locked. */
  class PendingLocks {
    const files: array<Option<nat>>

    constructor ()
      ensures files.Length == SLOTS && files[..] == [None, None] && fresh(files)
    {
      files := new Option<nat>[SLOTS](_ => None);
    }

    /** Tries the files in turn; `usable` tells whether each opens safely. */
    method Acquire(i: nat, usable: seq<bool>) returns (got: Option<nat>)
      requires |usable| == files.Length
      modifies files
      ensures got == TryLocks(old(files[..]), usable, 0)
      ensures files[..] == if got.Some? then old(files[..])[got.value := Some(i)] else old(files[..])
    {
      for k := 0 to files.Length
        invariant files[..] == old(files[..])
        invariant TryLocks(files[..], usable, 0) == TryLocks(files[..], usable, k)
      {
        if !usable[k] {
          return None;
        }
        if files[k].None? {
          files[k] := Some(i);
          return Some(k);
        }
      }
      return None;
    }
  }

  // ---------------------------------------------------------------- the system

  /** `used` holds every attempt ID ever drawn; `started` lists the attempts whose child started. */
  datatype System = System(sups: map<nat, State>, locks: Locks, used: set<string>, started: seq<string>)

  const NEW_SYSTEM := System(map[], [None, None], {""}, [])

  datatype SystemOp =
    | Join(i: nat, client: string, attempt: string)
    | At(i: nat, op: Op, usable: seq<bool>)

  /** A start meets whatever the locks allow. */
  function WithPermit(op: Op, permit: bool): (r: Op)
    ensures r == op || (op.AnswerOp? && r == AnswerOp(op.a.(permit := permit)))
    ensures r.AnswerOp? ==> r.a.permit == permit
  {
    if op.AnswerOp? then AnswerOp(op.a.(permit := permit)) else op
  }

  function Drawn(op: Op): set<string> {
    if op.AnswerOp? && op.a.renewed.Some? then {op.a.renewed.value} else {}
  }

  function LocksAfter(locks: Locks, got: Option<nat>, i: nat, before: bool, after: bool): Locks
    requires got.Some? ==> got.value < |locks|
  {
    if after && !before && got.Some? then locks[got.value := Some(i)]
    else if before && !after then Release(locks, i)
    else locks
  }

  function Usable(locks: Locks, usable: seq<bool>): (r: seq<bool>)
    ensures |r| == |locks|
  {
    if |usable| == |locks| then usable else seq(|locks|, _ => false)
  }

  function SystemStep(y: System, op: SystemOp): System {
    match op
    case Join(i, client, attempt) =>
      if i in y.sups then y
      else y.(sups := y.sups[i := Started(client, attempt)], used := y.used + {attempt})
    case At(i, o, usable) =>
      if i !in y.sups then y
      else
        var s := y.sups[i];
        var got := TryLocks(y.locks, Usable(y.locks, usable), 0);
        var outcome := Step(s, WithPermit(o, got.Some?));
        System(y.sups[i := outcome.state], LocksAfter(y.locks, got, i, s.slot, outcome.state.slot),
               y.used + Drawn(o),
               y.started + (if outcome.started.Some? then [outcome.started.value] else []))
  }

  /** Attempt IDs are 32 hexadecimal digits, in particular not empty. */
  predicate NamedDraws(op: SystemOp) {
    match op
    case Join(_, _, attempt) => attempt != ""
    case At(_, o, _) => "" !in Drawn(o)
  }

  /** Random attempt IDs never repeat. */
  predicate FreshDraws(y: System, op: SystemOp) {
    match op
    case Join(_, _, attempt) => attempt !in y.used
    case At(_, o, _) => Drawn(o) !! y.used
  }

  // ---------------------------------------------------------------- one step of one terminal

  /** A child starts only for the current attempt, which had no grant, and only with a permit. */
  ghost predicate LaunchMoves(s: State, o: Outcome, m: Message, permit: bool) {
    && o.state.attempt == s.attempt
    && (o.started.Some? ==>
          o.started.value == s.attempt == o.state.grant.attempt && s.grant.attempt == "" && m.event == R.NoEvent)
    && (s.grant.attempt == s.attempt ==> o.state.grant.attempt == s.attempt)
    && (o.state.slot && !s.slot ==> permit)
  }

  lemma SameLaunchMoves(s: State, t: State, m: Message, permit: bool)
    requires SameAttempt(s, t)
    ensures LaunchMoves(s, Just(t), m, permit)
  {
  }

  lemma NewLaunchMoves(s: State, g: R.Grant, t: State, m: Message, permit: bool, started: Option<string>)
    requires s.grant.attempt == "" && g.attempt == s.attempt && m.event == R.NoEvent
    requires SameAttempt(s.(grant := g, slot := permit), t) && started in {None, Some(g.attempt)}
    ensures LaunchMoves(s, Outcome(t, started, None), m, permit)
  {
  }

  lemma LaunchedAttempt(s: State, m: Message, reply: R.Reply, a: Answer)
    ensures LaunchMoves(s, Grantable(s, m, reply, a), m, a.permit)
  {
    hide ValidAttempt;
    hide LaunchMoves;
    hide Launch;
    hide Send;
    hide SendIfNeeded;
    hide Exit;
    SameLaunchMoves(s, SendIfNeeded(s), m, a.permit);
    SameLaunchMoves(s, Exit(s), m, a.permit);
    if Accepts(s, m, reply) {
      var g := reply.grant.value;
      SameLaunchMoves(s, Send(s.(reports := s.reports + [Report(g.attempt, R.LostEvent)])), m, a.permit);
      LaunchFrame(s, g, a.permit, a.spawned);
      var t := Launch(s, g, a.permit, a.spawned);
      NewLaunchMoves(s, g, SendIfNeeded(t), m, a.permit, if a.permit && a.spawned then Some(g.attempt) else None);
    }
  }

  lemma LaunchFrame(s: State, g: R.Grant, permit: bool, spawned: bool)
    ensures
      var t := Launch(s, g, permit, spawned);
      t.attempt == s.attempt && t.grant == g && (t.slot ==> permit)
  {
  }

  /** The attempt is the same and its grant stays or was empty. */
  ghost predicate Steady(s: State, t: State) {
    t.attempt == s.attempt && t.grant.attempt == s.grant.attempt
  }

  lemma ResetAttempt(s: State, reply: R.Reply)
    requires OneAttempt(s) && s.running
    ensures Steady(s, ApplyReset(s, reply))
  {
    hide Lose;
    if reply.reset && s.gate.generation == 0 && s.child.None? && s.reports == [] {
      assert s.grant.attempt == "";
    }
  }

  lemma HeededAttempt(s: State, reply: R.Reply)
    requires Inv(s) && s.running
    ensures Steady(s, Heed(s, reply))
  {
    LoseKeeps(s);
    assert Lose(s).running;
    InvIs(s);
    InvIs(Lose(s));
    hide Inv;
    hide OneAttempt;
    hide SlotHeld;
    hide InputInv;
    hide Lose;
    hide ApplyReset;
    ResetAttempt(s, reply);
    ResetAttempt(Lose(s), reply);
  }

  lemma AcknowledgedAttempt(s: State, m: Message, renewed: Option<string>)
    requires renewed.Some? ==> renewed.value != s.attempt
    ensures
      var t := Acknowledge(s, m, renewed);
      t.Some? ==>
        && (if t.value.attempt == s.attempt then t.value.grant == s.grant
            else renewed == Some(t.value.attempt))
        && (m.event == R.NoEvent ==> t.value.attempt == s.attempt && t.value.grant == s.grant)
  {
  }

  /** What a step does to the attempt and its grant. */
  ghost predicate AttemptMoves(s: State, o: Outcome, renewed: Option<string>) {
    && (o.state.attempt == s.attempt || renewed == Some(o.state.attempt))
    && (o.started.Some? ==>
          o.started.value == s.attempt == o.state.attempt == o.state.grant.attempt && s.grant.attempt == "")
    && (s.grant.attempt == s.attempt && o.state.attempt == s.attempt ==> o.state.grant.attempt == s.attempt)
  }

  lemma AnsweredAttempt(s: State, a: Answer)
    requires Inv(s) && s.running && s.inFlight.Some?
    requires a.renewed.Some? ==> a.renewed.value != s.attempt && a.renewed.value != ""
    ensures AttemptMoves(s, Answered(s, a), a.renewed)
  {
    var t := s.(inFlight := None);
    var m := s.inFlight.value;
    InFlightKeeps(s);
    if a.reply.Err? {
      SameAttemptMoves(s, t.(retry := t.retry || m.retry), a.renewed);
    } else {
      AcknowledgedAttempt(t, m, a.renewed);
      AcknowledgeKeeps(t, m, a.renewed);
      var acked := Acknowledge(t, m, a.renewed);
      if acked.None? {
        SameAttemptMoves(s, Exit(t), a.renewed);
      } else {
        AnsweredCases(s, a);
        var u := acked.value.(checking := a.reply.value.checking);
        CheckingKeeps(acked.value, a.reply.value.checking);
        hide *;
        AcknowledgedMoves(s, u, a, m);
      }
    }
  }

  /** After the acknowledgement, the reply ends the loop or is heeded and may grant. */
  lemma AcknowledgedMoves(s: State, u: State, a: Answer, m: Message)
    requires Inv(u) && u.running && a.reply.Ok?
    requires if u.attempt == s.attempt then u.grant == s.grant else a.renewed == Some(u.attempt)
    requires m.event == R.NoEvent ==> u.attempt == s.attempt && u.grant == s.grant
    ensures AttemptMoves(s, Just(Exit(u)), a.renewed)
    ensures AttemptMoves(s, Grantable(Heed(u, a.reply.value), m, a.reply.value, a), a.renewed)
  {
    var h := Heed(u, a.reply.value);
    HeededAttempt(u, a.reply.value);
    HeedKeeps(u, a.reply.value);
    InvIs(h);
    hide Inv;
    hide OneAttempt;
    hide SlotHeld;
    hide InputInv;
    hide Heed;
    hide Grantable;
    hide Exit;
    LaunchedAttempt(h, m, a.reply.value, a);
  }

  lemma InFlightKeeps(s: State)
    requires Inv(s)
    ensures Inv(s.(inFlight := None))
  {
  }

  lemma SameAttemptMoves(s: State, t: State, renewed: Option<string>)
    requires SameAttempt(s, t)
    ensures AttemptMoves(s, Just(t), renewed)
  {
  }

  lemma StepAttempt(s: State, op: Op)
    requires Inv(s)
    requires op.AnswerOp? && op.a.renewed.Some? ==> op.a.renewed.value != s.attempt && op.a.renewed.value != ""
    ensures
      AttemptMoves(s, Step(s, op), if op.AnswerOp? then op.a.renewed else None)
  {
    var renewed := if op.AnswerOp? then op.a.renewed else None;
    hide Inv;
    hide AttemptMoves;
    hide Tick;
    hide Send;
    hide Packet;
    hide Done;
    hide Answered;
    hide Input;
    hide Paste;
    hide Receive;
    hide Exit;
    hide SameOrigin;
    SameAttemptSelf(s);
    SameAttemptMoves(s, s, renewed);
    if Enabled(s, op) {
      match op
      case TickOp(now, b) => SameAttemptMoves(s, Tick(s, now, b), renewed);
      case PollOp => SameAttemptMoves(s, Send(s), renewed);
      case PacketOp(size, events, shown, b) => SameAttemptMoves(s, Packet(s, size, events, shown, b), renewed);
      case DoneOp(detached) => SameAttemptMoves(s, Done(s, detached), renewed);
      case AnswerOp(a) => AnsweredAttempt(s, a);
      case InputOp(n, written, b) =>
        InputFrame(s, n, written, b);
        StartlessMoves(s, Input(s, n, written, b), renewed);
      case PasteOp(origin, text, written) => StartlessMoves(s, Paste(s, origin, text, written), renewed);
      case ReadOp(keys, at) => SameAttemptMoves(s, Receive(s, IG.Read(keys, at)), renewed);
      case FlushOp(at) => SameAttemptMoves(s, Receive(s, IG.Flush(at)), renewed);
      case StopOp => SameAttemptMoves(s, Exit(s), renewed);
    }
  }

  lemma SameAttemptSelf(s: State)
    ensures SameAttempt(s, s)
  {
  }

  lemma StartlessMoves(s: State, o: Outcome, renewed: Option<string>)
    requires SameAttempt(s, o.state) && o.started.None?
    ensures AttemptMoves(s, o, renewed)
  {
  }

  /** A terminal gets a slot only from a reply that met a free lock. */
  lemma SlotNeedsPermit(s: State, op: Op)
    ensures Step(s, op).state.slot && !s.slot ==> op.AnswerOp? && op.a.permit
  {
    hide Tick;
    hide Send;
    hide Packet;
    hide Done;
    hide Answered;
    hide Input;
    hide Paste;
    hide Receive;
    hide Exit;
    hide SameOrigin;
    if Enabled(s, op) {
      match op
      case InputOp(n, written, b) => InputFrame(s, n, written, b);
      case AnswerOp(a) => AnsweredSlot(s, a);
      case _ =>
    }
  }

  lemma AnsweredSlot(s: State, a: Answer)
    requires s.inFlight.Some?
    ensures Answered(s, a).state.slot && !s.slot ==> a.permit
  {
    var t, m := s.(inFlight := None), s.inFlight.value;
    AcknowledgedSlot(t, m, a.renewed);
    if a.reply.Ok? && Acknowledge(t, m, a.renewed).Some? {
      AnsweredCases(s, a);
      var u := Acknowledge(t, m, a.renewed).value.(checking := a.reply.value.checking);
      var h := Heed(u, a.reply.value);
      HeededSlot(u, a.reply.value);
      hide Heed;
      hide Grantable;
      hide Acknowledge;
      hide Answered;
      LaunchedAttempt(h, m, a.reply.value, a);
    } else {
      hide Acknowledge;
      hide Heed;
      hide Grantable;
    }
  }

  lemma AcknowledgedSlot(s: State, m: Message, renewed: Option<string>)
    ensures Acknowledge(s, m, renewed).Some? ==> Acknowledge(s, m, renewed).value.slot == s.slot
  {
  }

  lemma HeededSlot(s: State, reply: R.Reply)
    ensures Heed(s, reply).slot ==> s.slot
  {
    hide Lose;
  }

  // ---------------------------------------------------------------- the system's invariant

  ghost predicate AllSound(y: System) {
    forall i <- y.sups :: Inv(y.sups[i])
  }

  /** The locks are held exactly by the terminals that hold a slot, one each. */
  ghost predicate LocksMatch(y: System) {
    && |y.locks| == SLOTS
    && (y.locks[0].Some? ==> y.locks[0] != y.locks[1])
    && (forall i :: Some(i) in y.locks <==> i in y.sups && y.sups[i].slot)
  }

  ghost predicate NoRepeats(ids: seq<string>) {
    forall a, b :: 0 <= a < b < |ids| ==> ids[a] != ids[b]
  }

  /** Attempt IDs are all drawn, never shared, and one that was started still holds its grant. */
  ghost predicate IdsMatch(y: System) {
    && "" in y.used
    && (forall i <- y.sups :: y.sups[i].attempt in y.used && y.sups[i].attempt != "")
    && (forall i, j :: i in y.sups && j in y.sups && i != j ==> y.sups[i].attempt != y.sups[j].attempt)
    && (forall a <- y.started :: a in y.used)
    && NoRepeats(y.started)
    && (forall i <- y.sups :: y.sups[i].attempt in y.started ==> y.sups[i].grant.attempt == y.sups[i].attempt)
  }

  ghost predicate SlotsInv(y: System) {
    AllSound(y) && LocksMatch(y)
  }

  ghost predicate SystemInv(y: System) {
    SlotsInv(y) && IdsMatch(y)
  }

  /** What one terminal's step may change of its attempt and grant. */
  ghost predicate Advances(s: State, o: Outcome, drawn: set<string>) {
    && o.state.attempt != ""
    && (o.state.attempt == s.attempt || o.state.attempt in drawn)
    && (o.started.Some? ==>
          o.started.value == s.attempt == o.state.attempt == o.state.grant.attempt && s.grant.attempt == "")
    && (s.grant.attempt == s.attempt && o.state.attempt == s.attempt ==> o.state.grant.attempt == s.attempt)
  }

  lemma StepAdvances(y: System, s: State, op: Op, permit: bool)
    requires Inv(s) && "" in y.used && s.attempt in y.used && Drawn(op) !! y.used
    ensures Advances(s, Step(s, WithPermit(op, permit)), Drawn(op))
  {
    hide Inv;
    hide Step;
    var e := WithPermit(op, permit);
    assert e.AnswerOp? && e.a.renewed.Some? ==> e.a.renewed.value in Drawn(op);
    StepAttempt(s, e);
    StepKeeps(s, e);
    AttemptNamed(Step(s, e).state);
  }

  lemma LocksKeep(y: System, z: System, i: nat, got: Option<nat>, t: State)
    requires LocksMatch(y) && i in y.sups && z.sups == y.sups[i := t]
    requires got.Some? ==> got.value < |y.locks| && y.locks[got.value].None?
    requires t.slot && !y.sups[i].slot ==> got.Some?
    requires z.locks == LocksAfter(y.locks, got, i, y.sups[i].slot, t.slot)
    ensures LocksMatch(z)
  {
    forall j ensures Some(j) in z.locks <==> j in z.sups && z.sups[j].slot {
      assert Some(j) in z.locks <==> z.locks[0] == Some(j) || z.locks[1] == Some(j);
      assert Some(j) in y.locks <==> y.locks[0] == Some(j) || y.locks[1] == Some(j);
    }
  }

  lemma IdsKeep(y: System, z: System, i: nat, o: Outcome, drawn: set<string>)
    requires IdsMatch(y) && i in y.sups && Advances(y.sups[i], o, drawn) && drawn !! y.used
    requires z.sups == y.sups[i := o.state] && z.used == y.used + drawn
    requires z.started == y.started + (if o.started.Some? then [o.started.value] else [])
    ensures IdsMatch(z)
  {
    if o.started.Some? {
      assert y.sups[i].attempt !in y.started;
    }
  }

  lemma AttemptNamed(s: State)
    ensures Inv(s) ==> s.attempt != ""
  {
  }

  lemma AtKeepsSlots(y: System, i: nat, op: Op, usable: seq<bool>)
    requires SlotsInv(y) && i in y.sups && "" !in Drawn(op)
    ensures SlotsInv(SystemStep(y, At(i, op, usable)))
  {
    var z := SystemStep(y, At(i, op, usable));
    var s := y.sups[i];
    var got := TryLocks(y.locks, Usable(y.locks, usable), 0);
    var e := WithPermit(op, got.Some?);
    hide Inv;
    hide Step;
    hide TryLocks;
    hide LocksAfter;
    hide Usable;
    assert e.AnswerOp? && e.a.renewed.Some? ==> e.a.renewed.value in Drawn(op);
    StepKeeps(s, e);
    SlotNeedsPermit(s, e);
    assert z.sups == y.sups[i := Step(s, e).state];
    assert AllSound(z);
    LocksKeep(y, z, i, got, Step(s, e).state);
  }

  lemma AtKeepsIds(y: System, i: nat, op: Op, usable: seq<bool>)
    requires SystemInv(y) && i in y.sups && FreshDraws(y, At(i, op, usable))
    ensures IdsMatch(SystemStep(y, At(i, op, usable)))
  {
    var z := SystemStep(y, At(i, op, usable));
    var s := y.sups[i];
    var got := TryLocks(y.locks, Usable(y.locks, usable), 0);
    var o := Step(s, WithPermit(op, got.Some?));
    hide Inv;
    hide Step;
    hide TryLocks;
    hide LocksAfter;
    hide Usable;
    StepAdvances(y, s, op, got.Some?);
    assert z.sups == y.sups[i := o.state];
    IdsKeep(y, z, i, o, Drawn(op));
  }

  lemma JoinKeepsSlots(y: System, i: nat, client: string, attempt: string)
    requires SlotsInv(y) && i !in y.sups && attempt != ""
    ensures SlotsInv(SystemStep(y, Join(i, client, attempt)))
  {
    StartKeeps(client, attempt);
    hide Inv;
    var z := SystemStep(y, Join(i, client, attempt));
    assert z.sups == y.sups[i := Started(client, attempt)] && z.locks == y.locks;
    StartedQuiet(client, attempt);
    hide SystemStep;
    hide Started;
  }

  lemma JoinKeepsIds(y: System, i: nat, client: string, attempt: string)
    requires IdsMatch(y) && i !in y.sups && attempt !in y.used
    ensures IdsMatch(SystemStep(y, Join(i, client, attempt)))
  {
    var z := SystemStep(y, Join(i, client, attempt));
    assert z.sups == y.sups[i := Started(client, attempt)] && z.started == y.started;
    assert z.used == y.used + {attempt};
    StartedQuiet(client, attempt);
    hide SystemStep;
    hide Started;
  }

  lemma StartedQuiet(client: string, attempt: string)
    ensures Started(client, attempt).attempt == attempt && !Started(client, attempt).slot
  {
  }

  /** Locks stay matched to slots, however attempt IDs are drawn. */
  lemma SlotsKeep(y: System, op: SystemOp)
    requires SlotsInv(y) && NamedDraws(op)
    ensures SlotsInv(SystemStep(y, op))
  {
    hide SystemStep;
    match op
    case Join(i, client, attempt) =>
      if i !in y.sups {
        JoinKeepsSlots(y, i, client, attempt);
      } else {
        Refused(y, op);
      }
    case At(i, o, usable) =>
      if i in y.sups {
        AtKeepsSlots(y, i, o, usable);
      } else {
        Refused(y, op);
      }
  }

  lemma SystemStepKeeps(y: System, op: SystemOp)
    requires SystemInv(y) && FreshDraws(y, op)
    ensures SystemInv(SystemStep(y, op))
  {
    hide SystemStep;
    hide Inv;
    assert NamedDraws(op);
    SlotsKeep(y, op);
    match op
    case Join(i, client, attempt) =>
      if i !in y.sups {
        JoinKeepsIds(y, i, client, attempt);
      } else {
        Refused(y, op);
      }
    case At(i, o, usable) =>
      if i in y.sups {
        AtKeepsIds(y, i, o, usable);
      } else {
        Refused(y, op);
      }
  }

  lemma Refused(y: System, op: SystemOp)
    requires if op.Join? then op.i in y.sups else op.i !in y.sups
    ensures SystemStep(y, op) == y
  {
  }

  ghost predicate FreshRun(y: System, ops: seq<SystemOp>)
    decreases |ops|
  {
    ops == [] || (FreshDraws(y, ops[0]) && FreshRun(SystemStep(y, ops[0]), ops[1..]))
  }

  ghost function SystemRun(y: System, ops: seq<SystemOp>): System
    decreases |ops|
  {
    if ops == [] then y else SystemRun(SystemStep(y, ops[0]), ops[1..])
  }

  lemma {:induction false} SlotsRunKeeps(y: System, ops: seq<SystemOp>)
    requires SlotsInv(y) && forall op <- ops :: NamedDraws(op)
    ensures SlotsInv(SystemRun(y, ops))
    decreases |ops|
  {
    hide SlotsInv;
    hide SystemStep;
    hide NamedDraws;
    if ops != [] {
      SlotsKeep(y, ops[0]);
      SlotsRunKeeps(SystemStep(y, ops[0]), ops[1..]);
    }
  }

  lemma {:induction false} SystemRunKeeps(y: System, ops: seq<SystemOp>)
    requires SystemInv(y) && FreshRun(y, ops)
    ensures SystemInv(SystemRun(y, ops))
    decreases |ops|
  {
    hide SystemInv;
    hide SystemStep;
    hide FreshDraws;
    if ops != [] {
      SystemStepKeeps(y, ops[0]);
      SystemRunKeeps(SystemStep(y, ops[0]), ops[1..]);
    }
  }

  /** The terminals whose child has started and has not yet been reported ready. */
  ghost function NeverReady(y: System): set<nat> {
    set i <- y.sups | y.sups[i].child.Some? && !y.sups[i].ready
  }

  lemma NeverReadyHoldSlots(y: System)
    requires SlotsInv(y)
    ensures |NeverReady(y)| <= SLOTS
  {
    forall i <- NeverReady(y) ensures Some(i) in y.locks {
      SlotOfChild(y.sups[i]);
    }
    assert |y.locks| == SLOTS;
    hide *;
    TwoHolders(NeverReady(y), y.locks);
  }

  lemma TwoHolders(ids: set<nat>, locks: Locks)
    requires |locks| == SLOTS && forall i <- ids :: Some(i) in locks
    ensures |ids| <= SLOTS
  {
    var holders := (if locks[0].Some? then {locks[0].value} else {})
                   + (if locks[1].Some? then {locks[1].value} else {});
    assert ids <= holders;
    R.SmallerSet(ids, holders);
  }

  lemma SlotOfChild(s: State)
    requires Inv(s) && s.child.Some? && !s.ready
    ensures s.slot
  {
  }

  lemma NothingYet()
    ensures SystemInv(NEW_SYSTEM)
  {
  }

  /**
   The global pending bound: whatever terminals start, stop and do, whatever replies they get,
   and even if attempt IDs repeat, there are never more than two children that have not become
   ready.
   */
  lemma AtMostTwoPending(ops: seq<SystemOp>)
    requires forall op <- ops :: NamedDraws(op)
    ensures |NeverReady(SystemRun(NEW_SYSTEM, ops))| <= SLOTS
  {
    NothingYet();
    SlotsRunKeeps(NEW_SYSTEM, ops);
    NeverReadyHoldSlots(SystemRun(NEW_SYSTEM, ops));
  }

  /** No attempt ever starts two children, in one terminal or in two. */
  lemma AttemptsStartOnce(ops: seq<SystemOp>)
    requires FreshRun(NEW_SYSTEM, ops)
    ensures NoRepeats(SystemRun(NEW_SYSTEM, ops).started)
  {
    NothingYet();
    SystemRunKeeps(NEW_SYSTEM, ops);
  }

  /**
   In every reachable state a non-empty grant has a live child or a loss still to be
   acknowledged, and the reports are [], [ready], [lost] or [ready, lost] for one attempt.
   */
  lemma GrantsAreAccountedFor(ops: seq<SystemOp>, i: nat)
    requires (forall op <- ops :: NamedDraws(op)) && i in SystemRun(NEW_SYSTEM, ops).sups
    ensures
      var s := SystemRun(NEW_SYSTEM, ops).sups[i];
      s.running ==>
        && (s.grant.attempt != "" ==>
              s.grant.attempt == s.attempt && (s.child == Some(s.attempt) || LostReport(s) in s.reports))
        && s.reports in {[], [ReadyReport(s)], [LostReport(s)], [ReadyReport(s), LostReport(s)]}
        && (s.reports == [ReadyReport(s)] ==> s.child.Some?)
        && (LostReport(s) in s.reports ==> s.child.None?)
  {
    NothingYet();
    SlotsRunKeeps(NEW_SYSTEM, ops);
    var y := SystemRun(NEW_SYSTEM, ops);
    hide SystemRun;
    var s := y.sups[i];
    assert Inv(s);
    hide LocksMatch;
    hide InputInv;
    hide SlotHeld;
    assert [ReadyReport(s), LostReport(s)][1] == LostReport(s);
    assert [LostReport(s)][0] == LostReport(s);
  }
}
