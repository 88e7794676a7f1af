/**
 Lifecycle markers inside an attachment's output stream (internal/mirror/session_stream.go and
 AttachmentMarker in internal/mirror/session_attach.go).

 `Tokenize` is the reference reading of a byte stream, one decision at a time at its head.
 The decoder object searches ahead and flushes in bulk; it is proved to deliver what the
 reference delivers, whatever the chunking.
 */
module MarkerStream {
  import opened Wrappers
  import opened Bytes

  /** RS "REDEEM_ATTACH_V1:" */
  const PREFIX: Bytes := [30, 82, 69, 68, 69, 69, 77, 95, 65, 84, 84, 65, 67, 72, 95, 86, 49, 58]

  /** A marker's delimiter must come within this many bytes. */
  const LIMIT: nat := 128

  datatype Kind =
    | Ready
    | Detached
    | Missing
    | Replaced
    | Unverifiable
    | Unsupported
    | Invalid
    | Failed
    | Cancelled

  function KindName(k: Kind): Bytes {
    match k
    case Ready => [114, 101, 97, 100, 121]
    case Detached => [100, 101, 116, 97, 99, 104, 101, 100]
    case Missing => [109, 105, 115, 115, 105, 110, 103]
    case Replaced => [114, 101, 112, 108, 97, 99, 101, 100]
    case Unverifiable => [117, 110, 118, 101, 114, 105, 102, 105, 97, 98, 108, 101]
    case Unsupported => [117, 110, 115, 117, 112, 112, 111, 114, 116, 101, 100]
    case Invalid => [105, 110, 118, 97, 108, 105, 100]
    case Failed => [102, 97, 105, 108, 101, 100]
    case Cancelled => [99, 97, 110, 99, 101, 108, 108, 101, 100]
  }

  function ParseKind(s: Bytes): Option<Kind> {
    if s == KindName(Ready) then Some(Ready)
    else if s == KindName(Detached) then Some(Detached)
    else if s == KindName(Missing) then Some(Missing)
    else if s == KindName(Replaced) then Some(Replaced)
    else if s == KindName(Unverifiable) then Some(Unverifiable)
    else if s == KindName(Unsupported) then Some(Unsupported)
    else if s == KindName(Invalid) then Some(Invalid)
    else if s == KindName(Failed) then Some(Failed)
    else if s == KindName(Cancelled) then Some(Cancelled)
    else None
  }

  lemma ParsedKindName(s: Bytes)
    requires ParseKind(s).Some?
    ensures KindName(ParseKind(s).value) == s
  {
  }

  lemma KindNameShape(k: Kind)
    ensures 5 <= |KindName(k)| <= 12 && forall b <- KindName(k) :: 97 <= b <= 122
  {
    match k
    case Ready =>
    case Detached =>
    case Missing =>
    case Replaced =>
    case Unverifiable =>
    case Unsupported =>
    case Invalid =>
    case Failed =>
    case Cancelled =>
  }

  lemma ParseKindName(k: Kind)
    ensures ParseKind(KindName(k)) == Some(k)
  {
    match k
    case Ready =>
    case Detached =>
    case Missing =>
    case Replaced =>
    case Unverifiable =>
    case Unsupported =>
    case Invalid =>
    case Failed =>
    case Cancelled =>
  }

  predicate ValidAttempt(a: Bytes) {
    |a| == 32 && forall b <- a :: 97 <= b <= 102 || 48 <= b <= 57
  }

  /** The bytes of a marker; meaningful for valid attempts only. */
  function Marker(attempt: Bytes, k: Kind): Bytes
    requires ValidAttempt(attempt)
  {
    PREFIX + attempt + [COLON] + KindName(k) + [US]
  }

  datatype Lifecycle = Lifecycle(attempt: Bytes, kind: Kind)

  /**
   Reads a complete candidate: `frame` starts with the prefix and ends at its first delimiter.
   What lies between is cut at the first colon into an attempt and an event.
   */
  function ParseMarker(frame: Bytes): (r: Option<Lifecycle>)
    requires |frame| > |PREFIX|
  {
    var inner := frame[|PREFIX|..|frame| - 1];
    var colon := IndexOf(inner, COLON);
    if colon < 0 then None
    else
      var kind := ParseKind(inner[colon + 1..]);
      if !ValidAttempt(inner[..colon]) || kind.None? then None
      else Some(Lifecycle(inner[..colon], kind.value))
  }

  lemma ParsedMarker(frame: Bytes)
    requires PREFIX <= frame && |frame| > |PREFIX| && frame[|frame| - 1] == US
    requires ParseMarker(frame).Some?
    ensures
      var m := ParseMarker(frame).value;
      ValidAttempt(m.attempt) && frame == Marker(m.attempt, m.kind)
  {
    hide ParseKind;
    hide KindName;
    var inner := frame[|PREFIX|..|frame| - 1];
    var colon := IndexOf(inner, COLON);
    ParsedKindName(inner[colon + 1..]);
    assert inner == inner[..colon] + [COLON] + inner[colon + 1..];
    assert frame == PREFIX + inner + [US];
  }

  lemma ParseMarkerRoundTrip(attempt: Bytes, k: Kind)
    requires ValidAttempt(attempt)
    ensures ParseMarker(Marker(attempt, k)) == Some(Lifecycle(attempt, k))
  {
    hide ParseKind;
    hide KindName;
    var frame := Marker(attempt, k);
    var inner := frame[|PREFIX|..|frame| - 1];
    assert inner == attempt + [COLON] + KindName(k);
    IndexOfUnique(attempt, COLON, KindName(k));
    assert inner[..32] == attempt && inner[33..] == KindName(k);
    ParseKindName(k);
  }

  // ---------------------------------------------------------------- the reference reading

  datatype Decision = Hold | Text(length: nat) | Found(length: nat, what: Lifecycle)

  lemma PrefixShape()
    ensures |PREFIX| == 18 && PREFIX[0] == RS && RS !in PREFIX[1..] && US !in PREFIX
  {
  }

  lemma DelimiterAfterPrefix(p: Bytes)
    requires PREFIX <= p
    ensures IndexOf(p, US) < 0 || IndexOf(p, US) >= |PREFIX|
  {
    PrefixShape();
    hide PREFIX;
    assert p == PREFIX + p[|PREFIX|..];
    IndexOfAppend(PREFIX, p[|PREFIX|..], US);
  }

  /** What to do with the head of a nonempty stream; `eof` says nothing more will follow. */
  function Decide(p: Bytes, eof: bool): (r: Decision)
    requires p != []
    ensures r.Text? ==> 1 <= r.length <= |p|
    ensures r.Found? ==> 1 <= r.length <= |p|
    ensures r.Hold? ==> !eof && |p| < LIMIT
  {
    if PREFIX <= p then
      var end := IndexOf(p, US);
      if end < 0 && |p| < LIMIT && !eof then Hold
      else if end < 0 || end >= LIMIT then Text(1)
      else
        DelimiterAfterPrefix(p);
        var what := ParseMarker(p[..end + 1]);
        if what.None? then Text(end + 1) else Found(end + 1, what.value)
    else if !eof && p <= PREFIX then Hold
    else Text(1)
  }

  /** A token keeps the bytes it stands for. */
  datatype Token = Plain(bytes: Bytes) | Mark(bytes: Bytes, what: Lifecycle)

  datatype Reading = Reading(tokens: seq<Token>, held: Bytes)

  function Tokenize(p: Bytes, eof: bool): (r: Reading)
    ensures |r.held| < LIMIT && (eof ==> r.held == [])
    decreases |p|
  {
    if p == [] then Reading([], [])
    else
      match Decide(p, eof)
      case Hold => Reading([], p)
      case Text(n) =>
        var rest := Tokenize(p[n..], eof);
        rest.(tokens := [Plain(p[..n])] + rest.tokens)
      case Found(n, what) =>
        var rest := Tokenize(p[n..], eof);
        rest.(tokens := [Mark(p[..n], what)] + rest.tokens)
  }

  /** The stream the tokens were read from. */
  function Source(ts: seq<Token>): Bytes {
    if ts == [] then [] else ts[0].bytes + Source(ts[1..])
  }

  /** What reaches the terminal: every byte outside a marker. */
  function Visible(ts: seq<Token>): Bytes {
    if ts == [] then []
    else (if ts[0].Plain? then ts[0].bytes else []) + Visible(ts[1..])
  }

  /** The stream is exactly the visible bytes interleaved with the recognised markers, then the held tail. */
  lemma {:induction false} NothingLost(p: Bytes, eof: bool)
    ensures Source(Tokenize(p, eof).tokens) + Tokenize(p, eof).held == p
    decreases |p|
  {
    hide Decide;
    if p != [] {
      var d := Decide(p, eof);
      if !d.Hold? {
        NothingLost(p[d.length..], eof);
        var rest := Tokenize(p[d.length..], eof);
        assert p == p[..d.length] + p[d.length..];
        TokenizeStep(p, eof);
        SourceCons(TokenOf(p, d), rest.tokens);
        TokenBytes(p, d);
        hide *;
        Rejoin(p[..d.length], Source(rest.tokens), rest.held);
      }
    }
  }

  lemma TokenBytes(p: Bytes, d: Decision)
    requires !d.Hold? && d.length <= |p|
    ensures TokenOf(p, d).bytes == p[..d.length]
  {
  }

  lemma Rejoin(a: Bytes, b: Bytes, c: Bytes)
    ensures a + (b + c) == a + b + c
  {
  }

  lemma SourceCons(t: Token, ts: seq<Token>)
    ensures Source([t] + ts) == t.bytes + Source(ts)
  {
    assert ([t] + ts)[1..] == ts;
  }

  lemma FoundIsMarker(p: Bytes, eof: bool)
    requires p != [] && Decide(p, eof).Found?
    ensures
      var d := Decide(p, eof);
      ValidAttempt(d.what.attempt) && p[..d.length] == Marker(d.what.attempt, d.what.kind)
  {
    DelimiterAfterPrefix(p);
    ParsedMarker(p[..IndexOf(p, US) + 1]);
  }

  /** Only complete, well-formed markers are taken out of the stream. */
  lemma {:induction false} OnlyMarkersRemoved(p: Bytes, eof: bool, i: nat)
    requires i < |Tokenize(p, eof).tokens| && Tokenize(p, eof).tokens[i].Mark?
    ensures
      var t := Tokenize(p, eof).tokens[i];
      ValidAttempt(t.what.attempt) && t.bytes == Marker(t.what.attempt, t.what.kind)
    decreases |p|
  {
    hide Decide;
    hide Marker;
    if i == 0 {
      FoundIsMarker(p, eof);
    } else {
      OnlyMarkersRemoved(p[Decide(p, eof).length..], eof, i - 1);
    }
  }

  /** A decision taken before the end of the stream is not revised by later bytes. */
  lemma DecisionStable(p: Bytes, more: Bytes, eof: bool)
    requires p != [] && !Decide(p, false).Hold?
    ensures Decide(p + more, eof) == Decide(p, false)
  {
    hide ParseMarker;
    hide IndexOf;
    IndexOfAppend(p, more, US);
    if PREFIX <= p {
      var end := IndexOf(p, US);
      if 0 <= end < LIMIT {
        assert (p + more)[..end + 1] == p[..end + 1];
      }
    } else {
      var k := FirstDifference(p);
      assert (p + more)[k] == p[k];
    }
  }

  lemma FirstDifference(p: Bytes) returns (k: nat)
    requires !(PREFIX <= p) && !(p <= PREFIX)
    ensures k < |p| && k < |PREFIX| && p[k] != PREFIX[k]
  {
    k :| 0 <= k < |p| && k < |PREFIX| && p[k] != PREFIX[k];
  }

  function TokenOf(p: Bytes, d: Decision): Token
    requires !d.Hold? && d.length <= |p|
  {
    match d
    case Text(n) => Plain(p[..n])
    case Found(n, what) => Mark(p[..n], what)
  }

  lemma TokenizeStep(p: Bytes, eof: bool)
    requires p != [] && !Decide(p, eof).Hold?
    ensures
      var d := Decide(p, eof);
      var rest := Tokenize(p[d.length..], eof);
      Tokenize(p, eof) == Reading([TokenOf(p, d)] + rest.tokens, rest.held)
  {
    hide Decide;
  }

  /** Reading a stream in two parts, keeping the held tail in between, is reading it whole. */
  lemma {:induction false} TwoChunks(p: Bytes, more: Bytes, eof: bool)
    ensures
      var first := Tokenize(p, false);
      var second := Tokenize(first.held + more, eof);
      Tokenize(p + more, eof) == Reading(first.tokens + second.tokens, second.held)
    decreases |p|
  {
    hide Decide;
    var first := Tokenize(p, false);
    if p == [] || Decide(p, false).Hold? {
      assert first.tokens == [] && first.held == p;
      assert [] + Tokenize(p + more, eof).tokens == Tokenize(p + more, eof).tokens;
    } else {
      var n := Decide(p, false).length;
      DecisionStable(p, more, eof);
      TokenizeStep(p, false);
      TokenizeStep(p + more, eof);
      assert (p + more)[n..] == p[n..] + more && (p + more)[..n] == p[..n];
      TwoChunks(p[n..], more, eof);
      Regroup(TokenOf(p, Decide(p, false)), Tokenize(p[n..], false), Tokenize(first.held + more, eof));
    }
  }

  lemma Regroup(t: Token, a: Reading, b: Reading)
    ensures [t] + (a.tokens + b.tokens) == ([t] + a.tokens) + b.tokens
  {
  }

  // ---------------------------------------------------------------- what an attempt announces

  datatype Progress = Progress(ready: bool, finished: bool)

  datatype Announced = Announced(events: seq<Kind>, progress: Progress)

  /** One recognised marker: foreign attempts and everything after a final event are ignored. */
  function Note(w: Lifecycle, attempt: Bytes, st: Progress): Announced {
    if w.attempt != attempt || st.finished then Announced([], st)
    else if w.kind == Ready then
      if st.ready then Announced([], st) else Announced([Ready], st.(ready := true))
    else
      Announced([if w.kind == Detached && !st.ready then Failed else w.kind], st.(finished := true))
  }

  function Announce(ts: seq<Token>, attempt: Bytes, st: Progress): Announced {
    if ts == [] then Announced([], st)
    else if ts[0].Plain? then Announce(ts[1..], attempt, st)
    else
      var a := Note(ts[0].what, attempt, st);
      var rest := Announce(ts[1..], attempt, a.progress);
      Announced(a.events + rest.events, rest.progress)
  }

  lemma {:induction false} AnnounceAppend(a: seq<Token>, b: seq<Token>, attempt: Bytes, st: Progress)
    ensures
      var first := Announce(a, attempt, st);
      var second := Announce(b, attempt, first.progress);
      Announce(a + b, attempt, st) == Announced(first.events + second.events, second.progress)
  {
    if a == [] {
      assert a + b == b;
    } else {
      assert (a + b)[1..] == a[1..] + b && (a + b)[0] == a[0];
      AnnounceAppend(a[1..], b, attempt, if a[0].Plain? then st else Note(a[0].what, attempt, st).progress);
    }
  }

  lemma {:induction false} VisibleAppend(a: seq<Token>, b: seq<Token>)
    ensures Visible(a + b) == Visible(a) + Visible(b)
  {
    if a == [] {
      assert a + b == b;
    } else {
      assert (a + b)[1..] == a[1..] + b && (a + b)[0] == a[0];
      VisibleAppend(a[1..], b);
    }
  }

  /** The events an attempt may ever announce, and the progress they leave. */
  ghost predicate Orderly(events: seq<Kind>, st: Progress) {
    || (events == [] && st == Progress(false, false))
    || (events == [Ready] && st == Progress(true, false))
    || (|events| == 1 && events[0] !in {Ready, Detached} && st == Progress(false, true))
    || (|events| == 2 && events[0] == Ready && events[1] != Ready && st == Progress(true, true))
  }

  /** At most one `ready`, then at most one final event; `detached` only after `ready`. */
  lemma {:induction false} AnnouncesOrderly(past: seq<Kind>, ts: seq<Token>, attempt: Bytes, st: Progress)
    requires Orderly(past, st)
    ensures
      var a := Announce(ts, attempt, st);
      Orderly(past + a.events, a.progress)
    decreases ts
  {
    if ts == [] {
      assert past + [] == past;
    } else if ts[0].Plain? {
      AnnouncesOrderly(past, ts[1..], attempt, st);
    } else {
      var a := Note(ts[0].what, attempt, st);
      assert past + [] == past;
      AnnouncesOrderly(past + a.events, ts[1..], attempt, a.progress);
      var rest := Announce(ts[1..], attempt, a.progress);
      assert (past + a.events) + rest.events == past + (a.events + rest.events);
    }
  }

  // ---------------------------------------------------------------- only this attempt's markers

  /** What this attempt's own markers say, in order. */
  function OwnKinds(ts: seq<Token>, attempt: Bytes): seq<Kind> {
    if ts == [] then []
    else
      (if ts[0].Mark? && ts[0].what.attempt == attempt then [ts[0].what.kind] else []) + OwnKinds(ts[1..], attempt)
  }

  /** The tokens without the markers of other attempts. */
  function OwnTokens(ts: seq<Token>, attempt: Bytes): seq<Token> {
    if ts == [] then []
    else
      (if ts[0].Mark? && ts[0].what.attempt != attempt then [] else [ts[0]]) + OwnTokens(ts[1..], attempt)
  }

  lemma OwnCons(t: Token, ts: seq<Token>, attempt: Bytes)
    ensures
      OwnKinds([t] + ts, attempt) ==
      (if t.Mark? && t.what.attempt == attempt then [t.what.kind] else []) + OwnKinds(ts, attempt)
    ensures
      OwnTokens([t] + ts, attempt) ==
      (if t.Mark? && t.what.attempt != attempt then [] else [t]) + OwnTokens(ts, attempt)
  {
    assert ([t] + ts)[1..] == ts;
  }

  lemma {:induction false} OwnTokensSayTheSame(ts: seq<Token>, attempt: Bytes)
    ensures OwnKinds(OwnTokens(ts, attempt), attempt) == OwnKinds(ts, attempt)
  {
    if ts != [] {
      OwnTokensSayTheSame(ts[1..], attempt);
      OwnCons(ts[0], OwnTokens(ts[1..], attempt), attempt);
      assert [] + OwnTokens(ts[1..], attempt) == OwnTokens(ts[1..], attempt);
      assert [] + OwnKinds(ts[1..], attempt) == OwnKinds(ts[1..], attempt);
    }
  }

  /** How many ready markers come before the first final one, or at all. */
  function ReadyRun(ks: seq<Kind>): (n: nat)
    ensures n <= |ks| && (forall i :: 0 <= i < n ==> ks[i] == Ready) && (n < |ks| ==> ks[n] != Ready)
  {
    if ks == [] || ks[0] != Ready then 0 else 1 + ReadyRun(ks[1..])
  }

  /** The final event a final marker stands for; a detach that was never ready is a failure. */
  function FinalEvent(k: Kind, ready: bool): Kind {
    if k == Detached && !ready then Failed else k
  }

  /** The events this attempt's markers are worth. */
  function Worth(ks: seq<Kind>, st: Progress): Announced {
    var n := ReadyRun(ks);
    if st.finished then Announced([], st)
    else
      var ready := st.ready || n > 0;
      Announced(
        (if ready && !st.ready then [Ready] else []) + (if n < |ks| then [FinalEvent(ks[n], ready)] else []),
        Progress(ready, n < |ks|))
  }

  lemma WorthCons(k: Kind, ks: seq<Kind>, st: Progress)
    ensures
      var next := if st.finished then st else if k == Ready then st.(ready := true) else st.(finished := true);
      var now :=
        if st.finished then [] else if k != Ready then [FinalEvent(k, st.ready)] else if st.ready then [] else [Ready];
      Worth([k] + ks, st) == Announced(now + Worth(ks, next).events, Worth(ks, next).progress)
  {
    assert ([k] + ks)[1..] == ks;
    if k == Ready {
      assert ReadyRun([k] + ks) == 1 + ReadyRun(ks);
    }
  }

  /**
   Announcements are exactly what the attempt's own markers are worth: no marker of another
   attempt announces anything, and none changes what is announced later.
   */
  lemma {:induction false} AnnouncedIsWorth(ts: seq<Token>, attempt: Bytes, st: Progress)
    ensures Announce(ts, attempt, st) == Worth(OwnKinds(ts, attempt), st)
    decreases ts
  {
    if ts == [] {
    } else {
      var t := ts[0];
      assert ts == [t] + ts[1..];
      OwnCons(t, ts[1..], attempt);
      if t.Mark? && t.what.attempt == attempt {
        var next := Note(t.what, attempt, st);
        AnnouncedIsWorth(ts[1..], attempt, next.progress);
        WorthCons(t.what.kind, OwnKinds(ts[1..], attempt), st);
      } else {
        assert [] + OwnKinds(ts[1..], attempt) == OwnKinds(ts[1..], attempt);
        AnnouncedIsWorth(ts[1..], attempt, st);
        assert [] + Announce(ts[1..], attempt, st).events == Announce(ts[1..], attempt, st).events;
      }
    }
  }

  /** Markers of other attempts may be deleted from the tokens: events and progress stay. */
  lemma OthersAreIgnored(ts: seq<Token>, attempt: Bytes, st: Progress)
    ensures Announce(ts, attempt, st) == Announce(OwnTokens(ts, attempt), attempt, st)
  {
    AnnouncedIsWorth(ts, attempt, st);
    AnnouncedIsWorth(OwnTokens(ts, attempt), attempt, st);
    OwnTokensSayTheSame(ts, attempt);
  }

  /** The i-th token is a marker of this very attempt that says `final` or not. */
  predicate OwnMarker(ts: seq<Token>, attempt: Bytes, i: int, final: bool) {
    0 <= i < |ts| && ts[i].Mark? && ts[i].what.attempt == attempt && (ts[i].what.kind != Ready <==> final)
  }

  /** The i-th token is this attempt's first final marker. */
  ghost predicate FirstFinal(ts: seq<Token>, attempt: Bytes, i: int) {
    OwnMarker(ts, attempt, i, true) && forall j :: 0 <= j < i ==> !OwnMarker(ts, attempt, j, true)
  }

  /** A ready marker of this attempt comes before any final one. */
  ghost predicate ReadyFirst(ts: seq<Token>, attempt: Bytes) {
    exists i :: OwnMarker(ts, attempt, i, false) && forall j :: 0 <= j < i ==> !OwnMarker(ts, attempt, j, true)
  }

  /** The tokens behind a list of kinds: ready first, and the first final one. */
  ghost predicate RunIs(ts: seq<Token>, attempt: Bytes, ks: seq<Kind>, i: int) {
    var n := ReadyRun(ks);
    && (n > 0 <==> ReadyFirst(ts, attempt))
    && (n < |ks| ==> FirstFinal(ts, attempt, i) && ts[i].what.kind == ks[n])
    && (n == |ks| ==> forall j :: !OwnMarker(ts, attempt, j, true))
  }

  lemma {:induction false} RunOfTokens(ts: seq<Token>, attempt: Bytes) returns (i: int)
    ensures RunIs(ts, attempt, OwnKinds(ts, attempt), i)
    decreases ts
  {
    i := 0;
    if ts != [] {
      hide RunIs;
      i := RunOfTokens(ts[1..], attempt);
      assert ts == [ts[0]] + ts[1..];
      OwnCons(ts[0], ts[1..], attempt);
      var ks := OwnKinds(ts[1..], attempt);
      hide OwnKinds;
      if OwnMarker(ts, attempt, 0, true) {
        i := 0;
        FinalHead(ts, attempt, ks);
      } else if OwnMarker(ts, attempt, 0, false) {
        ReadyHead(ts, attempt, ks, i);
        i := i + 1;
      } else {
        assert [] + ks == ks;
        OtherHead(ts, attempt, ks, i);
        i := i + 1;
      }
    }
  }

  lemma FinalHead(ts: seq<Token>, attempt: Bytes, ks: seq<Kind>)
    requires OwnMarker(ts, attempt, 0, true)
    ensures RunIs(ts, attempt, [ts[0].what.kind] + ks, 0)
  {
  }

  lemma ReadyHead(ts: seq<Token>, attempt: Bytes, ks: seq<Kind>, i: int)
    requires OwnMarker(ts, attempt, 0, false) && RunIs(ts[1..], attempt, ks, i)
    ensures RunIs(ts, attempt, [Ready] + ks, i + 1)
  {
    assert ([Ready] + ks)[1..] == ks;
    assert ReadyRun([Ready] + ks) == 1 + ReadyRun(ks);
    hide ReadyRun;
    OwnShift(ts, attempt);
    assert ReadyFirst(ts, attempt);
    hide ReadyFirst;
    FinalShift(ts, attempt, i);
    hide FirstFinal;
  }

  lemma OtherHead(ts: seq<Token>, attempt: Bytes, ks: seq<Kind>, i: int)
    requires ts != [] && RunIs(ts[1..], attempt, ks, i)
    requires !OwnMarker(ts, attempt, 0, true) && !OwnMarker(ts, attempt, 0, false)
    ensures RunIs(ts, attempt, ks, i + 1)
  {
    hide ReadyRun;
    OwnShift(ts, attempt);
    ReadyShift(ts, attempt);
    hide ReadyFirst;
    FinalShift(ts, attempt, i);
    hide FirstFinal;
  }

  lemma FinalShift(ts: seq<Token>, attempt: Bytes, i: int)
    requires ts != [] && !OwnMarker(ts, attempt, 0, true)
    ensures FirstFinal(ts[1..], attempt, i) ==> FirstFinal(ts, attempt, i + 1) && ts[i + 1] == ts[1..][i]
  {
    OwnShift(ts, attempt);
  }

  lemma OwnShift(ts: seq<Token>, attempt: Bytes)
    requires ts != []
    ensures forall j, final :: j > 0 ==> (OwnMarker(ts, attempt, j, final) <==> OwnMarker(ts[1..], attempt, j - 1, final))
    ensures forall j, final :: OwnMarker(ts[1..], attempt, j, final) ==> OwnMarker(ts, attempt, j + 1, final)
  {
  }

  lemma ReadyShift(ts: seq<Token>, attempt: Bytes)
    requires ts != [] && !OwnMarker(ts, attempt, 0, true) && !OwnMarker(ts, attempt, 0, false)
    ensures ReadyFirst(ts, attempt) <==> ReadyFirst(ts[1..], attempt)
  {
    OwnShift(ts, attempt);
    if ReadyFirst(ts, attempt) {
      var i :| OwnMarker(ts, attempt, i, false) && forall j :: 0 <= j < i ==> !OwnMarker(ts, attempt, j, true);
      assert OwnMarker(ts[1..], attempt, i - 1, false);
    }
    if ReadyFirst(ts[1..], attempt) {
      var i :| OwnMarker(ts[1..], attempt, i, false) && forall j :: 0 <= j < i ==> !OwnMarker(ts[1..], attempt, j, true);
      assert OwnMarker(ts, attempt, i + 1, false);
    }
  }

  /**
   What a fresh decoder announces of a whole reading.  Ready is announced if and only if a ready
   marker of this very attempt is recognised before any final marker of it; a final event, if
   and only if there is one, and it is that of the first, a detach without ready counting as a
   failure.  Nothing else is announced.
   */
  lemma EventsAreOwn(ts: seq<Token>, attempt: Bytes)
    ensures
      var a := Announce(ts, attempt, Progress(false, false));
      && (Ready in a.events <==> ReadyFirst(ts, attempt)) && (a.progress.ready <==> ReadyFirst(ts, attempt))
      && (a.progress.finished <==> exists i :: FirstFinal(ts, attempt, i))
      && (forall i :: FirstFinal(ts, attempt, i) ==>
            a.events == (if ReadyFirst(ts, attempt) then [Ready] else [])
                        + [if ts[i].what.kind == Detached && !ReadyFirst(ts, attempt) then Failed else ts[i].what.kind])
      && (!a.progress.finished ==> a.events == if ReadyFirst(ts, attempt) then [Ready] else [])
  {
    AnnouncedIsWorth(ts, attempt, Progress(false, false));
    var i := RunOfTokens(ts, attempt);
    var ks := OwnKinds(ts, attempt);
    hide ReadyFirst;
    hide OwnKinds;
    hide Announce;
    hide ReadyRun;
    forall j | FirstFinal(ts, attempt, j) ensures ReadyRun(ks) < |ks| && j == i {
      if ReadyRun(ks) < |ks| {
        assert !(i < j) && !(j < i);
      }
    }
  }

  // ---------------------------------------------------------------- feeding

  datatype Fed = Fed(output: Bytes, events: seq<Kind>, held: Bytes, progress: Progress)

  /** What the reference makes of the bytes `p` (held bytes followed by fresh ones). */
  function Digest(p: Bytes, eof: bool, attempt: Bytes, st: Progress): Fed {
    var r := Tokenize(p, eof);
    var a := Announce(r.tokens, attempt, st);
    Fed(Visible(r.tokens), a.events, r.held, a.progress)
  }

  function Then(first: Fed, second: Fed): Fed {
    second.(output := first.output + second.output, events := first.events + second.events)
  }

  /** Chunk invariance: two feeds deliver together exactly what one feed of all the bytes delivers. */
  lemma FeedTwice(p: Bytes, more: Bytes, eof: bool, attempt: Bytes, st: Progress)
    ensures
      var first := Digest(p, false, attempt, st);
      var second := Digest(first.held + more, eof, attempt, first.progress);
      Digest(p + more, eof, attempt, st) == Then(first, second)
  {
    hide Tokenize;
    TwoChunks(p, more, eof);
    var a := Tokenize(p, false);
    var b := Tokenize(a.held + more, eof);
    VisibleAppend(a.tokens, b.tokens);
    AnnounceAppend(a.tokens, b.tokens, attempt, st);
  }

  /** Feeds a list of chunks; the end of the stream, if any, comes with the last one. */
  function FeedAll(held: Bytes, chunks: seq<Bytes>, eof: bool, attempt: Bytes, st: Progress): Fed
    requires chunks != []
    decreases chunks
  {
    if |chunks| == 1 then Digest(held + chunks[0], eof, attempt, st)
    else
      var first := Digest(held + chunks[0], false, attempt, st);
      Then(first, FeedAll(first.held, chunks[1..], eof, attempt, first.progress))
  }

  /** However a stream is cut into chunks, the terminal sees the same output, events and state. */
  lemma {:induction false} ChunkInvariance(held: Bytes, chunks: seq<Bytes>, eof: bool, attempt: Bytes, st: Progress)
    requires chunks != []
    ensures FeedAll(held, chunks, eof, attempt, st) == Digest(held + Concat(chunks), eof, attempt, st)
    decreases chunks
  {
    hide Digest;
    if |chunks| == 1 {
      assert Concat(chunks) == chunks[0];
    } else {
      var first := Digest(held + chunks[0], false, attempt, st);
      ChunkInvariance(first.held, chunks[1..], eof, attempt, first.progress);
      FeedTwice(held + chunks[0], Concat(chunks[1..]), eof, attempt, st);
      assert held + Concat(chunks) == (held + chunks[0]) + Concat(chunks[1..]);
    }
  }

  // ---------------------------------------------------------------- the decoder object

  lemma DigestEmpty(eof: bool, attempt: Bytes, st: Progress)
    ensures Digest([], eof, attempt, st) == Fed([], [], [], st)
  {
  }

  lemma DigestHold(p: Bytes, eof: bool, attempt: Bytes, st: Progress)
    requires p != [] && Decide(p, eof).Hold?
    ensures Digest(p, eof, attempt, st) == Fed([], [], p, st)
  {
    hide Decide;
  }

  lemma DigestStep(p: Bytes, eof: bool, attempt: Bytes, st: Progress)
    requires p != [] && !Decide(p, eof).Hold?
    ensures
      var d := Decide(p, eof);
      var a := if d.Text? then Announced([], st) else Note(d.what, attempt, st);
      var now := Fed(if d.Text? then p[..d.length] else [], a.events, [], a.progress);
      Digest(p, eof, attempt, st) == Then(now, Digest(p[d.length..], eof, attempt, a.progress))
  {
    hide Note;
    TokenizeStep(p, eof);
    var d := Decide(p, eof);
    var rest := Tokenize(p[d.length..], eof);
    hide *;
    AnnounceCons(TokenOf(p, d), rest.tokens, attempt, st);
  }

  lemma AnnounceCons(t: Token, ts: seq<Token>, attempt: Bytes, st: Progress)
    ensures
      var a := if t.Plain? then Announced([], st) else Note(t.what, attempt, st);
      var rest := Announce(ts, attempt, a.progress);
      Announce([t] + ts, attempt, st) == Announced(a.events + rest.events, rest.progress)
    ensures Visible([t] + ts) == (if t.Plain? then t.bytes else []) + Visible(ts)
  {
    assert ([t] + ts)[1..] == ts;
    assert [] + Announce(ts, attempt, st).events == Announce(ts, attempt, st).events;
  }

  /** The first position where `pat` occurs, or -1. */
  function Index(p: Bytes, pat: Bytes): (r: int)
    requires pat != []
    ensures r >= 0 ==> r < |p| && pat <= p[r..]
    ensures forall i :: 0 <= i < |p| && (r < 0 || i < r) ==> !(pat <= p[i..])
  {
    if p == [] then -1
    else if pat <= p then 0
    else
      var r := Index(p[1..], pat);
      assert forall i :: 0 < i < |p| ==> p[i..] == p[1..][i - 1..];
      if r < 0 then -1 else r + 1
  }

  /** Bytes that neither start the prefix nor wait for the rest of it pass straight through. */
  lemma {:induction false} DigestPlain(p: Bytes, n: nat, eof: bool, attempt: Bytes, st: Progress)
    requires n <= |p|
    requires forall i :: 0 <= i < n ==> !(PREFIX <= p[i..])
    requires forall i :: 0 <= i < n ==> eof || !(p[i..] <= PREFIX)
    ensures Digest(p, eof, attempt, st) == Then(Fed(p[..n], [], [], st), Digest(p[n..], eof, attempt, st))
    decreases n
  {
    hide Digest;
    if n == 0 {
      assert p[0..] == p;
      assert p[..0] == [];
      assert forall s: Bytes :: [] + s == s;
    } else {
      assert p[0..] == p;
      assert Decide(p, eof) == Text(1);
      DigestStep(p, eof, attempt, st);
      assert forall i :: 0 <= i < n - 1 ==> p[1..][i..] == p[i + 1..];
      DigestPlain(p[1..], n - 1, eof, attempt, st);
      assert p[1..][n - 1..] == p[n..];
      assert p[..n] == p[..1] + p[1..][..n - 1];
    }
  }

  class Decoder {
    const attempt: Bytes
    var pending: Bytes
    var ready: bool
    var finished: bool

    constructor (attempt: Bytes)
      ensures this.attempt == attempt && pending == [] && !ready && !finished
    {
      this.attempt := attempt;
      pending := [];
      ready, finished := false, false;
    }

    function State(): Progress
      reads this
    {
      Progress(ready, finished)
    }

    /** The longest proper prefix of the marker prefix that the pending bytes end with. */
    method Keep() returns (keep: nat)
      ensures keep < |PREFIX| && keep <= |pending| && pending[|pending| - keep..] == PREFIX[..keep]
      ensures forall n :: keep < n < |PREFIX| && n <= |pending| ==> pending[|pending| - n..] != PREFIX[..n]
    {
      keep := 0;
      var n := 1;
      while n < |PREFIX| && n <= |pending|
        invariant keep < n <= |PREFIX|
        invariant keep <= |pending| && pending[|pending| - keep..] == PREFIX[..keep]
        invariant forall k :: keep < k < n && k <= |pending| ==> pending[|pending| - k..] != PREFIX[..k]
      {
        if pending[|pending| - n..] == PREFIX[..n] {
          keep := n;
        }
        n := n + 1;
      }
    }

    /** One decoded marker changes the attempt's progress and may announce an event. */
    method Observe(w: Lifecycle) returns (events: seq<Kind>)
      modifies this`ready, this`finished
      ensures Announced(events, State()) == Note(w, attempt, old(State()))
    {
      events := [];
      if w.attempt != attempt || finished {
        return;
      }
      if w.kind == Ready {
        if !ready {
          ready := true;
          events := [Ready];
        }
        return;
      }
      finished := true;
      events := [if w.kind == Detached && !ready then Failed else w.kind];
    }

    /** No marker prefix is left: everything is output but a tail that may become one. */
    method Flush(eof: bool) returns (output: Bytes)
      requires forall i :: 0 <= i < |pending| ==> !(PREFIX <= pending[i..])
      modifies this`pending
      ensures Fed(output, [], pending, State()) == Digest(old(pending), eof, attempt, State())
    {
      var keep := 0;
      if !eof {
        keep := Keep();
      }
      var flush := |pending| - keep;
      FlushIsPlain(pending, keep, eof);
      DigestPlain(pending, flush, eof, attempt, State());
      TailIsHeld(pending[flush..], eof, attempt, State());
      output := pending[..flush];
      pending := pending[flush..];
    }

    /** The pending bytes start with the marker prefix: drops one byte, or one framed candidate. */
    method TakeCandidate(end: int, eof: bool) returns (output: Bytes, events: seq<Kind>)
      requires PREFIX <= pending && end == IndexOf(pending, US)
      requires !(end < 0 && |pending| < LIMIT && !eof)
      modifies this
      ensures |pending| < |old(pending)|
      ensures Digest(old(pending), eof, attempt, old(State()))
           == Then(Fed(output, events, [], old(State())), Digest(pending, eof, attempt, State()))
    {
      hide *;
      DecideCandidate(pending, eof);
      ghost var st := Progress(ready, finished);
      StateKept(st);
      output, events := [], [];
      if end < 0 || end >= LIMIT {
        DigestText(pending, 1, eof, attempt, st);
        output := [pending[0]];
        assert pending[..1] == output;
        pending := pending[1..];
        StateKept(st);
        return;
      }
      var what := ParseMarker(pending[..end + 1]);
      if what.None? {
        DigestText(pending, end + 1, eof, attempt, st);
        output := pending[..end + 1];
        pending := pending[end + 1..];
        StateKept(st);
        return;
      }
      DigestFound(pending, end + 1, what.value, eof, attempt, st);
      pending := pending[end + 1..];
      StateKept(st);
      events := Observe(what.value);
      AnnouncedIs(events, State());
    }

    lemma StateKept(st: Progress)
      requires Progress(ready, finished) == st
      ensures State() == st
    {
    }

    /** Consumes a chunk: delivers terminal output and announced events, holds an unfinished tail. */
    method Feed(data: Bytes, eof: bool) returns (output: Bytes, events: seq<Kind>)
      modifies this
      ensures Fed(output, events, pending, State()) == Digest(old(pending) + data, eof, attempt, old(State()))
    {
      hide Digest;
      output, events := [], [];
      pending := pending + data;
      ghost var goal := Digest(pending, eof, attempt, State());
      NothingYet(goal, State());
      while pending != []
        invariant goal == Then(Fed(output, events, [], State()), Digest(pending, eof, attempt, State()))
        decreases |pending|
      {
        ghost var st := State();
        var start := Index(pending, PREFIX);
        if start < 0 {
          var rest := Flush(eof);
          output := output + rest;
          assert goal == Fed(output, events, pending, State());
          break;
        }
        LongBeforePrefix(pending, start);
        DigestPlain(pending, start, eof, attempt, st);
        Accumulate(output, events, pending[..start], [], st, Digest(pending[start..], eof, attempt, st));
        output := output + pending[..start];
        pending := pending[start..];
        var end := IndexOf(pending, US);
        if end < 0 && |pending| < LIMIT && !eof {
          DigestHold(pending, eof, attempt, st);
          break;
        }
        var text, more := TakeCandidate(end, eof);
        Accumulate(output, events, text, more, st, Digest(pending, eof, attempt, State()));
        output, events := output + text, events + more;
      }
      if pending == [] {
        DigestEmpty(eof, attempt, State());
      }
    }
  }

  lemma LongBeforePrefix(p: Bytes, start: nat)
    requires start <= |p| && PREFIX <= p[start..]
    ensures forall i :: 0 <= i < start ==> !(p[i..] <= PREFIX)
  {
  }

  lemma AnnouncedIs(events: seq<Kind>, st: Progress)
    ensures Announced(events, st).events == events && Announced(events, st).progress == st
  {
  }

  lemma NothingYet(f: Fed, st: Progress)
    ensures f == Then(Fed([], [], [], st), f)
  {
  }

  lemma Accumulate(output: Bytes, events: seq<Kind>, x: Bytes, e: seq<Kind>, st: Progress, rest: Fed)
    ensures Then(Fed(output, events, [], st), Then(Fed(x, e, [], st), rest))
         == Then(Fed(output + x, events + e, [], st), rest)
    ensures events + [] == events && output + [] == output
  {
  }

  lemma DigestText(p: Bytes, n: nat, eof: bool, attempt: Bytes, st: Progress)
    requires p != [] && Decide(p, eof) == Text(n)
    ensures n <= |p| && Digest(p, eof, attempt, st) == Then(Fed(p[..n], [], [], st), Digest(p[n..], eof, attempt, st))
  {
    hide Digest;
    hide Decide;
    hide Note;
    DigestStep(p, eof, attempt, st);
  }

  lemma DigestFound(p: Bytes, n: nat, what: Lifecycle, eof: bool, attempt: Bytes, st: Progress)
    requires p != [] && Decide(p, eof) == Found(n, what)
    ensures n <= |p|
    ensures
      var a := Note(what, attempt, st);
      Digest(p, eof, attempt, st) == Then(Fed([], a.events, [], st), Digest(p[n..], eof, attempt, a.progress))
  {
    hide Digest;
    hide Decide;
    hide Note;
    DigestStep(p, eof, attempt, st);
  }

  lemma DecideCandidate(p: Bytes, eof: bool)
    requires PREFIX <= p && !(IndexOf(p, US) < 0 && |p| < LIMIT && !eof)
    ensures p != []
    ensures
      var end := IndexOf(p, US);
      if end < 0 || end >= LIMIT then Decide(p, eof) == Text(1)
      else
        && end >= |PREFIX|
        && var what := ParseMarker(p[..end + 1]);
           Decide(p, eof) == if what.None? then Text(end + 1) else Found(end + 1, what.value)
  {
    hide ParseMarker;
    hide PREFIX;
    hide IndexOf;
    PrefixShape();
    DelimiterAfterPrefix(p);
  }

  lemma FlushIsPlain(p: Bytes, keep: nat, eof: bool)
    requires keep < |PREFIX| && keep <= |p|
    requires forall i :: 0 <= i < |p| ==> !(PREFIX <= p[i..])
    requires !eof ==> forall n :: keep < n < |PREFIX| && n <= |p| ==> p[|p| - n..] != PREFIX[..n]
    ensures forall i :: 0 <= i < |p| - keep ==> eof || !(p[i..] <= PREFIX)
  {
    if !eof {
      forall i | 0 <= i < |p| - keep ensures !(p[i..] <= PREFIX) {
        var n := |p| - i;
        assert p[|p| - n..] == p[i..];
        if p[i..] <= PREFIX {
          ProperPrefix(p[i..]);
        }
      }
    }
  }

  lemma ProperPrefix(q: Bytes)
    requires !(PREFIX <= q) && q <= PREFIX
    ensures |q| < |PREFIX| && q == PREFIX[..|q|]
  {
  }

  lemma TailIsHeld(tail: Bytes, eof: bool, attempt: Bytes, st: Progress)
    requires |tail| < |PREFIX| && tail == PREFIX[..|tail|] && (eof ==> tail == [])
    ensures Digest(tail, eof, attempt, st) == Fed([], [], tail, st)
  {
    if tail == [] {
      DigestEmpty(eof, attempt, st);
    } else {
      DigestHold(tail, eof, attempt, st);
    }
  }

  // ---------------------------------------------------------------- when a marker is recognised

  lemma MarkerShape(attempt: Bytes, k: Kind)
    requires ValidAttempt(attempt)
    ensures
      var m := Marker(attempt, k);
      && |PREFIX| < |m| <= 64 && PREFIX <= m && m[0] == RS && RS !in m[1..]
      && m[|m| - 1] == US && US !in m[..|m| - 1]
  {
    hide KindName;
    hide PREFIX;
    KindNameShape(k);
    PrefixShape();
    var m := Marker(attempt, k);
    assert m[..|m| - 1] == PREFIX + attempt + [COLON] + KindName(k);
    assert m[1..] == PREFIX[1..] + attempt + [COLON] + KindName(k) + [US];
  }

  /** A marker at the head of the stream is read as that marker. */
  lemma MarkerRead(attempt: Bytes, k: Kind, rest: Bytes, eof: bool)
    requires ValidAttempt(attempt)
    ensures
      var m := Marker(attempt, k);
      var r := Tokenize(rest, eof);
      Tokenize(m + rest, eof) == Reading([Mark(m, Lifecycle(attempt, k))] + r.tokens, r.held)
  {
    hide ParseMarker;
    hide PREFIX;
    hide Tokenize;
    MarkerShape(attempt, k);
    ParseMarkerRoundTrip(attempt, k);
    var m := Marker(attempt, k);
    hide Marker;
    var n := |m| - 1;
    assert m + rest == m[..n] + [US] + rest;
    IndexOfUnique(m[..n], US, rest);
    assert (m + rest)[..n + 1] == m && (m + rest)[n + 1..] == rest;
    DecideCandidate(m + rest, eof);
    TokenizeStep(m + rest, eof);
  }

  /** A held tail never contains the delimiter. */
  lemma {:induction false} HeldHasNoDelimiter(p: Bytes, eof: bool)
    ensures US !in Tokenize(p, eof).held
    decreases |p|
  {
    hide ParseMarker;
    hide PREFIX;
    PrefixShape();
    if p != [] && !Decide(p, eof).Hold? {
      HeldHasNoDelimiter(p[Decide(p, eof).length..], eof);
    }
  }

  /**
   A marker of `n` bytes right after `h` is swallowed when a marker prefix in `h` is close
   enough to take the marker's delimiter for its own.
   */
  ghost predicate Swallows(h: Bytes, n: nat) {
    exists q :: 0 <= q < |h| && PREFIX <= h[q..] && |h| - q + n <= LIMIT
  }

  /** The stream reads as some plain tokens, then `marks`, then whatever `rest` reads as. */
  ghost predicate ReadsAs(s: Bytes, plain: seq<Token>, marks: seq<Token>, rest: Bytes, eof: bool) {
    && (forall t <- plain :: t.Plain?)
    && Tokenize(s, eof).tokens == plain + marks + Tokenize(rest, eof).tokens
  }

  lemma ReadsAsOneMore(s: Bytes, n: nat, plain: seq<Token>, marks: seq<Token>, rest: Bytes, eof: bool)
    requires s != [] && Decide(s, eof) == Text(n)
    requires ReadsAs(s[n..], plain, marks, rest, eof)
    ensures ReadsAs(s, [Plain(s[..n])] + plain, marks, rest, eof)
  {
    hide Decide;
    hide Tokenize;
    TokenizeStep(s, eof);
    var after := Tokenize(rest, eof).tokens;
    assert [Plain(s[..n])] + (plain + marks + after) == ([Plain(s[..n])] + plain) + marks + after;
  }

  ghost function MarkAfter(h: Bytes, attempt: Bytes, k: Kind): seq<Token>
    requires ValidAttempt(attempt)
  {
    var m := Marker(attempt, k);
    if Swallows(h, |m|) then [] else [Mark(m, Lifecycle(attempt, k))]
  }

  /**
   The exact condition under which a marker is recognised: it is, unless the bytes held
   before it swallow it.  Either way the reading of what follows is not disturbed.
   */
  lemma {:induction false} HeldThenMarker(h: Bytes, attempt: Bytes, k: Kind, rest: Bytes, eof: bool)
    returns (plain: seq<Token>)
    requires ValidAttempt(attempt) && US !in h
    ensures ReadsAs(h + Marker(attempt, k) + rest, plain, MarkAfter(h, attempt, k), rest, eof)
    decreases |h|
  {
    hide Marker;
    hide PREFIX;
    hide ReadsAs;
    hide Tokenize;
    hide Decide;
    var m := Marker(attempt, k);
    var s := h + m + rest;
    if h == [] {
      assert s == m + rest;
      MarkerAlone(attempt, k, rest, eof);
      plain := [];
    } else if PREFIX <= h && |h| + |m| <= LIMIT {
      assert h[0..] == h;
      SwallowStep(h, attempt, k, rest, eof);
      plain := [Plain(h + m)];
    } else {
      SkipStep(h, attempt, k, rest, eof);
      SwallowsTail(h, |m|);
      assert s[1..] == h[1..] + m + rest;
      plain := HeldThenMarker(h[1..], attempt, k, rest, eof);
      ReadsAsOneMore(s, 1, plain, MarkAfter(h, attempt, k), rest, eof);
      plain := [Plain(s[..1])] + plain;
    }
  }

  lemma MarkerAlone(attempt: Bytes, k: Kind, rest: Bytes, eof: bool)
    requires ValidAttempt(attempt)
    ensures ReadsAs(Marker(attempt, k) + rest, [], [Mark(Marker(attempt, k), Lifecycle(attempt, k))], rest, eof)
  {
    hide Marker;
    hide Tokenize;
    MarkerRead(attempt, k, rest, eof);
  }

  /** Text before a marker and the marker form one malformed frame. */
  lemma SwallowStep(h: Bytes, attempt: Bytes, k: Kind, rest: Bytes, eof: bool)
    requires ValidAttempt(attempt) && US !in h && PREFIX <= h && |h| + |Marker(attempt, k)| <= LIMIT
    ensures ReadsAs(h + Marker(attempt, k) + rest, [Plain(h + Marker(attempt, k))], [], rest, eof)
  {
    var m := Marker(attempt, k);
    MarkerShape(attempt, k);
    NotAMarker(h, attempt, k);
    hide Marker;
    hide PREFIX;
    hide Tokenize;
    hide ParseMarker;
    var s := h + m + rest;
    var n := |h| + |m|;
    DelimiterOfMarker(h, m, rest);
    assert s[..n] == h + m && s[n..] == rest;
    assert PREFIX <= s;
    DecideCandidate(s, eof);
    hide Decide;
    assert ReadsAs(s[n..], [], [], rest, eof) by {
      assert [] + [] + Tokenize(rest, eof).tokens == Tokenize(rest, eof).tokens;
    }
    ReadsAsOneMore(s, n, [], [], rest, eof);
    assert [Plain(h + m)] + [] == [Plain(h + m)];
  }

  lemma DelimiterOfMarker(h: Bytes, m: Bytes, rest: Bytes)
    requires US !in h && m != [] && m[|m| - 1] == US && US !in m[..|m| - 1]
    ensures IndexOf(h + m + rest, US) == |h| + |m| - 1
  {
    assert h + m + rest == (h + m[..|m| - 1]) + [US] + rest;
    IndexOfUnique(h + m[..|m| - 1], US, rest);
  }

  /** Bytes that cannot swallow the marker are passed on one by one. */
  lemma SkipStep(h: Bytes, attempt: Bytes, k: Kind, rest: Bytes, eof: bool)
    requires ValidAttempt(attempt) && US !in h && h != []
    requires !(PREFIX <= h && |h| + |Marker(attempt, k)| <= LIMIT)
    ensures Decide(h + Marker(attempt, k) + rest, eof) == Text(1)
  {
    var m := Marker(attempt, k);
    MarkerShape(attempt, k);
    hide Marker;
    hide PREFIX;
    hide ParseMarker;
    var s := h + m + rest;
    if PREFIX <= s {
      PrefixBeforeMarker(h, m, rest);
      DelimiterOfMarker(h, m, rest);
      DecideCandidate(s, eof);
    } else {
      assert |s| > |PREFIX|;
    }
  }

  lemma SwallowsTail(h: Bytes, n: nat)
    requires h != [] && !(PREFIX <= h && |h| + n <= LIMIT)
    ensures Swallows(h, n) <==> Swallows(h[1..], n)
  {
    hide PREFIX;
    assert h[0..] == h;
    if Swallows(h, n) {
      var q :| 0 <= q < |h| && PREFIX <= h[q..] && |h| - q + n <= LIMIT;
      assert h[1..][q - 1..] == h[q..];
    }
    if Swallows(h[1..], n) {
      var q :| 0 <= q < |h[1..]| && PREFIX <= h[1..][q..] && |h[1..]| - q + n <= LIMIT;
      assert h[1..][q..] == h[q + 1..];
    }
  }

  lemma PrefixInterior(s: Bytes, i: nat)
    requires PREFIX <= s && 1 <= i < |PREFIX|
    ensures s[i] != RS
  {
    PrefixShape();
    hide PREFIX;
    assert s[i] == PREFIX[i] == PREFIX[1..][i - 1];
  }

  lemma PrefixBeforeMarker(h: Bytes, m: Bytes, rest: Bytes)
    requires h != [] && m != [] && m[0] == RS && PREFIX <= h + m + rest
    ensures PREFIX <= h
  {
    hide PREFIX;
    var s := h + m + rest;
    assert s[|h|] == RS;
    if |h| < |PREFIX| {
      PrefixInterior(s, |h|);
    } else {
      assert s[..|PREFIX|] == h[..|PREFIX|];
    }
  }

  lemma MarkerInterior(f: Bytes, w: Lifecycle, i: nat)
    requires ValidAttempt(w.attempt) && f == Marker(w.attempt, w.kind) && 1 <= i < |f|
    ensures f[i] != RS
  {
    MarkerShape(w.attempt, w.kind);
    hide Marker;
    assert f[i] == f[1..][i - 1];
  }

  /** Text before a marker makes the whole frame malformed. */
  lemma NotAMarker(h: Bytes, attempt: Bytes, k: Kind)
    requires ValidAttempt(attempt) && PREFIX <= h
    ensures |h + Marker(attempt, k)| > |PREFIX|
    ensures ParseMarker(h + Marker(attempt, k)).None?
  {
    var m := Marker(attempt, k);
    MarkerShape(attempt, k);
    PrefixShape();
    hide ParseMarker;
    hide PREFIX;
    hide Marker;
    var f := h + m;
    assert f[|h|] == RS;
    if ParseMarker(f).Some? {
      ParsedMarker(f);
      MarkerInterior(f, ParseMarker(f).value, |h|);
    }
  }

  /**
   A marker anywhere in a stream: after any text `t` it is read as a marker if and only if the
   bytes held at the end of `t` do not swallow it.
   */
  lemma MarkerInStream(t: Bytes, attempt: Bytes, k: Kind, rest: Bytes, eof: bool) returns (plain: seq<Token>)
    requires ValidAttempt(attempt)
    ensures forall p <- plain :: p.Plain?
    ensures
      var before := Tokenize(t, false);
      Tokenize(t + Marker(attempt, k) + rest, eof).tokens
      == before.tokens + (plain + MarkAfter(before.held, attempt, k) + Tokenize(rest, eof).tokens)
  {
    hide Marker;
    hide Tokenize;
    hide MarkAfter;
    var m := Marker(attempt, k);
    var before := Tokenize(t, false);
    HeldHasNoDelimiter(t, false);
    plain := HeldThenMarker(before.held, attempt, k, rest, eof);
    TwoChunks(t, m + rest, eof);
    assert t + m + rest == t + (m + rest);
    assert before.held + m + rest == before.held + (m + rest);
  }

  /** A stray marker prefix directly before a marker hides it: a stream whose `ready` is never announced. */
  lemma StrayPrefixHidesMarker(attempt: Bytes, eof: bool)
    requires ValidAttempt(attempt)
    ensures Digest(PREFIX + Marker(attempt, Ready), eof, attempt, Progress(false, false)).events == []
  {
    PrefixShape();
    MarkerShape(attempt, Ready);
    var m := Marker(attempt, Ready);
    hide Marker;
    hide PREFIX;
    hide Tokenize;
    assert PREFIX + m + [] == PREFIX + m;
    SwallowStep(PREFIX, attempt, Ready, [], eof);
    TokenizeEmpty(eof);
    assert Tokenize(PREFIX + m, eof).tokens == [Plain(PREFIX + m)];
    AnnounceCons(Plain(PREFIX + m), [], attempt, Progress(false, false));
    assert [Plain(PREFIX + m)] + [] == [Plain(PREFIX + m)];
  }

  lemma TokenizeEmpty(eof: bool)
    ensures Tokenize([], eof) == Reading([], [])
  {
  }
}
