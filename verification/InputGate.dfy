/**
 The physical-terminal input gate (internal/mirror/session_terminal.go).

 The gate tags every input byte with the attachment generation it was typed for, keeps
 bracketed pastes in one piece, and opens a new generation only on an input boundary.
 `Scan` is the reference reading of a whole input; the gate works byte by byte.
 */
module InputGate {
  import opened Wrappers
  import opened Bytes

  type Time = int

  /** ESC [ 2 0 0 ~ and ESC [ 2 0 1 ~ */
  const PASTE_START: Bytes := [0x1b, 91, 50, 48, 48, 126]
  const PASTE_END: Bytes := [0x1b, 91, 50, 48, 49, 126]

  const PREFIX_TIMEOUT: Time := 30_000_000

  function Target(paste: bool): (r: Bytes)
    ensures |r| == 6 && r[0] == ESC && ESC !in r[1..]
  {
    if paste then PASTE_END else PASTE_START
  }

  // ---------------------------------------------------------------- the reference reading

  /** A byte with the side of a paste it belongs to; both delimiters belong to their paste. */
  datatype Marked = Marked(b: byte, paste: bool)

  function MarkAll(s: Bytes, paste: bool): (r: seq<Marked>)
    ensures |r| == |s| && forall i :: 0 <= i < |s| ==> r[i] == Marked(s[i], paste)
  {
    seq(|s|, i requires 0 <= i < |s| => Marked(s[i], paste))
  }

  datatype Scanned = Scanned(out: seq<Marked>, held: Bytes, paste: bool)

  /** Reads a whole input: alternating delimiters toggle, anything else passes byte by byte. */
  function Scan(s: Bytes, paste: bool): (r: Scanned)
    ensures |r.held| < 6 && r.held <= Target(r.paste)
    decreases |s|
  {
    if Target(paste) <= s then
      var rest := Scan(s[6..], !paste);
      rest.(out := MarkAll(Target(paste), true) + rest.out)
    else if s <= Target(paste) then Scanned([], s, paste)
    else
      var rest := Scan(s[1..], paste);
      rest.(out := [Marked(s[0], paste)] + rest.out)
  }

  lemma ScanHeld(s: Bytes, paste: bool)
    requires s <= Target(paste) && |s| < 6
    ensures Scan(s, paste) == Scanned([], s, paste)
  {
  }

  lemma ScanByte(s: Bytes, paste: bool)
    requires s != [] && !(Target(paste) <= s) && !(s <= Target(paste))
    ensures Scan(s, paste) == Scan(s[1..], paste).(out := [Marked(s[0], paste)] + Scan(s[1..], paste).out)
  {
  }

  lemma ScanDelimiter(s: Bytes, paste: bool)
    requires Target(paste) <= s
    ensures Scan(s, paste) == Scan(s[6..], !paste).(out := MarkAll(Target(paste), true) + Scan(s[6..], !paste).out)
  {
  }

  function Unmark(ms: seq<Marked>): (r: Bytes)
    ensures |r| == |ms| && forall i :: 0 <= i < |ms| ==> r[i] == ms[i].b
  {
    seq(|ms|, i requires 0 <= i < |ms| => ms[i].b)
  }

  /** The scan loses nothing and invents nothing. */
  lemma {:induction false} ScanKeepsBytes(s: Bytes, paste: bool)
    ensures Unmark(Scan(s, paste).out) + Scan(s, paste).held == s
    decreases |s|
  {
    hide Target;
    hide Scan;
    if Target(paste) <= s {
      var rest := Scan(s[6..], !paste);
      ScanDelimiter(s, paste);
      ScanKeepsBytes(s[6..], !paste);
      assert s == Target(paste) + s[6..];
      UnmarkJoin(Target(paste), true, rest.out);
      Regroup(Target(paste), Unmark(rest.out), rest.held);
    } else if s <= Target(paste) {
      ScanHeld(s, paste);
    } else {
      var rest := Scan(s[1..], paste);
      ScanByte(s, paste);
      ScanKeepsBytes(s[1..], paste);
      assert s == [s[0]] + s[1..];
      UnmarkJoin([s[0]], paste, rest.out);
      assert MarkAll([s[0]], paste) == [Marked(s[0], paste)];
      Regroup([s[0]], Unmark(rest.out), rest.held);
    }
  }

  lemma UnmarkJoin(s: Bytes, paste: bool, ms: seq<Marked>)
    ensures Unmark(MarkAll(s, paste) + ms) == s + Unmark(ms)
  {
  }

  /** Scanning in two parts, keeping the held tail in between, is scanning the whole. */
  lemma {:induction false} ScanTwice(s: Bytes, more: Bytes, paste: bool)
    ensures
      var first := Scan(s, paste);
      var second := Scan(first.held + more, first.paste);
      Scan(s + more, paste) == second.(out := first.out + second.out)
    decreases |s|
  {
    hide Target;
    hide Scan;
    hide MarkAll;
    var first := Scan(s, paste);
    var second := Scan(first.held + more, first.paste);
    if Target(paste) <= s {
      ScanDelimiter(s, paste);
      ScanDelimiter(s + more, paste);
      assert (s + more)[6..] == s[6..] + more;
      ScanTwice(s[6..], more, !paste);
      Regroup(MarkAll(Target(paste), true), Scan(s[6..], !paste).out, second.out);
    } else if s <= Target(paste) {
      ScanHeld(s, paste);
      assert [] + second.out == second.out;
    } else {
      ScanByte(s, paste);
      StillApart(Target(paste), s, more);
      ScanByte(s + more, paste);
      assert (s + more)[1..] == s[1..] + more;
      ScanTwice(s[1..], more, paste);
      Regroup([Marked(s[0], paste)], Scan(s[1..], paste).out, second.out);
    }
  }

  lemma StillApart(t: Bytes, s: Bytes, more: Bytes)
    requires !(t <= s) && !(s <= t)
    ensures !(t <= s + more) && !(s + more <= t)
  {
    var k :| 0 <= k < |s| && k < |t| && s[k] != t[k];
    assert (s + more)[k] == s[k];
  }

  /**
   Paste regions are the leftmost alternating occurrences of the delimiters: up to the first
   occurrence of the awaited delimiter everything passes unchanged, and the search for the
   other delimiter starts right behind it.
   */
  lemma {:induction false} LeftmostDelimiter(s: Bytes, paste: bool, i: nat)
    requires i <= |s| && Target(paste) <= s[i..]
    requires forall j :: 0 <= j < i ==> !(Target(paste) <= s[j..])
    ensures
      var rest := Scan(s[i + 6..], !paste);
      Scan(s, paste) == rest.(out := MarkAll(s[..i], paste) + MarkAll(Target(paste), true) + rest.out)
    decreases i
  {
    hide Target;
    hide Scan;
    var rest := Scan(s[i + 6..], !paste);
    var delimiter := MarkAll(Target(paste), true);
    assert s[0..] == s;
    if i == 0 {
      ScanDelimiter(s, paste);
      assert MarkAll(s[..0], paste) + delimiter + rest.out == delimiter + rest.out;
    } else {
      ScanByte(s, paste);
      DropOne(s, i, Target(paste));
      LeftmostDelimiter(s[1..], paste, i - 1);
      assert s[1..][i + 5..] == s[i + 6..];
      MarkAllCons(s, i, paste);
      hide *;
      var tail := MarkAll(s[1..][..i - 1], paste);
      Regroup([Marked(s[0], paste)], tail + delimiter, rest.out);
      Regroup([Marked(s[0], paste)], tail, delimiter);
    }
  }

  lemma DropOne(s: Bytes, i: nat, t: Bytes)
    requires 0 < i <= |s|
    ensures t <= s[i..] ==> t <= s[1..][i - 1..]
    ensures (forall j :: 0 <= j < i ==> !(t <= s[j..])) ==> forall j :: 0 <= j < i - 1 ==> !(t <= s[1..][j..])
  {
    assert s[1..][i - 1..] == s[i..];
    assert forall j :: 0 <= j < i - 1 ==> s[1..][j..] == s[j + 1..];
  }

  lemma MarkAllCons(s: Bytes, i: nat, paste: bool)
    requires 0 < i <= |s|
    ensures MarkAll(s[..i], paste) == [Marked(s[0], paste)] + MarkAll(s[1..][..i - 1], paste)
  {
  }

  /** Without the awaited delimiter nothing but a possible beginning of it is held back. */
  lemma {:induction false} NoDelimiter(s: Bytes, paste: bool)
    requires forall j :: 0 <= j <= |s| ==> !(Target(paste) <= s[j..])
    ensures
      var r := Scan(s, paste);
      r.paste == paste && |r.held| <= |s| && r.out == MarkAll(s[..|s| - |r.held|], paste)
    decreases |s|
  {
    hide Target;
    hide Scan;
    assert s[0..] == s;
    if s <= Target(paste) {
      ScanHeld(s, paste);
    } else {
      ScanByte(s, paste);
      assert forall j :: 0 <= j <= |s| - 1 ==> s[1..][j..] == s[j + 1..];
      NoDelimiter(s[1..], paste);
      MarkAllCons(s, |s| - |Scan(s[1..], paste).held|, paste);
    }
  }

  // ---------------------------------------------------------------- the gate's state

  /** Generation 0 means that no attachment takes input. */
  datatype Gate = Gate(
    generation: nat, next: nat,
    paste: bool, pasteGeneration: nat,
    prefix: Bytes, prefixGeneration: nat, prefixAt: Time)

  const NEW_GATE := Gate(0, 0, false, 0, [], 0, 0)

  datatype Tagged = Tagged(b: byte, generation: nat, paste: bool)

  function TagAll(s: Bytes, generation: nat, paste: bool): (r: seq<Tagged>)
    ensures |r| == |s| && forall i :: 0 <= i < |s| ==> r[i] == Tagged(s[i], generation, paste)
  {
    seq(|s|, i requires 0 <= i < |s| => Tagged(s[i], generation, paste))
  }

  ghost predicate GateInv(g: Gate) {
    && |g.prefix| < 6 && g.prefix <= Target(g.paste)
    && g.generation <= g.next
    && (g.prefix != [] ==> g.prefixGeneration <= g.next)
    && (g.paste ==> g.pasteGeneration <= g.next)
    && (g.paste && g.prefix != [] ==> g.prefixGeneration == g.pasteGeneration)
  }

  datatype Decoded = Decoded(gate: Gate, out: seq<Tagged>)

  /** Completes a delimiter, or releases bytes that cannot begin one. */
  function Settle(g: Gate): Decoded
    decreases |g.prefix|
  {
    if g.prefix == [] then Decoded(g, [])
    else if g.prefix <= Target(g.paste) then
      if |g.prefix| < 6 then Decoded(g, [])
      else
        Decoded(
          g.(paste := !g.paste, prefix := [],
             pasteGeneration := if g.paste then g.pasteGeneration else g.prefixGeneration),
          TagAll(g.prefix, g.prefixGeneration, true))
    else
      var rest := Settle(g.(prefix := g.prefix[1..]));
      rest.(out := [Tagged(g.prefix[0], g.prefixGeneration, g.paste)] + rest.out)
  }

  function Epoch(g: Gate): nat {
    if g.paste then g.pasteGeneration else g.generation
  }

  /** A byte of input and what the clock shows when it is decoded. */
  datatype Key = Key(b: byte, at: Time)

  function Typed(keys: seq<Key>): (r: Bytes)
    ensures |r| == |keys| && forall i :: 0 <= i < |keys| ==> r[i] == keys[i].b
  {
    seq(|keys|, i requires 0 <= i < |keys| => keys[i].b)
  }

  /** The byte joins the held prefix; an empty prefix takes its origin from this byte. */
  function Join(g: Gate, k: Key): Gate {
    if g.prefix == [] then g.(prefix := [k.b], prefixGeneration := Epoch(g), prefixAt := k.at)
    else g.(prefix := g.prefix + [k.b])
  }

  function Push(g: Gate, k: Key): Decoded {
    Settle(Join(g, k))
  }

  function Decode(g: Gate, keys: seq<Key>): Decoded
    decreases |keys|
  {
    if keys == [] then Decoded(g, [])
    else
      var first := Push(g, keys[0]);
      var rest := Decode(first.gate, keys[1..]);
      rest.(out := first.out + rest.out)
  }

  function FlushPrefix(g: Gate, now: Time): Decoded {
    if g.prefix == [] || now - g.prefixAt < PREFIX_TIMEOUT then Decoded(g, [])
    else Decoded(g.(prefix := []), TagAll(g.prefix, g.prefixGeneration, g.paste))
  }

  // ---------------------------------------------------------------- the gate refines the scan

  function Marks(ts: seq<Tagged>): (r: seq<Marked>)
    ensures |r| == |ts| && forall i :: 0 <= i < |ts| ==> r[i] == Marked(ts[i].b, ts[i].paste)
  {
    seq(|ts|, i requires 0 <= i < |ts| => Marked(ts[i].b, ts[i].paste))
  }

  /** What a settled gate shows of the reference reading. */
  ghost predicate Shows(d: Decoded, r: Scanned) {
    Marks(d.out) == r.out && d.gate.prefix == r.held && d.gate.paste == r.paste
  }

  lemma MarksJoin(a: seq<Tagged>, b: seq<Tagged>)
    ensures Marks(a + b) == Marks(a) + Marks(b)
  {
  }

  lemma {:induction false} SettleScans(g: Gate)
    requires |g.prefix| <= 6
    ensures Shows(Settle(g), Scan(g.prefix, g.paste))
    decreases |g.prefix|
  {
    hide Scan;
    hide Target;
    var p := g.prefix;
    if p == [] {
      ScanHeld(p, g.paste);
    } else if p <= Target(g.paste) {
      if |p| < 6 {
        ScanHeld(p, g.paste);
      } else {
        assert p == Target(g.paste) && p[6..] == [];
        ScanDelimiter(p, g.paste);
        ScanHeld([], !g.paste);
        assert Marks(TagAll(p, g.prefixGeneration, true)) == MarkAll(p, true) + [];
      }
    } else {
      ShorterThanTarget(p, g.paste);
      var rest := g.(prefix := p[1..]);
      SettleScans(rest);
      ScanByte(p, g.paste);
      MarksJoin([Tagged(p[0], g.prefixGeneration, g.paste)], Settle(rest).out);
      assert Marks([Tagged(p[0], g.prefixGeneration, g.paste)]) == [Marked(p[0], g.paste)];
    }
  }

  lemma PushScans(g: Gate, k: Key)
    requires |g.prefix| < 6
    ensures Shows(Push(g, k), Scan(g.prefix + [k.b], g.paste))
  {
    hide Settle;
    hide Scan;
    hide Shows;
    assert Join(g, k).prefix == g.prefix + [k.b] && Join(g, k).paste == g.paste;
    SettleScans(Join(g, k));
  }

  lemma ShorterThanTarget(p: Bytes, paste: bool)
    requires |p| <= 6 && !(p <= Target(paste))
    ensures !(Target(paste) <= p)
  {
    hide Target;
  }

  /**
   Refinement for any input, any earlier chunking and any timing: from a gate that already
   shows the scan of what came before, decoding shows the scan of everything.
   */
  lemma {:induction false} DecodeScans(g: Gate, keys: seq<Key>)
    requires |g.prefix| < 6 && g.prefix <= Target(g.paste)
    ensures Shows(Decode(g, keys), Scan(g.prefix + Typed(keys), g.paste))
    decreases |keys|
  {
    hide *;
    if keys == [] {
      DecodeNone(g);
      assert g.prefix + Typed(keys) == g.prefix;
      ScanHeld(g.prefix, g.paste);
      NothingShows(g);
    } else {
      var first := Push(g, keys[0]);
      PushScans(g, keys[0]);
      ShowsHeld(first, Scan(g.prefix + [keys[0].b], g.paste));
      DecodeScans(first.gate, keys[1..]);
      ScanTwice(g.prefix + [keys[0].b], Typed(keys[1..]), g.paste);
      assert g.prefix + Typed(keys) == (g.prefix + [keys[0].b]) + Typed(keys[1..]);
      DecodeMore(g, keys);
      ShowsBoth(first, Scan(g.prefix + [keys[0].b], g.paste), Decode(first.gate, keys[1..]),
                Scan(first.gate.prefix + Typed(keys[1..]), first.gate.paste));
    }
  }

  lemma DecodeNone(g: Gate)
    ensures Decode(g, []) == Decoded(g, [])
  {
  }

  lemma DecodeMore(g: Gate, keys: seq<Key>)
    requires keys != []
    ensures
      var first := Push(g, keys[0]);
      var rest := Decode(first.gate, keys[1..]);
      Decode(g, keys) == rest.(out := first.out + rest.out)
  {
    hide Push;
  }

  lemma NothingShows(g: Gate)
    ensures Shows(Decoded(g, []), Scanned([], g.prefix, g.paste))
  {
  }

  /** What is held after a shown scan is short and begins the awaited delimiter. */
  lemma ShowsHeld(d: Decoded, r: Scanned)
    requires Shows(d, r) && |r.held| < 6 && r.held <= Target(r.paste)
    ensures d.gate.prefix == r.held && d.gate.paste == r.paste
    ensures |d.gate.prefix| < 6 && d.gate.prefix <= Target(d.gate.paste)
  {
    hide Target;
  }

  lemma ShowsBoth(d: Decoded, r: Scanned, e: Decoded, t: Scanned)
    requires Shows(d, r) && Shows(e, t)
    ensures Shows(e.(out := d.out + e.out), t.(out := r.out + t.out))
  {
    MarksJoin(d.out, e.out);
  }

  /** Decoding two reads, made at any times, is decoding their concatenation. */
  lemma {:induction false} DecodeTwice(g: Gate, a: seq<Key>, b: seq<Key>)
    ensures
      var first := Decode(g, a);
      var second := Decode(first.gate, b);
      Decode(g, a + b) == second.(out := first.out + second.out)
    decreases |a|
  {
    hide Push;
    if a == [] {
      assert a + b == b;
      assert [] + Decode(g, b).out == Decode(g, b).out;
    } else {
      assert (a + b)[1..] == a[1..] + b;
      var first := Push(g, a[0]);
      DecodeTwice(first.gate, a[1..], b);
      var middle := Decode(first.gate, a[1..]);
      Regroup(first.out, middle.out, Decode(middle.gate, b).out);
    }
  }

  /** The same gate but for the time its held prefix began. */
  ghost predicate SameButClock(g: Gate, h: Gate) {
    h == g.(prefixAt := h.prefixAt)
  }

  lemma {:induction false} SettleIgnoresClock(g: Gate, h: Gate)
    requires SameButClock(g, h)
    ensures SameButClock(Settle(g).gate, Settle(h).gate) && Settle(g).out == Settle(h).out
    decreases |g.prefix|
  {
    hide Target;
    if g.prefix != [] && !(g.prefix <= Target(g.paste)) {
      SettleIgnoresClock(g.(prefix := g.prefix[1..]), h.(prefix := h.prefix[1..]));
    }
  }

  /** When the bytes come in decides neither what is delivered nor for which generation. */
  lemma {:induction false} DecodeIgnoresClock(g: Gate, h: Gate, keys: seq<Key>, other: seq<Key>)
    requires SameButClock(g, h) && Typed(keys) == Typed(other)
    ensures SameButClock(Decode(g, keys).gate, Decode(h, other).gate) && Decode(g, keys).out == Decode(h, other).out
    decreases |keys|
  {
    assert |keys| == |Typed(keys)| == |other|;
    if keys != [] {
      assert Typed(keys)[0] == keys[0].b && Typed(other)[0] == other[0].b;
      assert Typed(keys[1..]) == Typed(keys)[1..] && Typed(other[1..]) == Typed(other)[1..];
      SettleIgnoresClock(Join(g, keys[0]), Join(h, other[0]));
      hide Settle;
      DecodeIgnoresClock(Push(g, keys[0]).gate, Push(h, other[0]).gate, keys[1..], other[1..]);
    }
  }

  /** Reads decoded one after the other. */
  function DecodeAll(g: Gate, chunks: seq<seq<Key>>): Decoded
    decreases |chunks|
  {
    if chunks == [] then Decoded(g, [])
    else
      var first := Decode(g, chunks[0]);
      var rest := DecodeAll(first.gate, chunks[1..]);
      rest.(out := first.out + rest.out)
  }

  function AllKeys(chunks: seq<seq<Key>>): seq<Key> {
    if chunks == [] then [] else chunks[0] + AllKeys(chunks[1..])
  }

  /**
   Chunk invariance: bytes that come in any reads at any times are delivered with the same
   tags, and leave the same gate, as if they had come in one read at any other times.
   */
  lemma {:induction false} ChunkInvariance(g: Gate, chunks: seq<seq<Key>>, whole: seq<Key>)
    requires Typed(AllKeys(chunks)) == Typed(whole)
    ensures
      var d, e := DecodeAll(g, chunks), Decode(g, whole);
      d.out == e.out && SameButClock(d.gate, e.gate)
  {
    ReadsAreOne(g, chunks);
    DecodeIgnoresClock(g, g, AllKeys(chunks), whole);
  }

  lemma {:induction false} ReadsAreOne(g: Gate, chunks: seq<seq<Key>>)
    ensures DecodeAll(g, chunks) == Decode(g, AllKeys(chunks))
    decreases |chunks|
  {
    hide Decode;
    if chunks == [] {
      DecodeNone(g);
    } else {
      DecodeTwice(g, chunks[0], AllKeys(chunks[1..]));
      ReadsAreOne(Decode(g, chunks[0]).gate, chunks[1..]);
    }
  }

  /** Tags a step may issue: never a generation that is not open yet. */
  ghost predicate TagsUpTo(ts: seq<Tagged>, next: nat) {
    forall t <- ts :: t.generation <= next
  }

  /** Inside a paste everything carries the paste's own generation. */
  ghost predicate InPaste(ts: seq<Tagged>, generation: nat) {
    forall t <- ts :: t.paste && t.generation == generation
  }

  /**
   The invariant between a join and the end of its settling: the prefix is a beginning of the
   awaited delimiter followed by at most one byte, and a paste's prefix has the paste's origin.
   */
  ghost predicate SettleInv(g: Gate) {
    && |g.prefix| <= 6 && g.generation <= g.next
    && (g.prefix != [] ==> g.prefixGeneration <= g.next)
    && (g.paste ==> g.pasteGeneration <= g.next)
    && (g.paste && g.prefix != [] ==> g.prefixGeneration == g.pasteGeneration)
  }

  lemma {:induction false} SettleTags(g: Gate)
    requires SettleInv(g)
    ensures
      var d := Settle(g);
      && GateInv(d.gate) && TagsUpTo(d.out, g.next)
      && d.gate.next == g.next && d.gate.generation == g.generation
    ensures g.paste ==> InPaste(Settle(g).out, g.pasteGeneration) && Settle(g).gate.pasteGeneration == g.pasteGeneration
    decreases |g.prefix|
  {
    hide Target;
    if g.prefix != [] && !(g.prefix <= Target(g.paste)) {
      SettleTags(g.(prefix := g.prefix[1..]));
    }
  }

  /** Everything typed, then the whole start delimiter with the origin the paste will keep. */
  ghost predicate EndsWithStart(ts: seq<Tagged>, generation: nat) {
    && |ts| >= 6 && ts[|ts| - 6..] == TagAll(PASTE_START, generation, true)
    && forall i :: 0 <= i < |ts| - 6 ==> !ts[i].paste
  }

  /** A paste begins exactly with its start delimiter, whose origin becomes the paste's generation. */
  lemma {:induction false} SettleStartsPaste(g: Gate)
    requires SettleInv(g) && !g.paste
    ensures
      var d := Settle(g);
      if d.gate.paste then EndsWithStart(d.out, d.gate.pasteGeneration)
      else forall t <- d.out :: !t.paste
    decreases |g.prefix|
  {
    if g.prefix != [] && !(g.prefix <= Target(false)) {
      var rest := g.(prefix := g.prefix[1..]);
      SettleStartsPaste(rest);
      hide Target;
      var d := Settle(g);
      var e := Settle(rest);
      if d.gate.paste {
        assert d.out[|d.out| - 6..] == e.out[|e.out| - 6..];
      }
    } else if |g.prefix| == 6 {
      assert g.prefix == Target(false) == PASTE_START;
      assert Settle(g).out[0..] == TagAll(g.prefix, g.prefixGeneration, true);
    }
  }

  lemma PushTags(g: Gate, k: Key)
    requires GateInv(g)
    ensures
      var d := Push(g, k);
      && GateInv(d.gate) && TagsUpTo(d.out, g.next)
      && d.gate.next == g.next && d.gate.generation == g.generation
      && (g.paste ==> InPaste(d.out, g.pasteGeneration) && d.gate.pasteGeneration == g.pasteGeneration)
  {
    hide Target;
    SettleTags(Join(g, k));
  }

  lemma {:induction false} DecodeTags(g: Gate, keys: seq<Key>)
    requires GateInv(g)
    ensures
      var d := Decode(g, keys);
      && GateInv(d.gate) && TagsUpTo(d.out, g.next)
      && d.gate.next == g.next && d.gate.generation == g.generation
    decreases |keys|
  {
    hide GateInv;
    hide Push;
    if keys != [] {
      PushTags(g, keys[0]);
      DecodeTags(Push(g, keys[0]).gate, keys[1..]);
    }
  }

  // ---------------------------------------------------------------- whole runs

  datatype ReadResult = Data(keys: seq<Key>) | WouldBlock | Interrupted | Failed | Closed

  datatype OpenResult = Opened | NotYet | OpenFailed

  /** The bounded drain of the kernel backlog; `i` reads were already made. */
  function Drain(g: Gate, backlog: nat -> ReadResult, i: nat): (Gate, OpenResult)
    decreases 16 - i
  {
    if i >= 16 then (g, NotYet)
    else
      match backlog(i)
      case Data(keys) => Drain(Decode(g, keys).gate, backlog, i + 1)
      case WouldBlock => (g, Opened)
      case Interrupted => Drain(g, backlog, i + 1)
      case Failed => (g, OpenFailed)
      case Closed => (g, OpenFailed)
  }

  function OpenGate(g: Gate, backlog: nat -> ReadResult, now: Time): (Gate, OpenResult) {
    var (drained, boundary) := Drain(g, backlog, 0);
    if boundary == OpenFailed then (drained, OpenFailed)
    else
      var flushed := FlushPrefix(drained, now).gate;
      if boundary == NotYet || flushed.paste || flushed.prefix != [] then (flushed, NotYet)
      else (flushed.(next := flushed.next + 1, generation := flushed.next + 1), Opened)
  }

  lemma {:induction false} DrainTags(g: Gate, backlog: nat -> ReadResult, i: nat)
    requires GateInv(g)
    ensures
      var d := Drain(g, backlog, i).0;
      GateInv(d) && d.next == g.next && d.generation == g.generation
    decreases 16 - i
  {
    hide GateInv;
    if i < 16 {
      match backlog(i)
      case Data(keys) =>
        DecodeTags(g, keys);
        DrainTags(Decode(g, keys).gate, backlog, i + 1);
      case Interrupted => DrainTags(g, backlog, i + 1);
      case _ =>
    }
  }

  /** A generation opens only on an input boundary, and it is always a new one. */
  lemma OpenIsFresh(g: Gate, backlog: nat -> ReadResult, now: Time)
    requires GateInv(g)
    ensures
      var (h, result) := OpenGate(g, backlog, now);
      && GateInv(h)
      && (result == Opened ==> !h.paste && h.prefix == [] && h.generation == h.next == g.next + 1)
      && (result != Opened ==> h.next == g.next && h.generation == g.generation)
  {
    DrainTags(g, backlog, 0);
  }

  /** What may happen to a gate; only the reader's decode and flush deliver bytes. */
  datatype Op =
    | Read(keys: seq<Key>, at: Time)
    | Flush(at: Time)
    | Close
    | Open(backlog: nat -> ReadResult, at: Time)

  function Apply(g: Gate, op: Op): Decoded {
    match op
    case Read(keys, at) =>
      var flushed := FlushPrefix(g, at);
      var decoded := Decode(flushed.gate, keys);
      decoded.(out := flushed.out + decoded.out)
    case Flush(at) => FlushPrefix(g, at)
    case Close => Decoded(g.(generation := 0), [])
    case Open(backlog, at) => Decoded(OpenGate(g, backlog, at).0, [])
  }

  function Run(g: Gate, ops: seq<Op>): Decoded
    decreases |ops|
  {
    if ops == [] then Decoded(g, [])
    else
      var first := Apply(g, ops[0]);
      var rest := Run(first.gate, ops[1..]);
      rest.(out := first.out + rest.out)
  }

  lemma ApplyTags(g: Gate, op: Op)
    requires GateInv(g)
    ensures
      var d := Apply(g, op);
      GateInv(d.gate) && g.next <= d.gate.next && TagsUpTo(d.out, g.next)
  {
    match op
    case Read(keys, at) =>
      var flushed := FlushPrefix(g, at);
      DecodeTags(flushed.gate, keys);
    case Open(backlog, at) => OpenIsFresh(g, backlog, at);
    case _ =>
  }

  lemma {:induction false} RunTags(g: Gate, ops: seq<Op>)
    requires GateInv(g)
    ensures
      var d := Run(g, ops);
      GateInv(d.gate) && g.next <= d.gate.next && TagsUpTo(d.out, d.gate.next)
    decreases |ops|
  {
    hide GateInv;
    hide Apply;
    if ops != [] {
      ApplyTags(g, ops[0]);
      RunTags(Apply(g, ops[0]).gate, ops[1..]);
    }
  }

  /**
   No stale input: over any run of reads, flushes, closes and opens, when a generation opens
   every byte delivered so far carries an older one, and no byte is held over into it.
   */
  lemma NoStaleInput(ops: seq<Op>, backlog: nat -> ReadResult, at: Time)
    requires OpenGate(Run(NEW_GATE, ops).gate, backlog, at).1 == Opened
    ensures
      var before := Run(NEW_GATE, ops);
      var after := OpenGate(before.gate, backlog, at).0;
      && after.generation > 0 && after.prefix == [] && !after.paste
      && forall t <- before.out :: t.generation < after.generation
  {
    hide Run;
    RunTags(NEW_GATE, ops);
    OpenIsFresh(Run(NEW_GATE, ops).gate, backlog, at);
  }

  // ---------------------------------------------------------------- whole pastes

  /** A parsed byte: delivered to the loop, or part of a backlog that an opening dropped. */
  datatype Seen = Seen(t: Tagged, delivered: bool)

  /** A stretch of parsed input. */
  datatype Piece = Ordinary(bytes: seq<Seen>) | Pasted(generation: nat, bytes: seq<Seen>)

  /** A gate and everything it has parsed so far. */
  datatype Watched = Watched(gate: Gate, pieces: seq<Piece>)

  function See(ts: seq<Tagged>, delivered: bool): (r: seq<Seen>)
    ensures |r| == |ts| && forall i :: 0 <= i < |ts| ==> r[i] == Seen(ts[i], delivered)
  {
    seq(|ts|, i requires 0 <= i < |ts| => Seen(ts[i], delivered))
  }

  /** A paste grows until its end; a start delimiter, the last six bytes of a step, begins one. */
  function Note(w: Watched, d: Decoded, delivered: bool): Watched {
    var bytes, n := See(d.out, delivered), |w.pieces|;
    if w.gate.paste && n > 0 then
      Watched(d.gate, w.pieces[..n - 1] + [w.pieces[n - 1].(bytes := w.pieces[n - 1].bytes + bytes)])
    else if d.gate.paste && |bytes| >= 6 then
      Watched(d.gate, w.pieces + [Ordinary(bytes[..|bytes| - 6]), Pasted(d.gate.pasteGeneration, bytes[|bytes| - 6..])])
    else Watched(d.gate, w.pieces + [Ordinary(bytes)])
  }

  function WatchKeys(w: Watched, keys: seq<Key>, delivered: bool): Watched
    decreases |keys|
  {
    if keys == [] then w else WatchKeys(Note(w, Push(w.gate, keys[0]), delivered), keys[1..], delivered)
  }

  function WatchDrain(w: Watched, backlog: nat -> ReadResult, i: nat): Watched
    decreases 16 - i
  {
    if i >= 16 then w
    else
      match backlog(i)
      case Data(keys) => WatchDrain(WatchKeys(w, keys, false), backlog, i + 1)
      case Interrupted => WatchDrain(w, backlog, i + 1)
      case _ => w
  }

  function WatchOpen(w: Watched, backlog: nat -> ReadResult, at: Time): Watched {
    var drained := WatchDrain(w, backlog, 0);
    var noted := if Drain(w.gate, backlog, 0).1 == OpenFailed then drained
                 else Note(drained, FlushPrefix(drained.gate, at), false);
    noted.(gate := OpenGate(w.gate, backlog, at).0)
  }

  function WatchOp(w: Watched, op: Op): Watched {
    match op
    case Read(keys, at) => WatchKeys(Note(w, FlushPrefix(w.gate, at), true), keys, true)
    case Flush(at) => Note(w, FlushPrefix(w.gate, at), true)
    case Close => w.(gate := w.gate.(generation := 0))
    case Open(backlog, at) => WatchOpen(w, backlog, at)
  }

  function Watch(w: Watched, ops: seq<Op>): Watched
    decreases |ops|
  {
    if ops == [] then w else Watch(WatchOp(w, ops[0]), ops[1..])
  }

  const UNWATCHED := Watched(NEW_GATE, [])

  /** Everything parsed, in order. */
  function Parsed(pieces: seq<Piece>): seq<Seen> {
    if pieces == [] then [] else Parsed(pieces[..|pieces| - 1]) + pieces[|pieces| - 1].bytes
  }

  function Delivered(bytes: seq<Seen>): seq<Tagged> {
    if bytes == [] then []
    else (if bytes[0].delivered then [bytes[0].t] else []) + Delivered(bytes[1..])
  }

  function Text(bytes: seq<Seen>): (r: Bytes)
    ensures |r| == |bytes| && forall i :: 0 <= i < |bytes| ==> r[i] == bytes[i].t.b
  {
    seq(|bytes|, i requires 0 <= i < |bytes| => bytes[i].t.b)
  }

  /** A paste has both delimiters, unless it is still going on, and one generation throughout. */
  ghost predicate WholePiece(p: Piece, ongoing: bool) {
    match p
    case Ordinary(bytes) => forall x <- bytes :: !x.t.paste
    case Pasted(generation, bytes) =>
      && (forall x <- bytes :: x.t.paste && x.t.generation == generation)
      && PASTE_START <= Text(bytes)
      && (!ongoing ==> |bytes| >= 12 && Text(bytes)[|bytes| - 6..] == PASTE_END)
  }

  ghost predicate WatchInv(w: Watched) {
    var n := |w.pieces|;
    && GateInv(w.gate)
    && (w.gate.paste ==>
          n > 0 && w.pieces[n - 1].Pasted? && w.pieces[n - 1].generation == w.gate.pasteGeneration)
    && (forall i :: 0 <= i < n ==> WholePiece(w.pieces[i], w.gate.paste && i == n - 1))
  }

  /** What one step of the gate parses: within a paste only that paste, else at most one beginning. */
  ghost predicate StepShape(g: Gate, d: Decoded) {
    && GateInv(d.gate)
    && if g.paste then
         && InPaste(d.out, g.pasteGeneration) && d.gate.pasteGeneration == g.pasteGeneration
         && (!d.gate.paste ==> EndsWithEnd(d.out, g.pasteGeneration))
       else if d.gate.paste then EndsWithStart(d.out, d.gate.pasteGeneration)
       else forall t <- d.out :: !t.paste
  }

  ghost predicate EndsWithEnd(ts: seq<Tagged>, generation: nat) {
    |ts| >= 6 && ts[|ts| - 6..] == TagAll(PASTE_END, generation, true)
  }

  lemma {:induction false} SettleEndsPaste(g: Gate)
    requires SettleInv(g) && g.paste
    ensures !Settle(g).gate.paste ==> EndsWithEnd(Settle(g).out, g.pasteGeneration)
    decreases |g.prefix|
  {
    if g.prefix != [] && !(g.prefix <= Target(true)) {
      var rest := g.(prefix := g.prefix[1..]);
      SettleEndsPaste(rest);
      hide Target;
      var d := Settle(g);
      var e := Settle(rest);
      if !d.gate.paste {
        assert d.out[|d.out| - 6..] == e.out[|e.out| - 6..];
      }
    } else if |g.prefix| == 6 {
      assert g.prefix == Target(true) == PASTE_END;
      assert Settle(g).out[0..] == TagAll(g.prefix, g.prefixGeneration, true);
    }
  }

  lemma PushShape(g: Gate, k: Key)
    requires GateInv(g)
    ensures StepShape(g, Push(g, k))
  {
    var j := Join(g, k);
    PushTags(g, k);
    assert SettleInv(j) && j.paste == g.paste && j.pasteGeneration == g.pasteGeneration;
    hide Target;
    hide Settle;
    hide GateInv;
    hide SettleInv;
    if g.paste {
      SettleEndsPaste(j);
    } else {
      SettleStartsPaste(j);
    }
  }

  lemma FlushShape(g: Gate, at: Time)
    requires GateInv(g)
    ensures StepShape(g, FlushPrefix(g, at))
  {
  }

  lemma NoteKeeps(w: Watched, d: Decoded, delivered: bool)
    requires WatchInv(w) && StepShape(w.gate, d)
    ensures WatchInv(Note(w, d, delivered))
  {
    var v, bytes, n := Note(w, d, delivered), See(d.out, delivered), |w.pieces|;
    hide GateInv;
    if w.gate.paste {
      PasteGrows(w.pieces[n - 1], d, delivered);
    } else if d.gate.paste {
      PasteBegins(d, delivered);
    }
    hide WholePiece;
    hide EndsWithStart;
    hide EndsWithEnd;
    hide InPaste;
    hide See;
    if !w.gate.paste && !d.gate.paste {
      OrdinaryPiece(d, delivered);
    }
  }

  lemma OrdinaryPiece(d: Decoded, delivered: bool)
    requires forall t <- d.out :: !t.paste
    ensures WholePiece(Ordinary(See(d.out, delivered)), false)
  {
  }

  lemma PasteBegins(d: Decoded, delivered: bool)
    requires EndsWithStart(d.out, d.gate.pasteGeneration)
    ensures
      var bytes := See(d.out, delivered);
      && |bytes| >= 6 && WholePiece(Ordinary(bytes[..|bytes| - 6]), false)
      && WholePiece(Pasted(d.gate.pasteGeneration, bytes[|bytes| - 6..]), true)
  {
    var bytes, n := See(d.out, delivered), |d.out|;
    LastSix(bytes, d.out, PASTE_START, d.gate.pasteGeneration);
    assert bytes[n - 6..] == See(d.out[n - 6..], delivered);
  }

  lemma PasteGrows(p: Piece, d: Decoded, delivered: bool)
    requires p.Pasted? && WholePiece(p, true) && InPaste(d.out, p.generation)
    ensures WholePiece(p.(bytes := p.bytes + See(d.out, delivered)), true)
    ensures EndsWithEnd(d.out, p.generation) ==> WholePiece(p.(bytes := p.bytes + See(d.out, delivered)), false)
  {
    var more := See(d.out, delivered);
    var all := p.bytes + more;
    TextJoin(p.bytes, more);
    if EndsWithEnd(d.out, p.generation) {
      LastSix(more, d.out, PASTE_END, p.generation);
      assert Text(all)[|all| - 6..] == Text(more)[|more| - 6..];
    }
  }

  lemma TextJoin(a: seq<Seen>, b: seq<Seen>)
    ensures Text(a + b) == Text(a) + Text(b)
  {
  }

  lemma LastSix(bytes: seq<Seen>, ts: seq<Tagged>, delimiter: Bytes, generation: nat)
    requires |bytes| == |ts| >= 6 == |delimiter| && forall i :: 0 <= i < |ts| ==> bytes[i].t == ts[i]
    requires ts[|ts| - 6..] == TagAll(delimiter, generation, true)
    ensures Text(bytes)[|bytes| - 6..] == Text(bytes[|bytes| - 6..]) == delimiter
  {
    var n := |ts|;
    forall i | 0 <= i < 6 ensures Text(bytes)[n - 6..][i] == Text(bytes[n - 6..])[i] == delimiter[i] {
      assert ts[n - 6..][i] == Tagged(delimiter[i], generation, true);
    }
  }

  lemma {:induction false} WatchKeysKeeps(w: Watched, keys: seq<Key>, delivered: bool)
    requires WatchInv(w)
    ensures WatchInv(WatchKeys(w, keys, delivered))
    decreases |keys|
  {
    GateOf(w);
    hide WatchInv;
    hide Note;
    hide Push;
    hide GateInv;
    hide StepShape;
    if keys != [] {
      PushShape(w.gate, keys[0]);
      NoteKeeps(w, Push(w.gate, keys[0]), delivered);
      WatchKeysKeeps(Note(w, Push(w.gate, keys[0]), delivered), keys[1..], delivered);
    }
  }

  lemma GateOf(w: Watched)
    requires WatchInv(w)
    ensures GateInv(w.gate)
  {
  }

  lemma {:induction false} WatchDrainKeeps(w: Watched, backlog: nat -> ReadResult, i: nat)
    requires WatchInv(w)
    ensures WatchInv(WatchDrain(w, backlog, i))
    decreases 16 - i
  {
    hide WatchInv;
    hide WatchKeys;
    if i < 16 {
      match backlog(i)
      case Data(keys) =>
        WatchKeysKeeps(w, keys, false);
        WatchDrainKeeps(WatchKeys(w, keys, false), backlog, i + 1);
      case Interrupted => WatchDrainKeeps(w, backlog, i + 1);
      case _ =>
    }
  }

  /** The watched gate is the gate. */
  lemma {:induction false} WatchKeysFollows(w: Watched, keys: seq<Key>, delivered: bool)
    ensures
      var v, d := WatchKeys(w, keys, delivered), Decode(w.gate, keys);
      && v.gate == d.gate
      && Parsed(v.pieces) == Parsed(w.pieces) + See(d.out, delivered)
    decreases |keys|
  {
    hide Push;
    hide Note;
    hide Parsed;
    if keys == [] {
      assert Parsed(w.pieces) + See([], delivered) == Parsed(w.pieces);
    } else {
      var first := Push(w.gate, keys[0]);
      var v := Note(w, first, delivered);
      NoteFollows(w, first, delivered);
      WatchKeysFollows(v, keys[1..], delivered);
      var rest := Decode(first.gate, keys[1..]);
      SeeJoin(first.out, rest.out, delivered);
      Regroup(Parsed(w.pieces), See(first.out, delivered), See(rest.out, delivered));
    }
  }

  lemma SeeJoin(a: seq<Tagged>, b: seq<Tagged>, delivered: bool)
    ensures See(a + b, delivered) == See(a, delivered) + See(b, delivered)
  {
  }

  lemma NoteFollows(w: Watched, d: Decoded, delivered: bool)
    ensures
      var v := Note(w, d, delivered);
      v.gate == d.gate && Parsed(v.pieces) == Parsed(w.pieces) + See(d.out, delivered)
  {
    var bytes, n := See(d.out, delivered), |w.pieces|;
    hide Parsed;
    hide See;
    if w.gate.paste && n > 0 {
      var last := w.pieces[n - 1];
      ParsedOneMore(w.pieces[..n - 1], last);
      assert w.pieces[..n - 1] + [last] == w.pieces;
      ParsedOneMore(w.pieces[..n - 1], last.(bytes := last.bytes + bytes));
      Regroup(Parsed(w.pieces[..n - 1]), last.bytes, bytes);
    } else if d.gate.paste && |bytes| >= 6 {
      ParsedTwoMore(w.pieces, bytes, d.gate.pasteGeneration);
    } else {
      ParsedOneMore(w.pieces, Ordinary(bytes));
    }
  }

  lemma ParsedTwoMore(pieces: seq<Piece>, bytes: seq<Seen>, generation: nat)
    requires |bytes| >= 6
    ensures
      Parsed(pieces + [Ordinary(bytes[..|bytes| - 6]), Pasted(generation, bytes[|bytes| - 6..])])
      == Parsed(pieces) + bytes
  {
    hide Parsed;
    var plain, pasted := Ordinary(bytes[..|bytes| - 6]), Pasted(generation, bytes[|bytes| - 6..]);
    ParsedOneMore(pieces, plain);
    ParsedOneMore(pieces + [plain], pasted);
    assert pieces + [plain] + [pasted] == pieces + [plain, pasted];
    Regroup(Parsed(pieces), plain.bytes, pasted.bytes);
    assert plain.bytes + pasted.bytes == bytes;
  }

  lemma ParsedOneMore(pieces: seq<Piece>, p: Piece)
    ensures Parsed(pieces + [p]) == Parsed(pieces) + p.bytes
  {
    assert (pieces + [p])[..|pieces|] == pieces;
  }

  lemma {:induction false} DeliveredJoin(a: seq<Seen>, b: seq<Seen>)
    ensures Delivered(a + b) == Delivered(a) + Delivered(b)
  {
    if a == [] {
      assert a + b == b;
    } else {
      assert (a + b)[1..] == a[1..] + b && (a + b)[0] == a[0];
      DeliveredJoin(a[1..], b);
      Regroup(if a[0].delivered then [a[0].t] else [], Delivered(a[1..]), Delivered(b));
    }
  }

  lemma {:induction false} DeliveredAll(ts: seq<Tagged>)
    ensures Delivered(See(ts, true)) == ts && Delivered(See(ts, false)) == []
  {
    if ts != [] {
      assert See(ts, true)[1..] == See(ts[1..], true) && See(ts, false)[1..] == See(ts[1..], false);
      DeliveredAll(ts[1..]);
    }
  }

  /** The same gate, and nothing delivered but `out`. */
  ghost predicate Follows(v: Watched, w: Watched, gate: Gate, out: seq<Tagged>) {
    v.gate == gate && Delivered(Parsed(v.pieces)) == Delivered(Parsed(w.pieces)) + out
  }

  lemma Delivers(w: Watched, v: Watched, d: Decoded, delivered: bool)
    requires v.gate == d.gate && Parsed(v.pieces) == Parsed(w.pieces) + See(d.out, delivered)
    ensures Follows(v, w, d.gate, if delivered then d.out else [])
  {
    DeliveredJoin(Parsed(w.pieces), See(d.out, delivered));
    DeliveredAll(d.out);
  }

  lemma FollowsTwice(v: Watched, u: Watched, w: Watched, a: seq<Tagged>, b: seq<Tagged>)
    requires Follows(u, w, u.gate, a) && Follows(v, u, v.gate, b)
    ensures Follows(v, w, v.gate, a + b)
  {
    Regroup(Delivered(Parsed(w.pieces)), a, b);
  }

  lemma {:induction false} WatchDrainFollows(w: Watched, backlog: nat -> ReadResult, i: nat)
    ensures Follows(WatchDrain(w, backlog, i), w, Drain(w.gate, backlog, i).0, [])
    decreases 16 - i
  {
    hide Decode;
    hide WatchKeys;
    hide Delivered;
    hide Parsed;
    FollowsSelf(w);
    if i < 16 {
      match backlog(i)
      case Data(keys) =>
        var u := WatchKeys(w, keys, false);
        WatchKeysFollows(w, keys, false);
        Delivers(w, u, Decode(w.gate, keys), false);
        WatchDrainFollows(u, backlog, i + 1);
        FollowsTwice(WatchDrain(u, backlog, i + 1), u, w, [], []);
      case Interrupted => WatchDrainFollows(w, backlog, i + 1);
      case _ =>
    }
  }

  lemma FollowsSelf(w: Watched)
    ensures Follows(w, w, w.gate, [])
  {
  }

  lemma Regated(w: Watched, g: Gate)
    requires WatchInv(w) && GateInv(g)
    requires w.gate.paste == g.paste && w.gate.pasteGeneration == g.pasteGeneration
    ensures WatchInv(w.(gate := g))
  {
    hide GateInv;
    hide WholePiece;
  }

  lemma WatchOpenKeeps(w: Watched, backlog: nat -> ReadResult, at: Time)
    requires WatchInv(w)
    ensures WatchInv(WatchOpen(w, backlog, at))
    ensures Follows(WatchOpen(w, backlog, at), w, OpenGate(w.gate, backlog, at).0, [])
  {
    GateOf(w);
    OpenIsFresh(w.gate, backlog, at);
    var drained := WatchDrain(w, backlog, 0);
    WatchDrainKeeps(w, backlog, 0);
    WatchDrainFollows(w, backlog, 0);
    GateOf(drained);
    var flushed := FlushPrefix(drained.gate, at);
    FlushShape(drained.gate, at);
    var noted := Note(drained, flushed, false);
    NoteKeeps(drained, flushed, false);
    NoteFollows(drained, flushed, false);
    OpenedGate(w, backlog, at);
    hide *;
    Delivers(drained, noted, flushed, false);
    FollowsTwice(noted, drained, w, [], []);
    OpenedFollows(w, backlog, at, drained);
    OpenedFollows(w, backlog, at, noted);
    Regated(if Drain(w.gate, backlog, 0).1 == OpenFailed then drained else noted, OpenGate(w.gate, backlog, at).0);
  }

  /** What an opening leaves of the gate. */
  lemma OpenedGate(w: Watched, backlog: nat -> ReadResult, at: Time)
    requires WatchDrain(w, backlog, 0).gate == Drain(w.gate, backlog, 0).0
    ensures
      var drained := WatchDrain(w, backlog, 0);
      var noted := if Drain(w.gate, backlog, 0).1 == OpenFailed then drained
                   else Note(drained, FlushPrefix(drained.gate, at), false);
      var g := OpenGate(w.gate, backlog, at).0;
      && WatchOpen(w, backlog, at) == noted.(gate := g)
      && noted.gate.paste == g.paste && noted.gate.pasteGeneration == g.pasteGeneration
  {
    hide WatchDrain;
    hide Drain;
    hide FlushPrefix;
  }

  lemma OpenedFollows(w: Watched, backlog: nat -> ReadResult, at: Time, v: Watched)
    requires Follows(v, w, v.gate, [])
    ensures Follows(v.(gate := OpenGate(w.gate, backlog, at).0), w, OpenGate(w.gate, backlog, at).0, [])
  {
    hide OpenGate;
  }

  lemma WatchOpKeeps(w: Watched, op: Op)
    requires WatchInv(w)
    ensures WatchInv(WatchOp(w, op)) && Follows(WatchOp(w, op), w, Apply(w.gate, op).gate, Apply(w.gate, op).out)
  {
    hide *;
    GateOf(w);
    FollowsSelf(w);
    match op
    case Read(keys, at) =>
      var flushed := FlushPrefix(w.gate, at);
      var u := Note(w, flushed, true);
      NotedFlush(w, at);
      WatchKeysKeeps(u, keys, true);
      WatchKeysFollows(u, keys, true);
      var decoded := Decode(u.gate, keys);
      Delivers(u, WatchKeys(u, keys, true), decoded, true);
      FollowsGate(u, w, flushed.gate, flushed.out);
      FollowsTwice(WatchKeys(u, keys, true), u, w, flushed.out, decoded.out);
      ReadIs(w, keys, at);
    case Flush(at) =>
      NotedFlush(w, at);
      FlushIs(w, at);
    case Close =>
      CloseIs(w);
      Regated(w, w.gate.(generation := 0));
    case Open(backlog, at) =>
      WatchOpenKeeps(w, backlog, at);
      OpenIs(w, backlog, at);
  }

  lemma FollowsGate(v: Watched, w: Watched, gate: Gate, out: seq<Tagged>)
    requires Follows(v, w, gate, out)
    ensures v.gate == gate
  {
  }

  lemma NotedFlush(w: Watched, at: Time)
    requires WatchInv(w)
    ensures
      var flushed := FlushPrefix(w.gate, at);
      WatchInv(Note(w, flushed, true)) && Follows(Note(w, flushed, true), w, flushed.gate, flushed.out)
  {
    hide *;
    GateOf(w);
    var flushed := FlushPrefix(w.gate, at);
    FlushShape(w.gate, at);
    NoteKeeps(w, flushed, true);
    NoteFollows(w, flushed, true);
    Delivers(w, Note(w, flushed, true), flushed, true);
  }

  lemma ReadIs(w: Watched, keys: seq<Key>, at: Time)
    ensures
      var flushed := FlushPrefix(w.gate, at);
      var decoded := Decode(flushed.gate, keys);
      && WatchOp(w, Read(keys, at)) == WatchKeys(Note(w, flushed, true), keys, true)
      && Apply(w.gate, Read(keys, at)) == decoded.(out := flushed.out + decoded.out)
  {
    hide FlushPrefix;
    hide Decode;
    hide Note;
    hide WatchKeys;
  }

  lemma FlushIs(w: Watched, at: Time)
    ensures WatchOp(w, Flush(at)) == Note(w, FlushPrefix(w.gate, at), true)
    ensures Apply(w.gate, Flush(at)) == FlushPrefix(w.gate, at)
  {
    hide Note;
    hide FlushPrefix;
  }

  lemma CloseIs(w: Watched)
    requires WatchInv(w)
    ensures GateInv(w.gate.(generation := 0))
    ensures
      var v := WatchOp(w, Close);
      v == w.(gate := w.gate.(generation := 0)) && Follows(v, w, Apply(w.gate, Close).gate, Apply(w.gate, Close).out)
  {
    hide WholePiece;
    hide Delivered;
    hide Parsed;
  }

  lemma OpenIs(w: Watched, backlog: nat -> ReadResult, at: Time)
    ensures WatchOp(w, Open(backlog, at)) == WatchOpen(w, backlog, at)
    ensures Apply(w.gate, Open(backlog, at)) == Decoded(OpenGate(w.gate, backlog, at).0, [])
  {
    hide WatchOpen;
    hide OpenGate;
  }

  lemma {:induction false} WatchKeeps(w: Watched, ops: seq<Op>)
    requires WatchInv(w)
    ensures WatchInv(Watch(w, ops)) && Follows(Watch(w, ops), w, Run(w.gate, ops).gate, Run(w.gate, ops).out)
    decreases |ops|
  {
    hide WatchInv;
    hide WatchOp;
    hide Apply;
    hide Delivered;
    hide Parsed;
    FollowsSelf(w);
    if ops != [] {
      var u := WatchOp(w, ops[0]);
      WatchOpKeeps(w, ops[0]);
      WatchKeeps(u, ops[1..]);
      FollowsTwice(Watch(u, ops[1..]), u, w, Apply(w.gate, ops[0]).out, Run(u.gate, ops[1..]).out);
    }
  }

  /**
   One paste, one generation: over any run of reads, timeouts, losses and openings, successful
   or not, what the gate parses falls into ordinary stretches and pastes.  A paste begins with
   its start delimiter, ends with its end delimiter unless it is still going on, and carries a
   single generation from first to last byte.  Attempts to open meanwhile drop bytes of it, but
   what is delivered is never delivered for another generation.
   */
  lemma PastesStayWhole(ops: seq<Op>)
    ensures
      var w, r := Watch(UNWATCHED, ops), Run(NEW_GATE, ops);
      && w.gate == r.gate && Delivered(Parsed(w.pieces)) == r.out
      && (forall i :: 0 <= i < |w.pieces| ==>
            WholePiece(w.pieces[i], r.gate.paste && i == |w.pieces| - 1))
  {
    hide *;
    Unwatched();
    WatchKeeps(UNWATCHED, ops);
    FollowsIs(Watch(UNWATCHED, ops), UNWATCHED, Run(NEW_GATE, ops).gate, Run(NEW_GATE, ops).out);
    PiecesAreWhole(Watch(UNWATCHED, ops));
  }

  lemma Unwatched()
    ensures WatchInv(UNWATCHED) && UNWATCHED.gate == NEW_GATE && UNWATCHED.pieces == []
    ensures Parsed([]) == [] && Delivered([]) == [] && Text([]) == []
  {
  }

  lemma FollowsIs(v: Watched, w: Watched, gate: Gate, out: seq<Tagged>)
    requires Follows(v, w, gate, out)
    ensures v.gate == gate
    ensures w.pieces == [] ==> Delivered(Parsed(v.pieces)) == out
  {
    if w.pieces == [] {
      assert Parsed(w.pieces) == [];
      hide Parsed;
      assert Delivered([]) == [];
      assert [] + out == out;
    }
  }

  lemma PiecesAreWhole(w: Watched)
    requires WatchInv(w)
    ensures forall i :: 0 <= i < |w.pieces| ==> WholePiece(w.pieces[i], w.gate.paste && i == |w.pieces| - 1)
  {
    hide WholePiece;
    hide GateInv;
  }

  // ---------------------------------------------------------------- no byte is lost

  /** What an opening reads of the backlog. */
  function Drained(backlog: nat -> ReadResult, i: nat): seq<Key>
    decreases 16 - i
  {
    if i >= 16 then []
    else
      match backlog(i)
      case Data(keys) => keys + Drained(backlog, i + 1)
      case Interrupted => Drained(backlog, i + 1)
      case _ => []
  }

  /** Everything typed during a run, read by the reader or by an opening. */
  function Input(ops: seq<Op>): seq<Key> {
    if ops == [] then []
    else
      (match ops[0]
       case Read(keys, _) => keys
       case Open(backlog, _) => Drained(backlog, 0)
       case _ => []) + Input(ops[1..])
  }

  /** Parsed and held bytes together grew by exactly `keys`. */
  ghost predicate Gained(w: Watched, v: Watched, keys: seq<Key>) {
    Text(Parsed(v.pieces)) + v.gate.prefix == Text(Parsed(w.pieces)) + w.gate.prefix + Typed(keys)
  }

  lemma TypedJoin(a: seq<Key>, b: seq<Key>)
    ensures Typed(a + b) == Typed(a) + Typed(b)
  {
  }

  lemma GainedTwice(w: Watched, u: Watched, v: Watched, a: seq<Key>, b: seq<Key>)
    requires Gained(w, u, a) && Gained(u, v, b)
    ensures Gained(w, v, a + b)
  {
    TypedJoin(a, b);
    Regroup(Text(Parsed(w.pieces)) + w.gate.prefix, Typed(a), Typed(b));
  }

  lemma GainedNothing(w: Watched, v: Watched)
    requires v.pieces == w.pieces && v.gate.prefix == w.gate.prefix
    ensures Gained(w, v, [])
  {
  }

  /** A step that emits and holds exactly what was held and came in. */
  lemma NoteGains(w: Watched, d: Decoded, delivered: bool, keys: seq<Key>)
    requires Unmark(Marks(d.out)) + d.gate.prefix == w.gate.prefix + Typed(keys)
    ensures Gained(w, Note(w, d, delivered), keys)
  {
    NoteFollows(w, d, delivered);
    hide Note;
    hide Parsed;
    TextJoin(Parsed(w.pieces), See(d.out, delivered));
    assert Text(See(d.out, delivered)) == Unmark(Marks(d.out));
    Regroup(Text(Parsed(w.pieces)), Unmark(Marks(d.out)), d.gate.prefix);
    Regroup(Text(Parsed(w.pieces)), w.gate.prefix, Typed(keys));
  }

  lemma FlushGains(w: Watched, at: Time, delivered: bool)
    ensures Gained(w, Note(w, FlushPrefix(w.gate, at), delivered), [])
  {
    var d := FlushPrefix(w.gate, at);
    assert Unmark(Marks(d.out)) + d.gate.prefix == w.gate.prefix + Typed([]);
    hide FlushPrefix;
    NoteGains(w, d, delivered, []);
  }

  lemma {:induction false} KeysGain(w: Watched, keys: seq<Key>, delivered: bool)
    requires WatchInv(w)
    ensures Gained(w, WatchKeys(w, keys, delivered), keys)
    decreases |keys|
  {
    hide *;
    KeysCases(w, keys, delivered);
    if keys == [] {
      GainedNothing(w, w);
    } else {
      GateOf(w);
      var d := Push(w.gate, keys[0]);
      HeldIsShort(w.gate);
      PushScans(w.gate, keys[0]);
      ScanKeepsBytes(w.gate.prefix + [keys[0].b], w.gate.paste);
      TypedOne(keys[0]);
      ShowsBytes(d, Scan(w.gate.prefix + [keys[0].b], w.gate.paste));
      NoteGains(w, d, delivered, [keys[0]]);
      PushShape(w.gate, keys[0]);
      NoteKeeps(w, d, delivered);
      var u := Note(w, d, delivered);
      KeysGain(u, keys[1..], delivered);
      GainedTwice(w, u, WatchKeys(u, keys[1..], delivered), [keys[0]], keys[1..]);
      assert [keys[0]] + keys[1..] == keys;
    }
  }

  lemma KeysCases(w: Watched, keys: seq<Key>, delivered: bool)
    ensures WatchKeys(w, keys, delivered) ==
      if keys == [] then w else WatchKeys(Note(w, Push(w.gate, keys[0]), delivered), keys[1..], delivered)
  {
    hide Push;
    hide Note;
  }

  lemma HeldIsShort(g: Gate)
    requires GateInv(g)
    ensures |g.prefix| < 6
  {
  }

  lemma TypedOne(k: Key)
    ensures Typed([k]) == [k.b]
  {
  }

  lemma ShowsBytes(d: Decoded, r: Scanned)
    requires Shows(d, r)
    ensures Unmark(Marks(d.out)) + d.gate.prefix == Unmark(r.out) + r.held
  {
  }

  lemma {:induction false} DrainGains(w: Watched, backlog: nat -> ReadResult, i: nat)
    requires WatchInv(w)
    ensures Gained(w, WatchDrain(w, backlog, i), Drained(backlog, i))
    decreases 16 - i
  {
    hide Gained;
    hide WatchInv;
    hide WatchKeys;
    GainedNothing(w, w);
    if i < 16 {
      match backlog(i)
      case Data(keys) =>
        var u := WatchKeys(w, keys, false);
        KeysGain(w, keys, false);
        WatchKeysKeeps(w, keys, false);
        DrainGains(u, backlog, i + 1);
        GainedTwice(w, u, WatchDrain(u, backlog, i + 1), keys, Drained(backlog, i + 1));
      case Interrupted => DrainGains(w, backlog, i + 1);
      case _ =>
    }
  }

  lemma OpenGains(w: Watched, backlog: nat -> ReadResult, at: Time)
    requires WatchInv(w)
    ensures Gained(w, WatchOpen(w, backlog, at), Drained(backlog, 0))
  {
    var drained := WatchDrain(w, backlog, 0);
    var noted := Note(drained, FlushPrefix(drained.gate, at), false);
    DrainGains(w, backlog, 0);
    WatchDrainFollows(w, backlog, 0);
    FlushGains(drained, at, false);
    OpenedPrefix(w, backlog, at);
    hide *;
    GainedTwice(w, drained, noted, Drained(backlog, 0), []);
    assert Drained(backlog, 0) + [] == Drained(backlog, 0);
    Reopened(w, drained, WatchOpen(w, backlog, at), Drained(backlog, 0));
    Reopened(w, noted, WatchOpen(w, backlog, at), Drained(backlog, 0));
  }

  lemma Reopened(w: Watched, u: Watched, v: Watched, keys: seq<Key>)
    requires Gained(w, u, keys)
    ensures v.pieces == u.pieces && v.gate.prefix == u.gate.prefix ==> Gained(w, v, keys)
  {
  }

  lemma OpenedPrefix(w: Watched, backlog: nat -> ReadResult, at: Time)
    requires WatchDrain(w, backlog, 0).gate == Drain(w.gate, backlog, 0).0
    ensures
      var drained := WatchDrain(w, backlog, 0);
      var noted := Note(drained, FlushPrefix(drained.gate, at), false);
      var v := WatchOpen(w, backlog, at);
      || (v.pieces == drained.pieces && v.gate.prefix == drained.gate.prefix)
      || (v.pieces == noted.pieces && v.gate.prefix == noted.gate.prefix)
  {
    hide WatchDrain;
    hide Drain;
    hide FlushPrefix;
  }

  lemma OpGains(w: Watched, op: Op)
    requires WatchInv(w)
    ensures Gained(w, WatchOp(w, op), Input([op]))
  {
    InputOne(op);
    hide *;
    match op
    case Read(keys, at) =>
      ReadIs(w, keys, at);
      FlushGains(w, at, true);
      NotedFlush(w, at);
      var u := Note(w, FlushPrefix(w.gate, at), true);
      KeysGain(u, keys, true);
      GainedTwice(w, u, WatchKeys(u, keys, true), [], keys);
      assert [] + keys == keys;
    case Flush(at) =>
      FlushIs(w, at);
      FlushGains(w, at, true);
    case Close =>
      CloseIs(w);
      GainedNothing(w, w.(gate := w.gate.(generation := 0)));
    case Open(backlog, at) =>
      OpenIs(w, backlog, at);
      OpenGains(w, backlog, at);
  }

  lemma InputOne(op: Op)
    ensures Input([op]) ==
      match op
      case Read(keys, _) => keys
      case Open(backlog, _) => Drained(backlog, 0)
      case _ => []
  {
    hide Drained;
    assert [op][1..] == [];
  }

  lemma {:induction false} WatchGains(w: Watched, ops: seq<Op>)
    requires WatchInv(w)
    ensures Gained(w, Watch(w, ops), Input(ops))
    decreases |ops|
  {
    hide WatchInv;
    hide WatchOp;
    hide Gained;
    hide Drained;
    if ops == [] {
      GainedNothing(w, w);
    } else {
      var u := WatchOp(w, ops[0]);
      OpGains(w, ops[0]);
      WatchOpKeeps(w, ops[0]);
      WatchGains(u, ops[1..]);
      GainedTwice(w, u, Watch(u, ops[1..]), Input([ops[0]]), Input(ops[1..]));
      InputOne(ops[0]);
    }
  }

  /** Every byte typed is parsed once, in order, but for those still held. */
  lemma NothingIsLost(ops: seq<Op>)
    ensures
      var w := Watch(UNWATCHED, ops);
      Text(Parsed(w.pieces)) + Run(NEW_GATE, ops).gate.prefix == Typed(Input(ops))
  {
    hide *;
    Unwatched();
    WatchKeeps(UNWATCHED, ops);
    FollowsIs(Watch(UNWATCHED, ops), UNWATCHED, Run(NEW_GATE, ops).gate, Run(NEW_GATE, ops).out);
    WatchGains(UNWATCHED, ops);
    GainedAll(Watch(UNWATCHED, ops), Input(ops));
  }

  lemma GainedAll(w: Watched, keys: seq<Key>)
    requires Gained(UNWATCHED, w, keys)
    ensures Text(Parsed(w.pieces)) + w.gate.prefix == Typed(keys)
  {
    Unwatched();
    hide Parsed;
    hide Text;
    hide Typed;
    assert Typed(keys) == [] + [] + Typed(keys);
  }

  // ---------------------------------------------------------------- reads in time

  /** Only reads, none of which finds a held prefix that timed out. */
  ghost predicate ReadsInTime(g: Gate, ops: seq<Op>)
    decreases |ops|
  {
    ops == [] ||
    (ops[0].Read? && FlushPrefix(g, ops[0].at) == Decoded(g, []) && ReadsInTime(Apply(g, ops[0]).gate, ops[1..]))
  }

  /** Without a timeout a run of reads is one decoding of all they read. */
  lemma {:induction false} ReadsDecode(g: Gate, ops: seq<Op>)
    requires ReadsInTime(g, ops)
    ensures Run(g, ops) == Decode(g, Input(ops))
    decreases |ops|
  {
    hide Decode;
    hide FlushPrefix;
    if ops == [] {
      DecodeNone(g);
    } else {
      var first := Decode(g, ops[0].keys);
      assert [] + first.out == first.out;
      ReadsDecode(first.gate, ops[1..]);
      DecodeTwice(g, ops[0].keys, Input(ops[1..]));
    }
  }

  // ---------------------------------------------------------------- the gate object

  datatype Item = Item(generation: nat, data: Bytes, paste: bool)

  function Flatten(items: seq<Item>): seq<Tagged> {
    if items == [] then []
    else
      var last := items[|items| - 1];
      Flatten(items[..|items| - 1]) + TagAll(last.data, last.generation, last.paste)
  }

  /** No item is empty. */
  ghost predicate Filled(items: seq<Item>) {
    forall item <- items :: item.data != []
  }

  /** Adds bytes to a result, merging them into the last item of the same origin. */
  method Emit(items: seq<Item>, data: Bytes, epoch: nat, paste: bool) returns (r: seq<Item>)
    ensures Flatten(r) == Flatten(items) + TagAll(data, epoch, paste)
    ensures Filled(items) && data != [] ==> Filled(r)
  {
    var n := |items|;
    if n > 0 && items[n - 1].generation == epoch && items[n - 1].paste == paste {
      r := items[..n - 1] + [Item(epoch, items[n - 1].data + data, paste)];
      assert r[..n - 1] == items[..n - 1];
      assert TagAll(items[n - 1].data + data, epoch, paste)
          == TagAll(items[n - 1].data, epoch, paste) + TagAll(data, epoch, paste);
    } else {
      r := items + [Item(epoch, data, paste)];
      assert r[..n] == items;
    }
  }

  lemma SettleNone(g: Gate, out: seq<Tagged>, items: seq<Tagged>)
    ensures g.prefix == [] ==> Settle(g) == Decoded(g, [])
    ensures [] + out == out && out + [] == out && items + [] == items
  {
  }

  lemma SettleHold(g: Gate)
    requires g.prefix <= Target(g.paste) && |g.prefix| != |Target(g.paste)|
    ensures Settle(g) == Decoded(g, [])
  {
  }

  lemma SettleFull(g: Gate)
    requires g.prefix <= Target(g.paste) && |g.prefix| == |Target(g.paste)|
    ensures Settle(g) == Decoded(
      g.(paste := !g.paste, prefix := [],
         pasteGeneration := if g.paste then g.pasteGeneration else g.prefixGeneration),
      TagAll(g.prefix, g.prefixGeneration, true))
  {
    hide Target;
  }

  lemma SettleByte(g: Gate)
    requires g.prefix != [] && !(g.prefix <= Target(g.paste))
    ensures
      var rest := Settle(g.(prefix := g.prefix[1..]));
      Settle(g) == rest.(out := TagAll(g.prefix[..1], g.prefixGeneration, g.paste) + rest.out)
  {
    hide Target;
    assert TagAll(g.prefix[..1], g.prefixGeneration, g.paste) == [Tagged(g.prefix[0], g.prefixGeneration, g.paste)];
  }

  class SessionInputGate {
    var generation: nat
    var next: nat
    var paste: bool
    var pasteGeneration: nat
    var prefix: Bytes
    var prefixGeneration: nat
    var prefixAt: Time

    constructor ()
      ensures State() == NEW_GATE
    {
      generation, next, paste, pasteGeneration := 0, 0, false, 0;
      prefix, prefixGeneration, prefixAt := [], 0, 0;
    }

    function State(): Gate
      reads this
    {
      Gate(generation, next, paste, pasteGeneration, prefix, prefixGeneration, prefixAt)
    }

    method CloseGeneration()
      modifies this`generation
      ensures State() == Apply(old(State()), Close).gate
    {
      generation := 0;
    }

    method FlushHeld(now: Time) returns (items: seq<Item>)
      modifies this`prefix
      ensures Decoded(State(), Flatten(items)) == FlushPrefix(old(State()), now) && Filled(items)
    {
      if |prefix| == 0 || now - prefixAt < PREFIX_TIMEOUT {
        return [];
      }
      items := [Item(prefixGeneration, prefix, paste)];
      assert items[..0] == [];
      prefix := [];
    }

    /** The clock is read for a byte only when it begins a prefix. */
    method DecodeInput(keys: seq<Key>) returns (result: seq<Item>)
      modifies this
      ensures Decoded(State(), Flatten(result)) == Decode(old(State()), keys) && Filled(result)
    {
      result := [];
      ghost var start := State();
      for i := 0 to |keys|
        invariant Decode(start, keys[..i]) == Decoded(State(), Flatten(result)) && Filled(result)
      {
        ghost var before := State();
        ghost var delivered := Flatten(result);
        hide Flatten;
        hide Settle;
        hide Decode;
        hide Filled;
        if |prefix| == 0 {
          prefixGeneration := if paste then pasteGeneration else generation;
          prefixAt := keys[i].at;
        }
        prefix := prefix + [keys[i].b];
        assert State() == Join(before, keys[i]);
        result := SettlePrefix(result);
        DecodeTwice(start, keys[..i], [keys[i]]);
        assert keys[..i] + [keys[i]] == keys[..i + 1];
        DecodeOne(before, keys[i]);
        assert Flatten(result) == delivered + Settle(Join(before, keys[i])).out;
      }
      assert keys[..|keys|] == keys;
    }

    /** Completes a delimiter or releases the bytes that cannot begin one. */
    method SettlePrefix(result: seq<Item>) returns (r: seq<Item>)
      modifies this
      ensures State() == Settle(old(State())).gate
      ensures Flatten(r) == Flatten(result) + Settle(old(State())).out
      ensures Filled(result) ==> Filled(r)
    {
      hide *;
      r := result;
      ghost var goal := Settle(State());
      ghost var done: seq<Tagged> := [];
      SettleNone(State(), goal.out, Flatten(result));
      while |prefix| > 0
        invariant goal.gate == Settle(State()).gate && goal.out == done + Settle(State()).out
        invariant Flatten(r) == Flatten(result) + done && (Filled(result) ==> Filled(r))
        decreases |prefix|
      {
        ghost var st := State();
        ghost var kept := Flatten(r);
        StateFields();
        var target := Target(paste);
        if prefix <= target {
          if |prefix| == |target| {
            SettleFull(st);
            var origin := prefixGeneration;
            r := Emit(r, prefix, origin, true);
            Regroup(Flatten(result), done, TagAll(prefix, origin, true));
            done := done + TagAll(prefix, origin, true);
            if !paste {
              pasteGeneration := origin;
            }
            paste := !paste;
            prefix := [];
            StateFields();
          } else {
            SettleHold(st);
          }
          break;
        }
        SettleByte(st);
        ghost var one := TagAll(prefix[..1], prefixGeneration, paste);
        r := Emit(r, prefix[..1], prefixGeneration, paste);
        Regroup(Flatten(result), done, one);
        Regroup(done, one, Settle(st.(prefix := st.prefix[1..])).out);
        done := done + one;
        prefix := prefix[1..];
        StateFields();
      }
      StateFields();
      if |prefix| == 0 {
        SettleNone(State(), done, Flatten(result));
      }
    }

    lemma StateFields()
      ensures State() == Gate(generation, next, paste, pasteGeneration, prefix, prefixGeneration, prefixAt)
    {
    }

    /** Drains the kernel backlog, discarding it, and opens a generation on a clean boundary. */
    method OpenGeneration(backlog: nat -> ReadResult, now: Time) returns (result: OpenResult)
      modifies this
      ensures (State(), result) == OpenGate(old(State()), backlog, now)
    {
      hide Decode;
      hide FlushPrefix;
      hide Flatten;
      var empty := false;
      var i := 0;
      ghost var start := State();
      while i < 16 && !empty
        invariant i <= 16
        invariant !empty ==> Drain(start, backlog, 0) == Drain(State(), backlog, i)
        invariant empty ==> Drain(start, backlog, 0) == (State(), Opened)
        decreases 16 - i, !empty
      {
        match backlog(i)
        case Data(keys) =>
          var discarded := DecodeInput(keys);
          i := i + 1;
        case WouldBlock => empty := true;
        case Interrupted => i := i + 1;
        case Failed => return OpenFailed;
        case Closed => return OpenFailed;
      }
      var discarded := FlushHeld(now);
      if !empty || paste || |prefix| > 0 {
        return NotYet;
      }
      next := next + 1;
      generation := next;
      result := Opened;
    }
  }

  lemma DecodeOne(g: Gate, k: Key)
    ensures Decode(g, [k]) == Push(g, k)
  {
    hide Push;
    var d := Push(g, k);
    assert [k][1..] == [];
    assert d.out + [] == d.out;
  }
}
