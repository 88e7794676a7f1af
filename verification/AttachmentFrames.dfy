/**
 The envelope of the attachment protocol (internal/mirror/session_relay.go): a little-endian
 length and one length-delimited protocol-buffer field.
 */
module AttachmentFrames {
  import opened Wrappers
  import opened Bytes

  const MAX_FRAME: nat := 4 * 1024 * 1024
  const WORD32: nat := 0x1_0000_0000
  const WORD64: nat := 0x1_0000_0000_0000_0000
  /** Field numbers survive the shift by three only below this bound. */
  const MAX_KIND: nat := 0x2000_0000_0000_0000

  // ---------------------------------------------------------------- variable-length integers

  /** "Base 128 Varints" of the Protocol Buffers encoding: seven bits a byte, lowest first. */
  function Varint(n: nat): (r: Bytes)
    ensures |r| >= 1
  {
    if n < 128 then [n as byte] else [(n % 128 + 128) as byte] + Varint(n / 128)
  }

  datatype Number = Number(value: nat, length: nat)

  /** Reads a varint whose first i bytes were read already; ten bytes hold 64 bits. */
  function Uvarint(s: Bytes, i: nat): (r: Option<Number>)
    ensures r.Some? ==> 1 <= r.value.length <= |s|
    decreases |s|
  {
    if s == [] || i >= 10 then None
    else if s[0] < 128 then
      if i == 9 && s[0] > 1 then None else Some(Number(s[0] as nat, 1))
    else
      var more := Uvarint(s[1..], i + 1);
      if more.None? then None
      else Some(Number((s[0] as nat - 128) + 128 * more.value.value, more.value.length + 1))
  }

  /** How large a number the bytes from position i on may hold. */
  function Room(i: nat): nat
    decreases 10 - i
  {
    if i >= 10 then 1 else if i == 9 then 2 else 128 * Room(i + 1)
  }

  lemma RoomAtStart()
    ensures Room(0) == WORD64
  {
    assert Room(9) == 2 && Room(8) == 256 && Room(7) == 0x8000 && Room(6) == 0x40_0000 && Room(5) == 0x2000_0000;
    assert Room(4) == 0x10_0000_0000 && Room(3) == 0x800_0000_0000 && Room(2) == 0x4_0000_0000_0000;
    assert Room(1) == 0x200_0000_0000_0000;
  }

  lemma {:induction false} VarintReads(n: nat, rest: Bytes, i: nat)
    requires i < 10 && n < Room(i)
    ensures Uvarint(Varint(n) + rest, i) == Some(Number(n, |Varint(n)|))
    decreases n
  {
    var s := Varint(n) + rest;
    if n >= 128 {
      assert s == [(n % 128 + 128) as byte] + (Varint(n / 128) + rest);
      assert s[1..] == Varint(n / 128) + rest;
      assert i < 9 && n / 128 < Room(i + 1);
      VarintReads(n / 128, rest, i + 1);
    }
  }

  /** Every number of 64 bits is read back, whatever follows it. */
  lemma VarintRoundTrip(n: nat, rest: Bytes)
    requires n < WORD64
    ensures Uvarint(Varint(n) + rest, 0) == Some(Number(n, |Varint(n)|))
  {
    RoomAtStart();
    VarintReads(n, rest, 0);
  }

  lemma {:induction false} UvarintFits(s: Bytes, i: nat)
    requires Uvarint(s, i).Some?
    ensures i < 10 && Uvarint(s, i).value.value < Room(i)
    decreases |s|
  {
    if s[0] >= 128 {
      UvarintFits(s[1..], i + 1);
    } else {
      RoomGrows(i);
    }
  }

  lemma RoomGrows(i: nat)
    ensures i < 9 ==> Room(i) >= 128 * 2
    decreases 10 - i
  {
    if i < 8 {
      RoomGrows(i + 1);
    }
  }

  // ---------------------------------------------------------------- the length

  function Little(n: nat): (r: Bytes)
    ensures |r| == 4
  {
    [(n % 256) as byte, (n / 256 % 256) as byte, (n / 65536 % 256) as byte, (n / 16777216 % 256) as byte]
  }

  function FromLittle(s: Bytes): (r: nat)
    requires |s| >= 4
    ensures r < WORD32
  {
    s[0] as nat + 256 * s[1] as nat + 65536 * s[2] as nat + 16777216 * s[3] as nat
  }

  lemma LittleRoundTrip(n: nat)
    ensures FromLittle(Little(n)) == n % WORD32
  {
    var a, b, c := n / 256, n / 65536, n / 16777216;
    assert n == n % 256 + 256 * a;
    assert a == a % 256 + 256 * (a / 256) && a / 256 == b;
    assert b == b % 256 + 256 * (b / 256) && b / 256 == c;
    assert c == c % 256 + 256 * (c / 256);
    var low := n % 256 + 256 * (a % 256) + 65536 * (b % 256) + 16777216 * (c % 256);
    assert n == low + WORD32 * (c / 256);
    assert 0 <= low < WORD32;
  }

  // ---------------------------------------------------------------- frames

  /** Shifting a 64-bit field number drops what does not fit. */
  function Tag(kind: nat): nat {
    kind * 8 % WORD64 + 2
  }

  function Payload(kind: nat, body: Bytes): Bytes {
    Varint(Tag(kind)) + Varint(|body|) + body
  }

  function Frame(kind: nat, body: Bytes): Bytes {
    Little(|Payload(kind, body)|) + Payload(kind, body)
  }

  datatype Message = Message(kind: nat, body: Bytes)

  /** The one field of a payload. */
  function Open(payload: Bytes): Option<Message> {
    var tag := Uvarint(payload, 0);
    if tag.None? || tag.value.value % 8 != 2 || tag.value.value / 8 == 0 then None
    else
      var rest := payload[tag.value.length..];
      var size := Uvarint(rest, 0);
      if size.None? || size.value.value != |rest| - size.value.length then None
      else Some(Message(tag.value.value / 8, rest[size.value.length..]))
  }

  /** A frame as it came, what it says, and what follows it on the stream. */
  datatype Read = Read(message: Message, frame: Bytes, rest: Bytes)

  function ReadFrame(stream: Bytes): (r: Option<Read>)
    ensures r.Some? ==> r.value.frame + r.value.rest == stream && |r.value.frame| > 4
  {
    if |stream| < 4 then None
    else
      var size := FromLittle(stream);
      if size == 0 || size > MAX_FRAME || |stream| < 4 + size then None
      else
        var message := Open(stream[4..4 + size]);
        if message.None? then None else Some(Read(message.value, stream[..4 + size], stream[4 + size..]))
  }

  lemma TagOf(kind: nat)
    ensures Tag(kind) < WORD64 && Tag(kind) % 8 == 2 && Tag(kind) / 8 == kind % MAX_KIND
  {
    assert WORD64 == 8 * MAX_KIND;
    var q, r := kind / MAX_KIND, kind % MAX_KIND;
    assert kind * 8 == WORD64 * q + r * 8;
    assert 0 <= r * 8 < WORD64;
    assert kind * 8 % WORD64 == r * 8;
  }

  lemma OpenPayload(kind: nat, body: Bytes)
    requires |body| < WORD64
    ensures
      Open(Payload(kind, body)) == if kind % MAX_KIND == 0 then None else Some(Message(kind % MAX_KIND, body))
  {
    hide Varint;
    hide Uvarint;
    hide Tag;
    TagOf(kind);
    var payload := Payload(kind, body);
    var rest := Varint(|body|) + body;
    assert payload == Varint(Tag(kind)) + rest;
    VarintRoundTrip(Tag(kind), rest);
    assert payload[|Varint(Tag(kind))|..] == rest;
    VarintRoundTrip(|body|, body);
    assert rest[|Varint(|body|)|..] == body;
  }

  /**
   A frame is read back as what it says, with nothing of what follows, whenever its payload is
   within the bound and its field number is a positive one below two to the 61st.
   */
  lemma FrameRoundTrip(kind: nat, body: Bytes, rest: Bytes)
    requires 0 < kind < MAX_KIND && |Payload(kind, body)| <= MAX_FRAME
    ensures ReadFrame(Frame(kind, body) + rest) == Some(Read(Message(kind, body), Frame(kind, body), rest))
  {
    assert kind % MAX_KIND == kind;
    FrameIs(kind, body);
    hide *;
    OpenPayload(kind, body);
    ReadOf(Payload(kind, body), rest);
  }

  lemma FrameIs(kind: nat, body: Bytes)
    ensures Frame(kind, body) == Little(|Payload(kind, body)|) + Payload(kind, body) && |Payload(kind, body)| > 0
    ensures |Payload(kind, body)| > |body| && MAX_FRAME < WORD64
  {
    hide Varint;
  }

  /** A well-measured frame is read as its payload is. */
  lemma ReadOf(payload: Bytes, rest: Bytes)
    requires 0 < |payload| <= MAX_FRAME
    ensures
      var frame := Little(|payload|) + payload;
      ReadFrame(frame + rest) ==
        if Open(payload).None? then None else Some(Read(Open(payload).value, frame, rest))
  {
    LittleRoundTrip(|payload|);
    FrameParts(payload, rest);
    var stream := Little(|payload|) + payload + rest;
    assert FromLittle(stream) == |payload|;
    hide Open;
    hide Little;
    hide FromLittle;
    Sized(stream, payload, Little(|payload|) + payload, rest);
  }

  lemma Sized(stream: Bytes, payload: Bytes, frame: Bytes, rest: Bytes)
    requires 0 < |payload| <= MAX_FRAME && |stream| >= 4 + |payload| && FromLittle(stream) == |payload|
    requires stream[4..4 + |payload|] == payload && stream[..4 + |payload|] == frame && stream[4 + |payload|..] == rest
    ensures
      ReadFrame(stream) == if Open(payload).None? then None else Some(Read(Open(payload).value, frame, rest))
  {
    hide Open;
    hide FromLittle;
  }

  lemma FrameParts(payload: Bytes, rest: Bytes)
    ensures
      var stream := Little(|payload|) + payload + rest;
      && FromLittle(stream) == FromLittle(Little(|payload|))
      && stream[4..4 + |payload|] == payload && stream[..4 + |payload|] == Little(|payload|) + payload
      && stream[4 + |payload|..] == rest
  {
    hide Little;
  }

  /** Exactly those frames round-trip: other field numbers are refused or misread, longer payloads refused. */
  lemma FrameRoundTripsExactly(kind: nat, body: Bytes)
    requires |body| < WORD64
    ensures
      (var r := ReadFrame(Frame(kind, body)); r.Some? && r.value.message == Message(kind, body))
      <==> 0 < kind < MAX_KIND && |Payload(kind, body)| <= MAX_FRAME
  {
    var payload := Payload(kind, body);
    if |payload| <= MAX_FRAME {
      if 0 < kind < MAX_KIND {
        FrameRoundTrip(kind, body, []);
        assert Frame(kind, body) + [] == Frame(kind, body);
      } else {
        MisreadKind(kind, body);
      }
    } else {
      TooLongIsNotRead(kind, body);
    }
  }

  lemma MisreadKind(kind: nat, body: Bytes)
    requires |body| < WORD64 && |Payload(kind, body)| <= MAX_FRAME && !(0 < kind < MAX_KIND)
    ensures var r := ReadFrame(Frame(kind, body)); r.Some? ==> r.value.message != Message(kind, body)
  {
    var payload := Payload(kind, body);
    OpenPayload(kind, body);
    assert payload != [] by {
      assert |Varint(Tag(kind))| >= 1;
    }
    hide Payload;
    hide ReadFrame;
    hide Open;
    hide Little;
    ReadOf(payload, []);
    assert Frame(kind, body) + [] == Frame(kind, body);
  }

  lemma OpenIsShorter(payload: Bytes)
    ensures Open(payload).Some? ==> |Open(payload).value.body| < |payload|
  {
    hide Uvarint;
  }

  lemma TooLongIsNotRead(kind: nat, body: Bytes)
    requires |body| < WORD64 && |Payload(kind, body)| > MAX_FRAME
    ensures var r := ReadFrame(Frame(kind, body)); r.Some? ==> r.value.message != Message(kind, body)
  {
    var payload := Payload(kind, body);
    if |payload| >= WORD32 {
      BodyIsLong(kind, body);
    }
    assert |payload| < WORD32 ==> |payload| % WORD32 == |payload|;
    FrameIs(kind, body);
    hide *;
    LittleRoundTrip(|payload|);
    MeasuredShort(Frame(kind, body), payload, Message(kind, body));
  }

  /** A frame whose length says less than its payload is not read as the whole body. */
  lemma MeasuredShort(stream: Bytes, payload: Bytes, m: Message)
    requires stream == Little(|payload|) + payload && |payload| > MAX_FRAME
    requires FromLittle(Little(|payload|)) == |payload| % WORD32
    requires |payload| < WORD32 ==> |payload| % WORD32 == |payload|
    requires |payload| >= WORD32 ==> |m.body| > MAX_FRAME
    ensures ReadFrame(stream).Some? ==> ReadFrame(stream).value.message != m
  {
    FrameParts(payload, []);
    assert stream + [] == stream;
    hide Open;
    hide Little;
    hide FromLittle;
    var size := |payload| % WORD32;
    if 0 < size <= MAX_FRAME {
      OpenIsShorter(stream[4..4 + size]);
    }
  }

  /** A payload of four gigabytes or more has a body longer than any frame. */
  lemma BodyIsLong(kind: nat, body: Bytes)
    requires |body| < WORD64 && |Payload(kind, body)| >= WORD32
    ensures |body| > MAX_FRAME
  {
    hide Varint;
    RoomAtStart();
    TagOf(kind);
    VarintLength(Tag(kind), 0);
    VarintLength(|body|, 0);
  }

  lemma {:induction false} VarintLength(n: nat, i: nat)
    requires i < 10 && n < Room(i)
    ensures |Varint(n)| <= 10 - i
    decreases n
  {
    if n >= 128 {
      assert i < 9 && n / 128 < Room(i + 1);
      VarintLength(n / 128, i + 1);
    }
  }

  // ---------------------------------------------------------------- the loops

  function Power128(i: nat): (r: nat)
    ensures r >= 1
  {
    if i == 0 then 1 else 128 * Power128(i - 1)
  }

  /** The value so far, and what the rest adds above it. */
  ghost function Above(x: nat, i: nat, more: Option<Number>): Option<Number> {
    if more.None? then None else Some(Number(x + Power128(i) * more.value.value, i + more.value.length))
  }

  /** Reads a varint byte by byte, adding each above those before it. */
  method ReadVarint(s: Bytes) returns (r: Option<Number>)
    ensures r == Uvarint(s, 0)
  {
    var x: nat, i: nat, unit: nat := 0, 0, 1;
    AboveNothing(Uvarint(s, 0));
    assert s[0..] == s;
    hide *;
    while i < |s|
      invariant 0 <= i <= |s| && i <= 10 && unit == Power128(i)
      invariant Uvarint(s, 0) == Above(x, i, Uvarint(s[i..], i))
    {
      OneByte(s, x, i, unit);
      if i == 10 {
        return None;
      }
      var b := s[i];
      if b < 128 {
        if i == 9 && b > 1 {
          return None;
        }
        return Some(Number(x + Scaled(b as nat, unit), i + 1));
      }
      x := x + Scaled(b as nat - 128, unit);
      unit := 128 * unit;
      i := i + 1;
    }
    EndOfBytes(x, i);
    assert s[i..] == [];
    return None;
  }

  function Scaled(n: nat, unit: nat): nat { n * unit }

  /** What one more byte says about the number. */
  lemma OneByte(s: Bytes, x: nat, i: nat, unit: nat)
    requires i < |s| && i <= 10 && unit == Power128(i)
    ensures
      var b := s[i];
      var now := Above(x, i, Uvarint(s[i..], i));
      if i == 10 || (b < 128 && i == 9 && b > 1) then now == None
      else if b < 128 then now == Some(Number(x + Scaled(b as nat, unit), i + 1))
      else now == Above(x + Scaled(b as nat - 128, unit), i + 1, Uvarint(s[i + 1..], i + 1)) && 128 * unit == Power128(i + 1)
  {
    UvarintStep(s, i);
    NextPower(i);
    NoneAbove(x, i);
    hide Uvarint;
    hide Power128;
    hide Above;
    if s[i] < 128 {
      Last(x, i, unit, s[i] as nat);
    } else {
      Shifted(x, i, unit, s[i] as nat - 128, Uvarint(s[i + 1..], i + 1));
    }
  }

  lemma AboveNothing(more: Option<Number>)
    ensures Above(0, 0, more) == more && Power128(0) == 1
  {
  }

  lemma NoneAbove(x: nat, i: nat)
    ensures Above(x, i, None) == None
  {
  }

  lemma NextPower(i: nat)
    ensures Power128(i + 1) == 128 * Power128(i)
  {
  }

  lemma EndOfBytes(x: nat, i: nat)
    ensures Above(x, i, Uvarint([], i)) == None
  {
  }

  lemma UvarintStep(s: Bytes, i: nat)
    requires i < |s|
    ensures
      var more := Uvarint(s[i + 1..], i + 1);
      Uvarint(s[i..], i) ==
        if i >= 10 then None
        else if s[i] < 128 then (if i == 9 && s[i] > 1 then None else Some(Number(s[i] as nat, 1)))
        else if more.None? then None
        else Some(Number((s[i] as nat - 128) + 128 * more.value.value, more.value.length + 1))
  {
    assert s[i..][1..] == s[i + 1..];
  }

  lemma Last(x: nat, i: nat, unit: nat, b: nat)
    requires unit == Power128(i)
    ensures Above(x, i, Some(Number(b, 1))) == Some(Number(x + b * unit, i + 1))
  {
  }

  lemma Shifted(x: nat, i: nat, unit: nat, low: nat, more: Option<Number>)
    requires unit == Power128(i)
    ensures
      Above(x, i, if more.None? then None else Some(Number(low + 128 * more.value.value, more.value.length + 1)))
      == Above(x + low * unit, i + 1, more)
  {
    if more.Some? {
      var v := more.value.value;
      assert unit * (low + 128 * v) == low * unit + 128 * unit * v;
    }
  }
}
