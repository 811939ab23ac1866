/** What is on the wires, byte for byte, and what the limits are, in figures. The
    other files say that printers and parsers agree with each other; this one says
    what they agree on. */
module Figures {
  import opened ByteStrings
  import opened Proto
  import opened Credit
  import opened Wire
  import opened Endpoint
  import opened Session

  // ---- integers and text -----------------------------------------------------------------

  /** Integers are little-endian, and negative ones two's complement. */
  lemma LittleEndian(b0: byte, b1: byte, b2: byte, b3: byte)
    ensures Le16(b0 + 256 * b1) == [b0, b1]
    ensures Le32(b0 + 256 * b1 + 65_536 * b2 + 16_777_216 * b3) == [b0, b1, b2, b3]
    ensures De32([b0, b1, b2, b3]) == b0 + 256 * b1 + 65_536 * b2 + 16_777_216 * b3
    ensures ExitMessage(-1).payload == [255, 255, 255, 255] && ExitMessage(-0x8000_0000).payload == [0, 0, 0, 128]
    ensures ExitMessage(258).payload == [2, 1, 0, 0]
  {
    var n: int := b0 + 256 * b1 + 65_536 * b2 + 16_777_216 * b3;
    assert n % 0x1_0000 == b0 + 256 * b1 && n / 0x1_0000 == b2 + 256 * b3;
    assert [b0, b1, b2, b3][..2] == [b0, b1] && [b0, b1, b2, b3][2..] == [b2, b3];
  }

  /** A code point that text may hold. */
  predicate Scalar(c: nat) {
    c < 0xD800 || 0xE000 <= c < 0x11_0000
  }

  /** Its bytes, of which all but the first hold six bits each. */
  function Utf8Of(c: nat): (b: Bytes)
    requires Scalar(c)
    ensures 1 <= |b| <= 4
  {
    if c < 0x80 then [c]
    else if c < 0x800 then [0xC0 + c / 64, 0x80 + c % 64]
    else if c < 0x1_0000 then [0xE0 + c / 4096, 0x80 + c / 64 % 64, 0x80 + c % 64]
    else [0xF0 + c / 262_144, 0x80 + c / 4096 % 64, 0x80 + c / 64 % 64, 0x80 + c % 64]
  }

  predicate Scalars(cs: seq<nat>) {
    forall k :: 0 <= k < |cs| ==> Scalar(cs[k])
  }

  function Utf8OfAll(cs: seq<nat>): Bytes
    requires Scalars(cs)
  {
    if cs == [] then [] else Utf8Of(cs[0]) + Utf8OfAll(cs[1..])
  }

  lemma {:induction false} FirstScalar(c: nat, rest: Bytes)
    requires Scalar(c)
    ensures Utf8(Utf8Of(c) + rest) <==> Utf8(rest)
  {
    var first := Utf8Of(c);
    assert (first + rest)[|first|..] == rest && first[0] == (first + rest)[0];
    if |first| == 2 {
      TwoThen(first[0], first[1], rest);
      assert first + rest == [first[0], first[1]] + rest;
    } else if |first| == 3 {
      ThreeThen(first[0], first[1], first[2], rest);
      assert first + rest == [first[0], first[1], first[2]] + rest;
    } else if |first| == 4 {
      FourThen(first[0], first[1], first[2], first[3], rest);
      assert first + rest == [first[0], first[1], first[2], first[3]] + rest;
    }
  }

  lemma {:induction false} TwoThen(b0: byte, b1: byte, rest: Bytes)
    requires 0xC2 <= b0 <= 0xDF && Continues(b1)
    ensures Utf8([b0, b1] + rest) <==> Utf8(rest)
  {
    assert ([b0, b1] + rest)[2..] == rest;
  }

  lemma {:induction false} ThreeThen(b0: byte, b1: byte, b2: byte, rest: Bytes)
    requires 0xE0 <= b0 <= 0xEF && Continues(b1) && Continues(b2)
    requires (b0 == 0xE0 ==> b1 >= 0xA0) && (b0 == 0xED ==> b1 < 0xA0)
    ensures Utf8([b0, b1, b2] + rest) <==> Utf8(rest)
  {
    assert ([b0, b1, b2] + rest)[3..] == rest;
  }

  lemma {:induction false} FourThen(b0: byte, b1: byte, b2: byte, b3: byte, rest: Bytes)
    requires 0xF0 <= b0 <= 0xF4 && Continues(b1) && Continues(b2) && Continues(b3)
    requires (b0 == 0xF0 ==> b1 >= 0x90) && (b0 == 0xF4 ==> b1 < 0x90)
    ensures Utf8([b0, b1, b2, b3] + rest) <==> Utf8(rest)
  {
    assert ([b0, b1, b2, b3] + rest)[4..] == rest;
  }

  lemma {:induction false} ScalarsAreText(cs: seq<nat>)
    requires Scalars(cs)
    ensures Utf8(Utf8OfAll(cs))
  {
    if cs != [] {
      ScalarsAreText(cs[1..]);
      FirstScalar(cs[0], Utf8OfAll(cs[1..]));
    }
  }

  /** The first code point of a text, and how many bytes it takes. */
  lemma FirstOfText(b: Bytes) returns (c: nat, n: nat)
    requires Utf8(b) && b != []
    ensures Scalar(c) && n == |Utf8Of(c)| <= |b| && b[..n] == Utf8Of(c) && Utf8(b[n..])
  {
    var b0: int := b[0];
    if b0 < 0x80 {
      c, n := b0, 1;
    } else if b0 < 0xE0 {
      n := 2;
      c := TwoBytes(b0, b[1]);
    } else if b0 < 0xF0 {
      n := 3;
      c := ThreeBytes(b0, b[1], b[2]);
    } else {
      n := 4;
      c := FourBytes(b0, b[1], b[2], b[3]);
    }
  }

  lemma TwoBytes(b0: int, b1: int) returns (c: nat)
    requires 0xC2 <= b0 <= 0xDF && 0x80 <= b1 < 0xC0
    ensures Scalar(c) && Utf8Of(c) == [b0, b1]
  {
    c := (b0 - 0xC0) * 64 + (b1 - 0x80);
  }

  lemma ThreeBytes(b0: int, b1: int, b2: int) returns (c: nat)
    requires 0xE0 <= b0 <= 0xEF && 0x80 <= b1 < 0xC0 && 0x80 <= b2 < 0xC0
    requires (b0 == 0xE0 ==> b1 >= 0xA0) && (b0 == 0xED ==> b1 < 0xA0)
    ensures Scalar(c) && Utf8Of(c) == [b0, b1, b2]
  {
    var high := (b0 - 0xE0) * 64 + (b1 - 0x80);
    c := high * 64 + (b2 - 0x80);
    assert c / 64 == high && high % 64 == b1 - 0x80 && c / 4096 == b0 - 0xE0;
  }

  lemma FourBytes(b0: int, b1: int, b2: int, b3: int) returns (c: nat)
    requires 0xF0 <= b0 <= 0xF4 && 0x80 <= b1 < 0xC0 && 0x80 <= b2 < 0xC0 && 0x80 <= b3 < 0xC0
    requires (b0 == 0xF0 ==> b1 >= 0x90) && (b0 == 0xF4 ==> b1 < 0x90)
    ensures Scalar(c) && Utf8Of(c) == [b0, b1, b2, b3]
  {
    var high := (b0 - 0xF0) * 64 + (b1 - 0x80);
    var middle := high * 64 + (b2 - 0x80);
    c := middle * 64 + (b3 - 0x80);
    assert c / 64 == middle && middle % 64 == b2 - 0x80;
    assert c / 4096 == high && high % 64 == b1 - 0x80 && c / 262_144 == b0 - 0xF0;
  }

  lemma {:induction false} TextIsScalars(b: Bytes) returns (cs: seq<nat>)
    requires Utf8(b)
    ensures Scalars(cs) && Utf8OfAll(cs) == b
    decreases |b|
  {
    if b == [] {
      cs := [];
    } else {
      var c, n := FirstOfText(b);
      var rest := TextIsScalars(b[n..]);
      cs := [c] + rest;
      assert cs[1..] == rest && b == b[..n] + b[n..];
    }
  }

  /** Text is exactly what code points encode to: no overlong form, no surrogate, and
      nothing past the last code point. */
  lemma TextIsUtf8(b: Bytes)
    ensures Utf8(b) <==> exists cs: seq<nat> :: Scalars(cs) && Utf8OfAll(cs) == b
  {
    if Utf8(b) {
      var cs := TextIsScalars(b);
    }
    if exists cs: seq<nat> :: Scalars(cs) && Utf8OfAll(cs) == b {
      var cs: seq<nat> :| Scalars(cs) && Utf8OfAll(cs) == b;
      ScalarsAreText(cs);
    }
  }

  // ---- messages --------------------------------------------------------------------------

  /** A message on the wire: its kind and its length, then its payload. */
  predicate OnWire(m: Message, kind: byte, payload: Bytes) {
    m.Encode() == [kind, 0, 0, 0] + Le32(|payload| % 0x1_0000_0000) + payload
  }

  lemma KindsInFigures(s: Text, t: Bytes, code: i32, w: Winsize)
    ensures OnWire(ArgMessage(s), 1, s) && OnWire(EnvMessage(s), 2, s)
    ensures OnWire(ExitMessage(code), 3, Le32(if code < 0 then code + 0x1_0000_0000 else code))
    ensures OnWire(FdsMessage(3), 4, [3, 0, 0, 0])
    ensures OnWire(SessionTypeMessage(Auto), 5, [1, 0, 0, 0])
    ensures OnWire(SessionTypeMessage(Interactive), 5, [2, 0, 0, 0])
    ensures OnWire(SessionTypeMessage(NonInteractive), 5, [3, 0, 0, 0])
    ensures OnWire(ErrorMessage(s), 6, s) && OnWire(SecretMessage(t), 7, t)
      && OnWire(Message(UnauthorizedField, s), 8, s)
    ensures OnWire(WinsizeMessage(w), 9, Le16(w.rows) + Le16(w.cols) + Le16(w.xpixels) + Le16(w.ypixels))
    ensures EndMessage().Encode() == [255, 0, 0, 0, 0, 0, 0, 0]
  {
    Wired(ArgMessage(s), 1);
    Wired(EnvMessage(s), 2);
    Wired(ExitMessage(code), 3);
    Wired(FdsMessage(3), 4);
    Wired(SessionTypeMessage(Auto), 5);
    Wired(SessionTypeMessage(Interactive), 5);
    Wired(SessionTypeMessage(NonInteractive), 5);
    Wired(ErrorMessage(s), 6);
    Wired(SecretMessage(t), 7);
    Wired(Message(UnauthorizedField, s), 8);
    Wired(WinsizeMessage(w), 9);
    Wired(EndMessage(), 255);
    OneByte(3);
    OneByte(1);
    OneByte(2);
    OneByte(0);
  }

  lemma OneByte(b: byte)
    ensures Le32(b) == [b, 0, 0, 0]
  {
  }

  lemma Wired(m: Message, kind: byte)
    requires FieldCode(m.fieldType) == kind
    ensures OnWire(m, kind, m.payload)
  {
    OneByte(kind);
  }

  /** A header is taken exactly if it names one of the ten kinds and at most 16 MiB. */
  lemma HeadersTaken(kind: u32, len: u32)
    ensures Header.Decode(Le32(kind) + Le32(len)).Ok? <==> (1 <= kind <= 9 || kind == 255) && len <= 16_777_216
    ensures !(1 <= kind <= 9 || kind == 255) ==> Header.Decode(Le32(kind) + Le32(len)) == Err(UnknownFieldType(kind))
  {
    var b := Le32(kind) + Le32(len);
    assert b[..4] == Le32(kind) && b[4..] == Le32(len);
    Le32RoundTrip(kind);
    Le32RoundTrip(len);
  }

  /** What the typed accessors refuse: text that is not UTF-8, a number that is not
      four bytes, a window size that is not eight, a session type that is not 1, 2
      or 3. */
  lemma AccessorsRefuse(m: Message, n: u32)
    ensures m.AsStr() == if Utf8(m.payload) then Ok(m.payload) else Err(InvalidPayload(m.fieldType))
    ensures |m.payload| != 4 ==> m.AsU32() == Err(InvalidPayload(m.fieldType)) == m.AsI32()
    ensures |m.payload| != 8 ==> m.AsWinsize() == Err(InvalidPayload(m.fieldType))
    ensures m.payload == Le32(n) ==>
      m.AsSessionType() == if n == 1 then Ok(Auto) else if n == 2 then Ok(Interactive) else if n == 3
        then Ok(NonInteractive)
                           else if n < 256 then Err(InvalidSessionType(n)) else Err(InvalidPayload(m.fieldType))
    ensures (m.AsU32().Ok? <==> |m.payload| == 4) && (m.AsI32().Ok? <==> |m.payload| == 4)
    ensures m.AsWinsize().Ok? <==> |m.payload| == 8
    ensures m.AsSessionType().Ok? <==> m.payload in {[1, 0, 0, 0], [2, 0, 0, 0], [3, 0, 0, 0]}
  {
    Le32RoundTrip(n);
    if |m.payload| == 4 {
      De32RoundTrip(m.payload);
      assert Le32(1) == [1, 0, 0, 0] && Le32(2) == [2, 0, 0, 0] && Le32(3) == [3, 0, 0, 0];
    }
  }

  // ---- frames ----------------------------------------------------------------------------

  /** A frame on the wire: a byte for its kind, a stream or zero, its length, its
      payload. */
  predicate Framed(f: Frame, kind: byte, id: u32, payload: Bytes)
    requires !f.Unknown?
  {
    WriteFrame(ToRaw(f)) == [kind] + Le32(id) + Le32(|payload| % 0x1_0000_0000) + payload
  }

  lemma FramesInFigures(m: Message, after: map<nat, nat>, main: bool, payload: Bytes, id: u32, amount: u32)
    ensures Framed(Control(m, after, main), 1, 0, m.Encode())
    ensures Framed(Fds(payload, after), 2, 0, payload) && Framed(Data(id, payload), 3, id, payload)
    ensures Framed(Close(id), 4, id, []) && Framed(Hello(payload), 5, 0, payload)
    ensures Framed(Window(id, amount), 6, id, Le32(amount))
  {
  }

  /** What a transport says first, with a window of 1 MiB: version 1, its window, and
      the largest stream frame it takes, 16,393 bytes more. */
  lemma HelloInFigures()
    ensures WriteFrame(ToRaw(Hello(HelloPayload(1_048_576))))
         == [5, 0, 0, 0, 0, 12, 0, 0, 0, 1, 0, 0, 0, 0, 0, 16, 0, 9, 64, 16, 0]
    ensures STREAM_WINDOW == 1_048_576
  {
    OneByte(0);
    OneByte(12);
    OneByte(1);
    assert HelloPayload(1_048_576) == [1, 0, 0, 0, 0, 0, 16, 0, 9, 64, 16, 0];
    assert Le32(1_048_576) == [0, 0, 16, 0] && Le32(1_064_969) == [9, 64, 16, 0];
  }

  /** A frame the reader does not know is left alone, and so is a control frame that
      is no message and a grant that is no number. */
  lemma OthersIgnored(kind: byte, id: u32, payload: Bytes)
    ensures FromRaw(Raw(kind, id, payload)).Unknown? <==>
      kind == 0 || kind > 6 || (kind == 1 && DecodeMessage(payload).None?) || (kind == 6 && |payload| != 4)
  {
  }

  /** How a channel can end: cleanly, if less than a header is left, and otherwise
      only in the middle of a payload, or at one longer than a control message. */
  lemma ChannelEnds(kind: byte, id: u32, len: u32, rest: Bytes)
    ensures |rest| < 9 ==> ReadFrame(rest) == EndOfChannel
    ensures ReadFrame([kind] + Le32(id) + Le32(len) + rest)
         == if len > 16_777_224 || |rest| < len then Broken else Got(Raw(kind, id, rest[..len]), rest[len..])
  {
    var input := [kind] + Le32(id) + Le32(len) + rest;
    assert input[1..5] == Le32(id) && input[5..9] == Le32(len) && input[9..] == rest;
    Le32RoundTrip(id);
    Le32RoundTrip(len);
    if len <= |rest| { assert input[9..9 + len] == rest[..len] && input[9 + len..] == rest[len..]; }
  }

  /** Five bytes for a descriptor: its stream and which way its holder uses it. The
      other end uses it the other way, an entry without a direction is skipped, and
      so is what is left of less than five bytes. */
  lemma DescriptorsInFigures(id: u32, code: byte, rest: Bytes)
    ensures DecodeFds(Le32(id) + [code] + rest)
         == (if code == 0 then [Spec(id, Dir.Read)] else if code == 1 then [Spec(id, Dir.Write)]
             else if code == 2 then [Spec(id, Dir.ReadWrite)] else []) + DecodeFds(rest)
    ensures |rest| < 5 ==> DecodeFds(rest) == []
    ensures Dir.Read.Reads() && !Dir.Read.Writes() && Dir.Write.Writes() && !Dir.Write.Reads()
    ensures Dir.Read.Invert() == Dir.Write && Dir.Write.Invert() == Dir.Read && Dir.ReadWrite.Invert() == Dir.ReadWrite
  {
    var b := Le32(id) + [code] + rest;
    assert b[..4] == Le32(id) && b[4] == code && b[5..] == rest;
    Le32RoundTrip(id);
  }

  lemma OneDescriptor(id: u32)
    ensures EncodeFds([Spec(id, Dir.Read)]) == Le32(id) + [0]
    ensures EncodeFds([Spec(id, Dir.Write)]) == Le32(id) + [1]
    ensures EncodeFds([Spec(id, Dir.ReadWrite)]) == Le32(id) + [2]
  {
    assert [Spec(id, Dir.Read)][1..] == [] && [Spec(id, Dir.Write)][1..] == [] && [Spec(id, Dir.ReadWrite)][1..] == [];
  }

  // ---- limits ----------------------------------------------------------------------------

  /** The first ids of each side. */
  lemma FirstIds()
    ensures IdOf(true, 0) == 0 && IdOf(true, 1) == 2 && IdOf(true, 2) == 4 && IdOf(true, 0x7FFF_FFFF) == 0xFFFF_FFFE
    ensures IdOf(false, 0) == 1 && IdOf(false, 1) == 3 && IdOf(false, 2) == 5 && IdOf(false, 0x7FFF_FFFF) == 0xFFFF_FFFF
  {
  }

  /** An end takes an Fds frame as long as it runs at most eight delegated streams
      with it: a session's three, and eight at once. */
  lemma EightStreams(e: End, specs: seq<Spec>, after: map<nat, nat>)
    requires e.reader == Reader.Hand(Fds(EncodeFds(specs), after))
    ensures HandleFrame(e, e.reader.frame).reader
         == if e.live + |specs| > 8 then Reader.Stopped(TooManyStreams) else Materializing(specs, [], after)
  {
    FdsRoundTrip(specs);
  }

  /** A data frame is taken if it costs at most the window and 16,393 bytes more, and
      a stream that is open waits for room for it only while something is queued. */
  lemma RoomInFigures(e: End, id: u32, bytes: Bytes)
    requires e.reader == Reader.Hand(Data(id, bytes))
    ensures HandleFrame(e, e.reader.frame).reader.Stopped? <==> |bytes| > e.window + 16_384
    ensures HandleFrame(e, e.reader.frame).reader.Room? ==>
      var e' := HandleFrame(e, e.reader.frame);
      var k := e'.sinks[e'.reader.h];
      Enabled(e', Reads(Count)) <==>
        k.queued == 0 || k.queued + 9 + |bytes| <= e.window + 16_393
        || k.phase.Ended? || k.phase.Gone?
  {
  }

  /** What stops a reader: a data frame larger than it takes, more than eight streams,
      and a Hello that makes no sense; and then its flow is closed. Nothing else it is
      sent does. */
  lemma WhatStopsTheReader(e: End, f: Frame)
    requires e.reader == Reader.Hand(f)
    ensures HandleFrame(e, f).reader.Stopped? <==>
      || (f.Data? && |f.bytes| > e.window + 16_384)
      || (f.Fds? && e.live + |f.payload| / 5 > 8)
      || (f.Hello? && !e.peerWindowed && HelloVerdict(false, f.payload).Refuse?)
    ensures HandleFrame(e, f).closed <==> e.closed || HandleFrame(e, f).reader.Stopped?
  {
    match f
    case Hello(_) | Control(_, _, _) | Fds(_, _) | Data(_, _) | Close(_) | Window(_, _) | Unknown =>
  }

  /** A pump with nothing left in its queue ends once nothing more can come: its
      stream is no longer in the map and the reader holds no frame for it, or the
      reader has stopped. */
  lemma QueueEnds(e: End, h: Handle)
    requires h in e.sinks && e.sinks[h].phase.Live? && e.sinks[h].inq == [] && e.sinks[h].held.None?
    requires e.sinks[h].pending.None?
    ensures Enabled(e, Drain(h, EndUnrouted)) <==>
      || e.reader.Stopped?
      || ((e.sinks[h].id in e.routes && e.routes[e.sinks[h].id] in e.sinks ==> e.routes[e.sinks[h].id] != h)
          && !(e.reader.Room? && e.reader.h == h) && !(e.reader.Counted? && e.reader.h == h))
  {
  }

  /** A pump reads up to 16 KiB at a time and is charged nine bytes more; the frame
      queue and the owner's each hold 64. */
  lemma QueuesInFigures(e: End, o: Out, n: nat)
    requires o.phase.Ready? && o.taken <= |o.src|
    ensures PumpCan(o, PumpStep.Read(n)) <==> 1 <= n <= 16_384 && n <= |o.src| - o.taken
    ensures PumpCan(o, PumpStep.Read(n)) ==> PumpNext(o, PumpStep.Read(n)).available == o.available - 9 - n
    ensures HasQueueRoom(e) <==> |e.queue| < 64
    ensures e.reader.Surfacing? ==> (Enabled(e, Reads(Surface)) <==> |e.ctrl| < 64)
  {
  }

  /** Windows and grants: the widest window, a grant that would pass an `i64`, a debt
      that would pass a `u32`, and the stream that is one too many to owe. */
  lemma CreditInFigures(window: u32, available: int, bytes: u32, owed: map<u32, u32>, id: u32)
    ensures ClampWindow(window) == if window <= 4_294_950_902 then window else 4_294_950_902
    ensures GrantCredit(available, bytes)
         == if available + bytes <= 9_223_372_036_854_775_807 then available + bytes else 9_223_372_036_854_775_807
    ensures id in owed ==>
      OweCredit(owed, id, bytes) == owed[id := if owed[id] + bytes <= 4_294_967_295 then owed[id] + bytes
        else 4_294_967_295]
    ensures id !in owed ==> OweCredit(owed, id, bytes) == if |owed| < 64 then owed[id := bytes] else owed
    ensures AbandonGrant(bytes) == bytes
    ensures forall more: nat :: more > 4_294_967_295 ==> AbandonGrant(more) == 4_294_967_295
    ensures MaySend(true, available) <==> available > 0
    ensures MaySend(false, available)
  {
  }

  // ---- what the machine leaves to others ---------------------------------------------------

  /** The world is never refused: whoever holds a descriptor may write into it until
      it is closed, and close it; a pump may be woken for nothing; the transport may
      be dropped at any time and its channel may go away wherever the reader waits;
      and a reader that waits for a frame takes any that fits the wire. */
  lemma WorldIsFree(e: End, h: Handle, bytes: Bytes, f: Frame)
    ensures Enabled(e, App(CloseFlow))
    ensures h in e.outs && !e.outs[h].eof ==> Enabled(e, Pump(h, Offer(bytes))) && Enabled(e, Pump(h, OfferEof))
    ensures h in e.outs && e.outs[h].phase.Ready? ==> Enabled(e, Pump(h, Retry))
    ensures h in e.sinks && e.sinks[h].phase.Live? && e.sinks[h].pending.None? ==> Enabled(e, Drain(h, AbandonClose))
    ensures e.reader.Idle? || e.reader.Room? || e.reader.Surfacing? ==> Enabled(e, Reads(Shutdown))
    ensures e.reader.Idle? && (f.Data? ==> |f.bytes| <= 16_777_224) ==> Enabled(e, Reads(Receive(f)))
    ensures e.reader.Materializing? && e.reader.rest != [] ==> Enabled(e, Reads(MaterializeFails))
  {
  }

  /** An owner may ask for a message at any time, in a task of its own, and for
      descriptors once the pumps of the last ones have been started; it then waits for
      exactly the streams that read a socket of the mux and are registered. */
  lemma OwnerMayAsk(e: End, task: nat, what: Outgoing, todo: seq<Handle>)
    requires task !in e.tasks && (if task == 0 then e.starting == [] else what.Plain?)
    ensures Enabled(e, App(BeginSend(task, what, todo))) <==>
      forall h :: h in todo <==> h in e.outs && e.outs[h].socket
                                 && e.outs[h].id in e.progress && e.progress[e.outs[h].id] == h
  {
    var asked := set h | h in todo;
    assert forall h :: h in SocketStreams(e) <==> h in e.outs && IsRegistered(e, h) && e.outs[h].socket;
    if forall h :: h in todo <==> h in e.outs && e.outs[h].socket && IsRegistered(e, h) {
      assert asked == SocketStreams(e);
    } else {
      var h :| (h in todo) != (h in e.outs && e.outs[h].socket && IsRegistered(e, h));
      assert (h in asked) != (h in SocketStreams(e));
    }
  }

  /** A sender goes on exactly while the flow is open and it may send, and ends when
      it finds the flow closed. */
  lemma ReadyInFigures(e: End, h: Handle)
    requires h in e.outs && e.outs[h].phase.Waiting?
    ensures Enabled(e, Pump(h, Admit)) <==> !e.closed && (!e.peerWindowed || e.outs[h].available > 0)
    ensures Enabled(e, Pump(h, Quit)) <==> e.closed
  {
  }

  /** Any message of up to 16 MiB may be sent, and any three descriptors. */
  lemma Asking(what: Outgoing)
    ensures Askable(what) <==> match what
                               case Plain(m) => |m.payload| <= 16_777_216
                               case Delegate(d) => |d| <= 3_355_444
  {
  }

  /** A session may begin with any windows from one byte up to the widest, over any
      channel, with either side first. */
  lemma AnyStart(dialer: bool, wa: u32, wb: u32, cap: nat, orderly: bool)
    requires 1 <= wa <= 4_294_950_902 && 1 <= wb <= 4_294_950_902 && cap >= 1
    ensures Reachable(Start(dialer, wa, wb, cap, orderly))
  {
    var s := Start(dialer, wa, wb, cap, orderly);
    var r := Run([s], []);
    assert IsRun(r) && IsStart(r.states[0]) && r.states[|r.labels|] == s;
  }

  /** Two joined ends leave the world as free as one: a holder may use its descriptor
      at any time, or, under the session rule, once it may be used. */
  lemma HoldersAreFree(s: Sys, h: Handle, bytes: Bytes)
    requires h in s.a.outs && !s.a.outs[h].eof
    requires s.orderly && s.a.outs[h].socket ==> s.a.outs[h].id in s.a.usable
    ensures EnabledA(s, Pump(h, Offer(bytes))) && EnabledA(s, Pump(h, OfferEof))
  {
  }
}
