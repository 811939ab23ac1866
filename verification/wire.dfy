/** The mux's own wire format (crates/capsudo-transport/src/mux.rs): frames over a
    byte channel, and the payload of an Fds frame. */
module Wire {
  import opened ByteStrings
  import opened Proto
  import opened Credit

  // ---- delegated descriptors --------------------------------------------------

  /** Which way the holder of a descriptor uses it. */
  datatype Dir = Read | Write | ReadWrite {
    predicate Reads() { Read? || ReadWrite? }
    predicate Writes() { Write? || ReadWrite? }
    function Invert(): (d: Dir)
      ensures d.Reads() == Writes() && d.Writes() == Reads()
    {
      match this
      case Read => Write
      case Write => Read
      case ReadWrite => ReadWrite
    }
  }

  datatype Spec = Spec(id: u32, dir: Dir)

  function DirCode(d: Dir): byte {
    match d
    case Read => 0
    case Write => 1
    case ReadWrite => 2
  }

  function DirOf(code: byte): Option<Dir> {
    if code == 0 then Some(Read) else if code == 1 then Some(Write) else if code == 2 then Some(ReadWrite) else None
  }

  function EncodeFds(specs: seq<Spec>): Bytes {
    if specs == [] then []
    else Le32(specs[0].id) + [DirCode(specs[0].dir)] + EncodeFds(specs[1..])
  }

  /** Takes five bytes at a time and skips an entry whose direction is undefined,
      so a payload never yields more streams than the live-stream check counts. */
  function DecodeFds(b: Bytes): (specs: seq<Spec>)
    ensures |specs| <= |b| / 5
  {
    if |b| < 5 then []
    else
      var rest := DecodeFds(b[5..]);
      match DirOf(b[4])
      case None => rest
      case Some(dir) => [Spec(De32(b[..4]), dir)] + rest
  }

  lemma {:induction false} FdsRoundTrip(specs: seq<Spec>)
    ensures DecodeFds(EncodeFds(specs)) == specs
    ensures |EncodeFds(specs)| == 5 * |specs|
  {
    if specs != [] {
      var b, rest := EncodeFds(specs), EncodeFds(specs[1..]);
      assert b == Le32(specs[0].id) + [DirCode(specs[0].dir)] + rest;
      assert b[..4] == Le32(specs[0].id) && b[4] == DirCode(specs[0].dir) && b[5..] == rest;
      Le32RoundTrip(specs[0].id);
      FdsRoundTrip(specs[1..]);
    }
  }

  // ---- raw frames -------------------------------------------------------------

  datatype Raw = Raw(kind: byte, id: u32, payload: Bytes)

  /** `write_frame`: the length is a cast to `u32`. */
  function WriteFrame(r: Raw): Bytes {
    [r.kind] + Le32(r.id) + Le32(|r.payload| % 0x1_0000_0000) + r.payload
  }

  /** `read_frame`: a channel that ends inside a header ends cleanly; one that ends
      inside a payload, or announces too large a payload, does not. */
  datatype ReadResult = EndOfChannel | Broken | Got(frame: Raw, rest: Bytes)

  function ReadFrame(input: Bytes): (r: ReadResult)
    ensures r.Got? ==> |r.rest| < |input|
  {
    if |input| < MUX_HEADER then EndOfChannel
    else
      var len: nat := De32(input[5..9]);
      if len > MAX_FRAME_PAYLOAD || |input| < MUX_HEADER + len then Broken
      else Got(Raw(input[0], De32(input[1..5]), input[9..9 + len]), input[9 + len..])
  }

  function WriteAll(frames: seq<Raw>): Bytes {
    if frames == [] then [] else WriteFrame(frames[0]) + WriteAll(frames[1..])
  }

  /** The reader's loop over the whole channel: the frames before it stops, and
      whether it stopped at a clean end. */
  function ReadAll(input: Bytes): (seq<Raw>, bool) {
    match ReadFrame(input)
    case EndOfChannel => ([], true)
    case Broken => ([], false)
    case Got(frame, rest) =>
      var (frames, clean) := ReadAll(rest);
      ([frame] + frames, clean)
  }

  predicate Fits(r: Raw) {
    |r.payload| <= MAX_FRAME_PAYLOAD
  }

  lemma WrittenHeader(r: Raw, rest: Bytes)
    ensures var input := WriteFrame(r) + rest;
            && |input| >= MUX_HEADER && input[0] == r.kind && De32(input[1..5]) == r.id
            && De32(input[5..9]) == |r.payload| % 0x1_0000_0000
            && input[9..] == r.payload + rest
  {
    var len := Le32(|r.payload| % 0x1_0000_0000);
    var input := WriteFrame(r) + rest;
    assert input == [r.kind] + Le32(r.id) + len + r.payload + rest;
    assert input[1..5] == Le32(r.id) && input[5..9] == len;
    assert input[9..] == r.payload + rest;
    Le32RoundTrip(r.id);
    Le32RoundTrip(|r.payload| % 0x1_0000_0000);
  }

  /** One frame is read back, with what follows it left alone, exactly when its
      payload is at most one encoded control message. */
  lemma FrameRoundTrip(r: Raw, rest: Bytes)
    ensures ReadFrame(WriteFrame(r) + rest) == Got(r, rest) <==> Fits(r)
  {
    var input := WriteFrame(r) + rest;
    WrittenHeader(r, rest);
    if Fits(r) {
      var n := |r.payload|;
      assert input[9..9 + n] == input[9..][..n] && input[9 + n..] == input[9..][n..];
    }
  }

  /** Reading a channel on which any list of frames was written gives that list
      and a clean end, exactly when every frame fits. */
  lemma {:induction false} ChannelRoundTrip(frames: seq<Raw>)
    ensures ReadAll(WriteAll(frames)) == (frames, true) <==> forall r :: r in frames ==> Fits(r)
  {
    if frames != [] {
      var first, rest := frames[0], WriteAll(frames[1..]);
      assert WriteAll(frames) == WriteFrame(first) + rest;
      FrameRoundTrip(first, rest);
      ChannelRoundTrip(frames[1..]);
      assert frames == [first] + frames[1..];
      if ReadAll(WriteAll(frames)) == (frames, true) {
        WrittenHeader(first, rest);
        assert Fits(first);
      }
    }
  }

  lemma CutFrame(r: Raw, cut: nat)
    requires Fits(r) && cut < |WriteFrame(r)|
    ensures !ReadFrame(WriteFrame(r)[..cut]).Got?
  {
    var one := WriteFrame(r);
    WrittenHeader(r, []);
    assert one + [] == one;
    if cut >= MUX_HEADER { assert one[..cut][5..9] == one[5..9]; }
  }

  /** A channel cut anywhere yields a prefix of the frames, never a made-up one. */
  lemma {:induction false} CutChannel(frames: seq<Raw>, cut: nat)
    requires cut <= |WriteAll(frames)|
    requires forall r :: r in frames ==> Fits(r)
    ensures ReadAll(WriteAll(frames)[..cut]).0 <= frames
  {
    if frames != [] {
      var first, rest := frames[0], WriteAll(frames[1..]);
      var one := WriteFrame(first);
      var input := WriteAll(frames)[..cut];
      assert WriteAll(frames) == one + rest;
      if cut < |one| {
        assert input == one[..cut];
        CutFrame(first, cut);
      } else {
        assert input == one + rest[..cut - |one|];
        FrameRoundTrip(first, rest[..cut - |one|]);
        CutChannel(frames[1..], cut - |one|);
        assert frames == [first] + frames[1..];
      }
    }
  }

  // ---- frames with meaning ----------------------------------------------------

  /** What the two ends exchange. `after` is not on the wire: it records, for the
      proofs about order, how much of each stream the sender's barrier waited for
      (by stream), and `main` whether the transport's owner sent the message, as
      opposed to a detached control sender. */
  datatype Frame =
    | Hello(payload: Bytes)
    | Control(msg: Message, after: map<nat, nat>, main: bool)
    | Fds(payload: Bytes, after: map<nat, nat>)
    | Data(id: u32, bytes: Bytes)
    | Close(id: u32)
    | Window(id: u32, amount: u32)
    | Unknown

  function ToRaw(f: Frame): Raw
    requires !f.Unknown?
  {
    match f
    case Control(msg, _, _) => Raw(1, 0, msg.Encode())
    case Fds(payload, _) => Raw(2, 0, payload)
    case Data(id, bytes) => Raw(3, id, bytes)
    case Close(id) => Raw(4, id, [])
    case Hello(payload) => Raw(5, 0, payload)
    case Window(id, amount) => Raw(6, id, Le32(amount))
  }

  /** How the reader understands a raw frame; what it does not know it ignores. */
  function FromRaw(r: Raw): Frame {
    if r.kind == 1 then
      match DecodeMessage(r.payload) { case Some(msg) => Control(msg, map[], false) case None => Unknown }
    else if r.kind == 2 then Fds(r.payload, map[])
    else if r.kind == 3 then Data(r.id, r.payload)
    else if r.kind == 4 then Close(r.id)
    else if r.kind == 5 then Hello(r.payload)
    else if r.kind == 6 && |r.payload| == 4 then Window(r.id, De32(r.payload))
    else Unknown
  }

  function Bare(f: Frame): Frame {
    match f
    case Control(msg, _, _) => Control(msg, map[], false)
    case Fds(payload, _) => Fds(payload, map[])
    case _ => f
  }

  /** The frames this end may write: nothing the other end's reader would refuse. */
  predicate Sendable(f: Frame) {
    match f
    case Control(msg, _, _) => |msg.payload| <= MAX_PAYLOAD
    case Unknown => false
    case _ => |ToRaw(f).payload| <= MAX_FRAME_PAYLOAD
  }

  lemma FrameMeaning(f: Frame)
    requires Sendable(f)
    ensures Fits(ToRaw(f)) && FromRaw(ToRaw(f)) == Bare(f)
  {
    match f
    case Control(msg, _, _) => MessageRoundTrip(msg);
    case Window(_, amount) => Le32RoundTrip(amount);
    case _ =>
  }

  function ToRaws(fs: seq<Frame>): seq<Raw>
    requires forall f :: f in fs ==> Sendable(f)
  {
    if fs == [] then []
    else
      assert Sendable(fs[0]);
      [ToRaw(fs[0])] + ToRaws(fs[1..])
  }

  function Meanings(rs: seq<Raw>): seq<Frame> {
    if rs == [] then [] else [FromRaw(rs[0])] + Meanings(rs[1..])
  }

  function Bares(fs: seq<Frame>): seq<Frame> {
    if fs == [] then [] else [Bare(fs[0])] + Bares(fs[1..])
  }

  /** The byte channel between the ends is a FIFO of frames: whatever sequence one
      end writes, the other end reads, understood the same way. This is what lets
      system.dfy carry frames instead of bytes. */
  lemma {:induction false} ChannelCarriesFrames(fs: seq<Frame>)
    requires forall f :: f in fs ==> Sendable(f)
    ensures var (raws, clean) := ReadAll(WriteAll(ToRaws(fs)));
            clean && Meanings(raws) == Bares(fs)
  {
    RawsFit(fs);
    ChannelRoundTrip(ToRaws(fs));
  }

  lemma {:induction false} RawsFit(fs: seq<Frame>)
    requires forall f :: f in fs ==> Sendable(f)
    ensures forall r :: r in ToRaws(fs) ==> Fits(r)
    ensures Meanings(ToRaws(fs)) == Bares(fs)
  {
    if fs != [] {
      FrameMeaning(fs[0]);
      RawsFit(fs[1..]);
      assert ToRaws(fs)[1..] == ToRaws(fs[1..]);
    }
  }

  // ---- the loops --------------------------------------------------------------

  /** A byte channel whose reads return however many bytes happen to be there. */
  class ByteSource {
    var input: Bytes

    constructor (bytes: Bytes)
      ensures input == bytes
    {
      input := bytes;
    }

    /** One read: nothing only at the end of the channel. */
    method Read(max: nat) returns (chunk: Bytes)
      requires max > 0
      modifies this
      ensures |chunk| <= max && old(input) == chunk + input
      ensures chunk == [] <==> old(input) == []
    {
      var n: nat := 0;
      if input != [] {
        n :| 1 <= n <= max && n <= |input|;
      }
      chunk := input[..n];
      input := input[n..];
    }

    /** `read_exact`: all of it, or the end of the channel. */
    method ReadExact(len: nat) returns (ok: bool, bytes: Bytes)
      modifies this
      ensures ok <==> |old(input)| >= len
      ensures ok ==> bytes == old(input)[..len] && input == old(input)[len..]
      ensures !ok ==> input == []
    {
      bytes := [];
      while |bytes| < len
        invariant |bytes| <= len && old(input) == bytes + input
      {
        var chunk := Read(len - |bytes|);
        if chunk == [] {
          return false, bytes;
        }
        bytes := bytes + chunk;
      }
      ok := true;
    }

    /** `read_frame`, whatever the sizes of the reads under it. */
    method NextFrame() returns (r: ReadResult)
      modifies this
      ensures r == ReadFrame(old(input))
      ensures r.Got? ==> input == r.rest
    {
      ghost var all := input;
      var ok, header := ReadExact(MUX_HEADER);
      if !ok {
        return EndOfChannel;
      }
      assert header[1..5] == all[1..5] && header[5..9] == all[5..9];
      var len: nat := De32(header[5..9]);
      if len > MAX_FRAME_PAYLOAD {
        return Broken;
      }
      var payload;
      ok, payload := ReadExact(len);
      if !ok {
        return Broken;
      }
      assert payload == all[9..9 + len] && input == all[9 + len..];
      r := Got(Raw(header[0], De32(header[1..5]), payload), input);
    }

    /** The reader's loop: however the channel splits its reads, it sees the frames
        of ReadAll in order. */
    method Drain() returns (frames: seq<Raw>, clean: bool)
      modifies this
      ensures frames == ReadAll(old(input)).0 && clean == ReadAll(old(input)).1
    {
      frames := [];
      while true
        invariant ReadAll(old(input)).0 == frames + ReadAll(input).0
        invariant ReadAll(old(input)).1 == ReadAll(input).1
        decreases |input|
      {
        ghost var before := input;
        var r := NextFrame();
        assert ReadFrame(before) == r;
        assert !r.Got? ==> ReadAll(before).0 == [] && ReadAll(before).1 == r.EndOfChannel?;
        match r {
          case EndOfChannel => return frames, true;
          case Broken => return frames, false;
          case Got(frame, _) => frames := frames + [frame];
        }
      }
    }
  }
}
