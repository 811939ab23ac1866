/** The local transport (crates/capsudo-transport/src/unix.rs): messages over a
    stream socket whose reads and writes may be short, with descriptors that ride
    on the first byte of the write that carried them. */
module UnixSockets {
  import opened ByteStrings
  import opened Proto
  import opened Handshake

  const MAX_SCM_FDS: nat := 3

  const WORD_SIZE: nat := 8
  const FD_SIZE: nat := 4

  /** The room of a control message is a whole number of machine words. */
  function Aligned(size: nat): nat {
    (size + WORD_SIZE - 1) / WORD_SIZE * WORD_SIZE
  }

  /** How many descriptors one `recvmsg` has room for: the space asked for is rounded
      up, and the kernel fills all of it, so where a word is 8 bytes it is one more
      than MAX_SCM_FDS. */
  const FD_ROOM: nat := Aligned(MAX_SCM_FDS * FD_SIZE) / FD_SIZE


  /** A byte in the socket, with the descriptors attached to it. */
  datatype Cell = Cell(b: byte, fds: seq<Fd>)

  function Plain(bytes: Bytes): (cells: seq<Cell>)
    ensures |cells| == |bytes|
  {
    if bytes == [] then [] else [Cell(bytes[0], [])] + Plain(bytes[1..])
  }

  function BytesOf(cells: seq<Cell>): (bytes: Bytes)
    ensures |bytes| == |cells|
  {
    if cells == [] then [] else [cells[0].b] + BytesOf(cells[1..])
  }

  function FdsOf(cells: seq<Cell>): seq<Fd> {
    if cells == [] then [] else cells[0].fds + FdsOf(cells[1..])
  }

  /** One `recvmsg` has room for FD_ROOM descriptors, and takes in at most one
      attachment. */
  predicate Receivable(cells: seq<Cell>) {
    cells == [] || (|cells[0].fds| <= FD_ROOM && Receivable(cells[1..]))
  }

  function Attachments(cells: seq<Cell>): nat {
    if cells == [] then 0 else (if cells[0].fds != [] then 1 else 0) + Attachments(cells[1..])
  }

  /** A message as `send` leaves it in the socket. */
  function OnTheWire(r: Received): (cells: seq<Cell>)
    ensures |cells| == HEADER_SIZE + |r.message.payload|
  {
    var bytes := r.message.Encode();
    [Cell(bytes[0], r.fds)] + Plain(bytes[1..])
  }

  lemma {:induction false} CellsJoin(a: seq<Cell>, b: seq<Cell>)
    ensures BytesOf(a + b) == BytesOf(a) + BytesOf(b) && FdsOf(a + b) == FdsOf(a) + FdsOf(b)
    ensures Receivable(a + b) <==> Receivable(a) && Receivable(b)
    ensures Attachments(a + b) == Attachments(a) + Attachments(b)
  {
    if a == [] {
      assert a + b == b;
    } else {
      assert (a + b)[0] == a[0] && (a + b)[1..] == a[1..] + b;
      CellsJoin(a[1..], b);
      assert a[0].fds + (FdsOf(a[1..]) + FdsOf(b)) == a[0].fds + FdsOf(a[1..]) + FdsOf(b);
      assert [a[0].b] + (BytesOf(a[1..]) + BytesOf(b)) == [a[0].b] + BytesOf(a[1..]) + BytesOf(b);
    }
  }

  lemma {:induction false} PlainJoin(a: Bytes, b: Bytes)
    ensures Plain(a + b) == Plain(a) + Plain(b)
  {
    if a == [] {
      assert a + b == b;
    } else {
      assert (a + b)[0] == a[0] && (a + b)[1..] == a[1..] + b;
      PlainJoin(a[1..], b);
    }
  }

  lemma {:induction false} PlainMeans(bytes: Bytes)
    ensures BytesOf(Plain(bytes)) == bytes && FdsOf(Plain(bytes)) == [] && Receivable(Plain(bytes))
  {
    if bytes != [] {
      PlainMeans(bytes[1..]);
      assert Plain(bytes)[1..] == Plain(bytes[1..]);
    }
  }

  // ---- sending -----------------------------------------------------------------------------

  class Socket {
    var cells: seq<Cell>

    constructor (cells: seq<Cell>)
      ensures this.cells == cells
    {
      this.cells := cells;
    }

    /** `sendmsg` or `write`: takes at least one byte, and attaches the descriptors
        to the first. */
    method Write(bytes: Bytes, fds: seq<Fd>) returns (n: nat)
      requires bytes != []
      modifies this
      ensures 0 < n <= |bytes|
      ensures cells == old(cells) + [Cell(bytes[0], fds)] + Plain(bytes[1..n])
    {
      n :| 0 < n <= |bytes|;
      cells := cells + [Cell(bytes[0], fds)] + Plain(bytes[1..n]);
    }

    /** Whatever the sizes of the writes, the message ends up whole in the socket,
        its descriptors on its first byte. */
    method Send(r: Received)
      modifies this
      ensures cells == old(cells) + OnTheWire(r)
    {
      var buf := r.message.Encode();
      var offset := 0;
      if r.fds != [] {
        offset := Write(buf, r.fds);
      }
      ghost var first := old(cells) + [Cell(buf[0], r.fds)];
      while offset < |buf|
        invariant offset <= |buf|
        invariant if offset == 0 then cells == old(cells) && r.fds == [] else cells == first + Plain(buf[1..offset])
      {
        ghost var before, start := cells, offset;
        var n := Write(buf[offset..], []);
        WroteMore(old(cells), buf, start, n, before, cells, r.fds);
        offset := offset + n;
      }
      assert buf[1..offset] == buf[1..];
    }

    /** One read: nothing only at the end, and never a second attachment. */
    method Read(max: nat) returns (got: seq<Cell>)
      requires max > 0
      modifies this
      ensures got + cells == old(cells) && |got| <= max && Attachments(got) <= 1
      ensures got == [] <==> old(cells) == []
    {
      var n: nat := 0;
      if cells != [] {
        OneAttachment(cells[0]);
        assert cells[..1] == [cells[0]];
        n :| 1 <= n <= max && n <= |cells| && Attachments(cells[..n]) <= 1;
      }
      got := cells[..n];
      cells := cells[n..];
    }

    /** `recv_header`: whatever the sizes of the reads, all of the header and none
        of what follows it, with the descriptors that came on it. */
    method RecvHeader() returns (r: HeaderResult)
      modifies this
      ensures r == ReadHeader(old(cells))
      ensures r.GotHeader? ==> cells == old(cells)[HEADER_SIZE..]
    {
      ghost var all := cells;
      var header: Bytes, owned: seq<Fd> := [], [];
      ghost var seen: seq<Cell> := [];
      while |header| < HEADER_SIZE
        invariant |header| <= HEADER_SIZE && all == seen + cells
        invariant header == BytesOf(seen) && owned == FdsOf(seen) && Receivable(seen)
      {
        var got := Read(HEADER_SIZE - |header|);
        if got == [] {
          assert all == seen && all[..|all|] == seen;
          return if header == [] then CleanEof else HeaderFails(UnexpectedEof);
        }
        BatchFits(got);
        CellsJoin(seen, got);
        StillAll(all, seen, got, cells);
        if |FdsOf(got)| > FD_ROOM {
          NotReceivable(seen + got, all);
          return HeaderFails(TooManyFds);
        }
        header, owned, seen := header + BytesOf(got), owned + FdsOf(got), seen + got;
      }
      assert all[..HEADER_SIZE] == seen && all[HEADER_SIZE..] == cells;
      var h := Header.Decode(header);
      r := match h case Ok(decoded) => GotHeader(decoded, owned) case Err(e) => HeaderFails(BadHeader(e));
    }

    /** `read_exact` over the payload. Descriptors that come on it are dropped. */
    method RecvPayload(len: nat) returns (ok: bool, bytes: Bytes)
      modifies this
      ensures ok <==> |old(cells)| >= len
      ensures ok ==> bytes == BytesOf(old(cells)[..len]) && cells == old(cells)[len..]
    {
      bytes := [];
      ghost var seen: seq<Cell> := [];
      while |bytes| < len
        invariant |bytes| <= len && old(cells) == seen + cells && bytes == BytesOf(seen)
      {
        var got := Read(len - |bytes|);
        if got == [] { return false, bytes; }
        CellsJoin(seen, got);
        assert old(cells) == seen + got + cells;
        bytes, seen := bytes + BytesOf(got), seen + got;
      }
      assert old(cells)[..len] == seen;
      ok := true;
    }

    method Recv() returns (r: RecvResult)
      modifies this
      ensures r == ReadMessage(old(cells))
      ensures r.Got? ==> cells == r.rest
    {
      var header := RecvHeader();
      if header.CleanEof? { return EndOfSession; }
      if header.HeaderFails? { return Fails(header.error); }
      ghost var after := cells;
      var ok, payload := RecvPayload(header.header.len);
      if !ok { return Fails(UnexpectedEof); }
      r := Got(Received(Message(header.header.fieldType, payload), header.fds), cells);
    }
  }

  // ---- receiving ---------------------------------------------------------------------------

  datatype RecvError = UnexpectedEof | TooManyFds | BadHeader(error: ProtoError)
  datatype HeaderResult = CleanEof | HeaderFails(error: RecvError) | GotHeader(header: Header, fds: seq<Fd>)
  datatype RecvResult = EndOfSession | Fails(error: RecvError) | Got(received: Received, rest: seq<Cell>)

  function ReadHeader(cells: seq<Cell>): HeaderResult {
    if !Receivable(if |cells| < HEADER_SIZE then cells else cells[..HEADER_SIZE]) then HeaderFails(TooManyFds)
    else if cells == [] then CleanEof
    else if |cells| < HEADER_SIZE then HeaderFails(UnexpectedEof)
    else match Header.Decode(BytesOf(cells[..HEADER_SIZE]))
      case Err(e) => HeaderFails(BadHeader(e))
      case Ok(h) => GotHeader(h, FdsOf(cells[..HEADER_SIZE]))
  }

  function ReadMessage(cells: seq<Cell>): (r: RecvResult)
    ensures r.Got? ==> |r.rest| < |cells|
  {
    match ReadHeader(cells)
    case CleanEof => EndOfSession
    case HeaderFails(e) => Fails(e)
    case GotHeader(h, fds) =>
      var rest := cells[HEADER_SIZE..];
      if |rest| < h.len then Fails(UnexpectedEof)
      else Got(Received(Message(h.fieldType, BytesOf(rest[..h.len])), fds), rest[h.len..])
  }

  lemma OneAttachment(c: Cell)
    ensures Attachments([c]) <= 1
  {
    assert [c][1..] == [];
  }

  lemma {:induction false} NothingAttached(cells: seq<Cell>)
    requires Attachments(cells) == 0
    ensures FdsOf(cells) == [] && Receivable(cells)
  {
    if cells != [] { NothingAttached(cells[1..]); }
  }

  /** A batch with one attachment can be received exactly when the attachment fits. */
  lemma {:induction false} BatchFits(got: seq<Cell>)
    requires Attachments(got) <= 1
    ensures Receivable(got) <==> |FdsOf(got)| <= FD_ROOM
  {
    if got != [] {
      if got[0].fds != [] { NothingAttached(got[1..]); } else { BatchFits(got[1..]); }
    }
  }

  lemma StillAll(all: seq<Cell>, seen: seq<Cell>, got: seq<Cell>, cells: seq<Cell>)
    requires all == seen + (got + cells)
    ensures all == seen + got + cells && seen + got <= all
  {
  }

  lemma NotReceivable(part: seq<Cell>, all: seq<Cell>)
    requires !Receivable(part) && part <= all && |part| <= HEADER_SIZE
    ensures !Receivable(if |all| < HEADER_SIZE then all else all[..HEADER_SIZE])
  {
    var window := if |all| < HEADER_SIZE then all else all[..HEADER_SIZE];
    assert window == part + window[|part|..];
    CellsJoin(part, window[|part|..]);
  }

  lemma {:induction false} WroteMore(start: seq<Cell>, buf: Bytes, offset: nat, n: nat, before: seq<Cell>,
          after: seq<Cell>, fds: seq<Fd>)
    requires 0 < n && offset + n <= |buf| && buf != []
    requires if offset == 0 then before == start && fds == []
      else before == start + [Cell(buf[0], fds)] + Plain(buf[1..offset])
    requires after == before + [Cell(buf[offset..][0], [])] + Plain(buf[offset..][1..n])
    ensures after == start + [Cell(buf[0], fds)] + Plain(buf[1..offset + n])
  {
    var rest := buf[offset..offset + n];
    assert buf[offset..][1..n] == rest[1..];
    assert [Cell(rest[0], [])] + Plain(rest[1..]) == Plain(rest);
    if offset > 0 {
      assert buf[1..offset + n] == buf[1..offset] + rest;
      PlainJoin(buf[1..offset], rest);
    } else {
      assert buf[1..n] == rest[1..];
    }
  }

  // ---- both ends ---------------------------------------------------------------------------

  predicate Sendable(r: Received) {
    |r.message.payload| <= MAX_PAYLOAD && |r.fds| <= FD_ROOM
  }

  function AllOnTheWire(rs: seq<Received>): seq<Cell> {
    if rs == [] then [] else OnTheWire(rs[0]) + AllOnTheWire(rs[1..])
  }

  /** Every message received until the session ends, and whether it ends cleanly. */
  function ReadAll(cells: seq<Cell>): (seq<Received>, bool)
    decreases |cells|
  {
    match ReadMessage(cells)
    case EndOfSession => ([], true)
    case Fails(_) => ([], false)
    case Got(r, rest) =>
      var (more, clean) := ReadAll(rest);
      ([r] + more, clean)
  }

  lemma {:induction false} WireMeans(r: Received)
    ensures var wire := OnTheWire(r);
            && BytesOf(wire) == r.message.Encode() && FdsOf(wire) == r.fds
            && BytesOf(wire[..HEADER_SIZE]) == r.message.HeaderOf().Encode() && FdsOf(wire[..HEADER_SIZE]) == r.fds
            && BytesOf(wire[HEADER_SIZE..]) == r.message.payload
            && (Receivable(wire[..HEADER_SIZE]) <==> |r.fds| <= FD_ROOM)
  {
    var wire, bytes := OnTheWire(r), r.message.Encode();
    var first := [Cell(bytes[0], r.fds)];
    var head, payload := bytes[1..HEADER_SIZE], bytes[HEADER_SIZE..];
    assert bytes[1..] == head + payload;
    PlainJoin(head, payload);
    PlainMeans(head);
    PlainMeans(payload);
    assert wire[..HEADER_SIZE] == first + Plain(head) && wire[HEADER_SIZE..] == Plain(payload);
    assert first[1..] == [];
    CellsJoin(first, Plain(head));
    CellsJoin(wire[..HEADER_SIZE], wire[HEADER_SIZE..]);
    assert wire == wire[..HEADER_SIZE] + wire[HEADER_SIZE..];
    assert bytes[..HEADER_SIZE] == [bytes[0]] + head;
    assert bytes == bytes[..HEADER_SIZE] + payload;
  }

  lemma {:induction false} HeaderArrives(r: Received, rest: seq<Cell>)
    ensures ReadHeader(OnTheWire(r) + rest)
         == if |r.fds| > FD_ROOM then HeaderFails(TooManyFds)
            else if r.message.HeaderOf().len > MAX_PAYLOAD
              then HeaderFails(BadHeader(PayloadTooLarge(r.message.HeaderOf().len)))
            else GotHeader(r.message.HeaderOf(), r.fds)
  {
    var cells := OnTheWire(r) + rest;
    WireMeans(r);
    assert cells[..HEADER_SIZE] == OnTheWire(r)[..HEADER_SIZE];
    HeaderRoundTrip(r.message.HeaderOf());
  }

  /** One message is received as it was sent, with exactly its own descriptors and
      nothing of what follows, exactly when it is within the protocol's limits. */
  lemma {:induction false} MessageArrives(r: Received, rest: seq<Cell>)
    ensures ReadMessage(OnTheWire(r) + rest) == Got(r, rest) <==> Sendable(r)
  {
    HeaderArrives(r, rest);
    if |r.fds| <= FD_ROOM && r.message.HeaderOf().len <= MAX_PAYLOAD { PayloadArrives(r, rest); }
  }

  lemma {:induction false} PayloadArrives(r: Received, rest: seq<Cell>)
    requires |r.fds| <= FD_ROOM && r.message.HeaderOf().len <= MAX_PAYLOAD
    ensures ReadMessage(OnTheWire(r) + rest) == Got(r, rest) <==> Sendable(r)
  {
    HeaderArrives(r, rest);
    WireMeans(r);
    var wire := OnTheWire(r);
    AfterHeader(wire, rest, HEADER_SIZE, |r.message.payload|);
    assert r.message.HeaderOf().len == |r.message.payload| ==> Sendable(r);
  }

  lemma AfterHeader(wire: seq<Cell>, rest: seq<Cell>, header: nat, len: nat)
    requires |wire| == header + len
    ensures (wire + rest)[header..] == wire[header..] + rest && |(wire + rest)[header..]| >= len
    ensures (wire + rest)[header..][..len] == wire[header..] && (wire + rest)[header..][len..] == rest
  {
  }

  /** Any run of messages arrives as it was sent, and the session then ends cleanly,
      exactly when every message is within the limits. */
  lemma {:induction false} SessionArrives(rs: seq<Received>)
    ensures ReadAll(AllOnTheWire(rs)) == (rs, true) <==> forall r :: r in rs ==> Sendable(r)
  {
    if rs != [] {
      MessageArrives(rs[0], AllOnTheWire(rs[1..]));
      SessionArrives(rs[1..]);
      assert rs == [rs[0]] + rs[1..];
      if ReadAll(AllOnTheWire(rs)) == (rs, true) { FirstArrived(rs); }
    }
  }

  lemma {:induction false} FirstArrived(rs: seq<Received>)
    requires rs != [] && ReadAll(AllOnTheWire(rs)) == (rs, true)
    ensures Sendable(rs[0])
  {
    HeaderArrives(rs[0], AllOnTheWire(rs[1..]));
    assert ReadMessage(AllOnTheWire(rs)).received == rs[0];
  }

  /** What was read is a first part of what was sent, all of it before the cut, and
      the end is clean exactly if nothing of another message came before the cut. */
  predicate CutWell(read: (seq<Received>, bool), rs: seq<Received>, cut: nat) {
    read.0 <= rs && |AllOnTheWire(read.0)| <= cut && (read.1 <==> |AllOnTheWire(read.0)| == cut)
  }

  /** A socket cut off anywhere yields the messages before the cut, and a clean end
      only when the cut falls between two messages. */
  lemma {:induction false} CutSession(rs: seq<Received>, cut: nat)
    requires cut <= |AllOnTheWire(rs)|
    requires forall r :: r in rs ==> Sendable(r)
    ensures CutWell(ReadAll(AllOnTheWire(rs)[..cut]), rs, cut)
  {
    if rs == [] {
      NothingToRead();
      NothingRead(rs, cut);
      assert AllOnTheWire(rs)[..cut] == [];
    } else {
      var wire, rest := OnTheWire(rs[0]), AllOnTheWire(rs[1..]);
      CutEither(wire, rest, cut);
      if cut >= |wire| {
        CutSession(rs[1..], cut - |wire|);
        CutLater(rs, rest[..cut - |wire|], cut - |wire|);
      } else {
        CutMessage(rs[0], cut);
        NothingRead(rs, cut);
      }
    }
  }

  lemma {:induction false} NothingRead(rs: seq<Received>, cut: nat)
    ensures CutWell(([], cut == 0), rs, cut)
  {
  }

  lemma {:induction false} NothingToRead()
    ensures ReadAll([]) == ([], true) && AllOnTheWire([]) == []
  {
  }

  lemma CutEither(wire: seq<Cell>, rest: seq<Cell>, cut: nat)
    requires cut <= |wire + rest|
    ensures (wire + rest)[..cut] == if cut < |wire| then wire[..cut] else wire + rest[..cut - |wire|]
  {
  }

  lemma {:induction false} CutLater(rs: seq<Received>, left: seq<Cell>, cut: nat)
    requires rs != [] && Sendable(rs[0])
    requires CutWell(ReadAll(left), rs[1..], cut)
    ensures CutWell(ReadAll(OnTheWire(rs[0]) + left), rs, cut + |OnTheWire(rs[0])|)
  {
    FirstIsRead(rs[0], left);
    OneMore(rs[0], ReadAll(left).0, rs);
  }

  lemma {:induction false} FirstIsRead(r: Received, rest: seq<Cell>)
    requires Sendable(r)
    ensures ReadAll(OnTheWire(r) + rest) == ([r] + ReadAll(rest).0, ReadAll(rest).1)
  {
    MessageArrives(r, rest);
  }

  lemma {:induction false} OneMore(r: Received, more: seq<Received>, rs: seq<Received>)
    requires rs != [] && rs[0] == r && more <= rs[1..]
    ensures [r] + more <= rs && |AllOnTheWire([r] + more)| == |OnTheWire(r)| + |AllOnTheWire(more)|
  {
    assert ([r] + more)[1..] == more;
    assert rs == [r] + rs[1..];
  }

  lemma {:induction false} CutMessage(r: Received, cut: nat)
    requires Sendable(r) && cut < |OnTheWire(r)|
    ensures ReadAll(OnTheWire(r)[..cut]) == ([], cut == 0)
  {
    if cut >= HEADER_SIZE { CutPayload(r, cut); } else { CutHeader(r, cut); }
  }

  lemma {:induction false} CutPayload(r: Received, cut: nat)
    requires Sendable(r) && HEADER_SIZE <= cut < |OnTheWire(r)|
    ensures ReadMessage(OnTheWire(r)[..cut]) == Fails(UnexpectedEof)
  {
    var cells, wire := OnTheWire(r)[..cut], OnTheWire(r);
    WireMeans(r);
    HeaderRoundTrip(r.message.HeaderOf());
    assert cells[..HEADER_SIZE] == wire[..HEADER_SIZE];
  }

  lemma {:induction false} CutHeader(r: Received, cut: nat)
    requires Sendable(r) && cut < HEADER_SIZE
    ensures ReadMessage(OnTheWire(r)[..cut]) == if cut == 0 then EndOfSession else Fails(UnexpectedEof)
  {
    var cells, wire := OnTheWire(r)[..cut], OnTheWire(r);
    WireMeans(r);
    assert wire[..HEADER_SIZE] == cells + wire[cut..HEADER_SIZE];
    CellsJoin(cells, wire[cut..HEADER_SIZE]);
  }

  /** A session's three descriptors arrive with their message, and so would a fourth;
      a fifth does not. */
  lemma ThreeArrive(message: Message, fds: seq<Fd>, rest: seq<Cell>)
    requires |message.payload| <= 16_777_216
    ensures ReadMessage(OnTheWire(Received(message, fds)) + rest) == Got(Received(message, fds), rest) <==> |fds| <= 4
  {
    MessageArrives(Received(message, fds), rest);
  }
}
