/** How delegated descriptors are handed over: which ids name them, and when each
    end has opened its side. The statements are about one allocator, the first end
    of the session; swapping the session gives the other. */
module Handoff {
  import opened ByteStrings
  import opened Proto
  import opened Credit
  import opened Wire
  import opened Endpoint
  import opened EndpointLaws
  import opened Session

  // ---- ids -----------------------------------------------------------------------------

  predicate Own(dialer: bool, x: nat) {
    x % 2 == if dialer then 0 else 1
  }

  /** A side's first 2^31 ids are the numbers of its own parity in order: they are
      pairwise distinct and never meet the other side's. The next one wraps around
      to the first. */
  lemma IdsAreDistinct(dialer: bool, n: nat, m: nat)
    ensures n < IDS && m < IDS && IdOf(dialer, n) == IdOf(dialer, m) ==> n == m
    ensures IdOf(dialer, n) != IdOf(!dialer, m)
    ensures n < IDS ==> IdOf(dialer, n) / 2 == n
    ensures IdOf(dialer, n + IDS) == IdOf(dialer, n)
  {
    ParityOf(dialer, n);
    ParityOf(!dialer, m);
    assert (2 * (n + IDS) + if dialer then 0 else 1) == 2 * n + (if dialer then 0 else 1) + 0x1_0000_0000;
  }

  lemma ParityOf(dialer: bool, n: nat)
    ensures Own(dialer, IdOf(dialer, n))
  {
    var k := (2 * n + if dialer then 0 else 1) / 0x1_0000_0000;
    assert IdOf(dialer, n) == 2 * (n - k * 0x8000_0000) + if dialer then 0 else 1;
  }

  // ---- what is on the way ----------------------------------------------------------------

  /** How many descriptors a frame names, and a row of frames. */
  function Named(f: Frame): nat {
    if f.Fds? then |DecodeFds(f.payload)| else 0
  }

  function NamedIn(fs: seq<Frame>): nat {
    if fs == [] then 0 else Named(fs[0]) + NamedIn(fs[1..])
  }

  /** A frame in its place: `next` descriptors have been named before it, and the
      pumps of the first `started` streams have been started. It names the next
      streams in turn; it carries data only of a stream that was named before it
      and is read by its sender; and a message of the owner comes only once all
      pumps of the streams named before it have been started. */
  predicate FrameFits(f: Frame, dialer: bool, planned: seq<Dir>, next: nat, started: nat) {
    match f
    case Fds(payload, _) =>
      next + Named(f) <= |planned| && DecodeFds(payload) == Plan(dialer, next, planned[next..next + Named(f)])
    case Data(id, _) => Own(dialer, id) ==> id / 2 < next <= |planned| && planned[id / 2].Reads()
    case Close(id) => Own(dialer, id) ==> id / 2 < next <= |planned| && planned[id / 2].Reads()
    case Control(_, _, main) => main ==> next <= started
    case _ => true
  }

  predicate LineFits(fs: seq<Frame>, dialer: bool, planned: seq<Dir>, next: nat, started: nat) {
    fs == []
    || (FrameFits(fs[0], dialer, planned, next, started)
        && LineFits(fs[1..], dialer, planned, next + Named(fs[0]), started))
  }

  /** Data that comes back: only of a stream the peer reads and, if descriptors are
      used in order, whose sink is open. */
  predicate ReplyFits(f: Frame, dialer: bool, planned: seq<Dir>, started: nat, orderly: bool) {
    f.Data? || f.Close? ==>
      (Own(dialer, f.id) ==>
         f.id / 2 < |planned| && planned[f.id / 2].Writes() && (orderly ==> f.id / 2 < started))
  }

  predicate RepliesFit(fs: seq<Frame>, dialer: bool, planned: seq<Dir>, started: nat, orderly: bool) {
    fs == []
    || (ReplyFits(fs[0], dialer, planned, started, orderly) && RepliesFit(fs[1..], dialer, planned, started, orderly))
  }

  // ---- the allocator's end ---------------------------------------------------------------

  /** How many of its delegated streams have their pumps. */
  function Started(a: End): int {
    |a.planned| - |a.starting|
  }

  ghost predicate OwnerOk(a: End) {
    && 0 <= Started(a) && |a.planned| <= IDS
    && a.starting == Plan(a.dialer, Started(a), a.planned[Started(a)..])
    && (forall h :: h in a.outs && Own(a.dialer, h) ==>
          h / 2 < Started(a) && a.planned[h / 2].Reads() && !a.outs[h].socket)
    && (forall h :: h in a.sinks && Own(a.dialer, h) ==> h / 2 < Started(a))
    && (forall h :: h in a.delegated ==> !Own(a.dialer, h))
    && (forall n: nat :: n < Started(a) && a.planned[n].Writes() ==> IdOf(a.dialer, n) in a.lastSink)
  }

  // ---- the peer's end --------------------------------------------------------------------

  function RestOf(r: Reader): seq<Spec> {
    if r.Materializing? then r.rest else []
  }

  /** How many of the descriptors the reader has dealt with. */
  function Taken(b: End): int {
    b.offered - |RestOf(b.reader)|
  }

  ghost predicate PeerOk(b: End, dialer: bool, planned: seq<Dir>) {
    && 0 <= Taken(b) && b.offered <= |planned| <= IDS
    && RestOf(b.reader) == Plan(dialer, Taken(b), planned[Taken(b)..b.offered])
    && (forall h :: h in b.outs && Own(dialer, h) ==>
          h / 2 < Taken(b) && planned[h / 2].Writes() && b.outs[h].socket)
    && (forall h :: h in b.sinks && Own(dialer, h) ==> h / 2 < Taken(b))
    && (forall h :: h in b.delegated && Own(dialer, h) ==> h / 2 < Taken(b))
    && (b.reader.Stopped?
        || forall n: nat :: n < Taken(b) && planned[n].Reads() ==> IdOf(dialer, n) in b.lastSink)
  }

  predicate Below(ids: set<u32>, dialer: bool, limit: int) {
    forall id :: id in ids && Own(dialer, id) ==> id / 2 < limit
  }

  function IdSet(ids: seq<u32>): set<u32> {
    set id | id in ids
  }

  /** What has been surfaced and not yet received: whatever was announced before a
      message of the peer's owner has its pumps at the peer. */
  predicate CtrlFits(ctrl: seq<Item>, announced: set<u32>, dialer: bool, taken: int, started: int) {
    Below(announced, dialer, taken)
    && (ctrl == []
        || match ctrl[0]
           case Descriptors(ids, _) => CtrlFits(ctrl[1..], announced + IdSet(ids), dialer, taken, started)
           case Note(_, _, main) =>
             (main ==> Below(announced, dialer, started)) && CtrlFits(ctrl[1..], announced, dialer, taken, started))
  }

  predicate ReaderFits(r: Reader, dialer: bool, taken: int, started: int) {
    match r
    case Materializing(_, done, _) => Below(IdSet(done), dialer, taken)
    case Surfacing(Descriptors(ids, _)) => Below(IdSet(ids), dialer, taken)
    case Surfacing(Note(_, _, main)) => main ==> taken <= started
    case _ => true
  }

  predicate SurfacedOk(b: End, dialer: bool, started: int) {
    && ReaderFits(b.reader, dialer, Taken(b), started)
    && CtrlFits(b.ctrl, b.announced, dialer, Taken(b), started)
    && Below(b.usable, dialer, started)
  }

  /** Under the session rule, nothing is written into a descriptor that came over
      the channel before its holder may use it. */
  ghost predicate UsedInOrder(b: End, dialer: bool) {
    forall h :: h in b.outs && Own(dialer, h) && (b.outs[h].src != [] || b.outs[h].eof) ==> b.outs[h].id in b.usable
  }

  // ---- the invariant ---------------------------------------------------------------------

  /** One end: as the allocator of its own streams and as the peer of the other's.
      It has never met data of a stream it had not opened: never of the other's
      streams, and under the session rule never of its own. */
  ghost predicate SideOk(e: End, other: End, orderly: bool) {
    && OwnerOk(e)
    && PeerOk(e, other.dialer, other.planned)
    && SurfacedOk(e, other.dialer, Started(other))
    && (orderly ==> UsedInOrder(e, other.dialer))
    && (forall x :: x in e.unrouted ==> !Own(other.dialer, x) && !orderly)
  }

  /** The frames from one end to the other name its streams in turn, and carry data
      only of streams that the other has been told of or started itself. */
  ghost predicate FlowOk(a: End, b: End, fs: seq<Frame>, orderly: bool) {
    && Started(a) >= 0 && Started(b) >= 0
    && LineFits(fs, a.dialer, a.planned, b.offered, Started(a))
    && b.offered + NamedIn(fs) == |a.planned|
    && RepliesFit(fs, b.dialer, b.planned, Started(b), orderly)
  }

  ghost predicate Handed(s: Sys) {
    && s.b.dialer == !s.a.dialer
    && SideOk(s.a, s.b, s.orderly) && SideOk(s.b, s.a, s.orderly)
    && FlowOk(s.a, s.b, OnTheWay(s), s.orderly) && FlowOk(s.b, s.a, OnTheWay(Swap(s)), s.orderly)
  }

  lemma StartsHanded(dialer: bool, wa: u32, wb: u32, cap: nat, orderly: bool)
    ensures Handed(Start(dialer, wa, wb, cap, orderly))
  {
    var s := Start(dialer, wa, wb, cap, orderly);
    assert OnTheWay(s) == [] && OnTheWay(Swap(s)) == [];
    NewIsInOrder(dialer, wa, wb, orderly);
    NewIsInOrder(!dialer, wb, wa, orderly);
  }

  lemma NewIsInOrder(dialer: bool, window: u32, otherWindow: u32, orderly: bool)
    ensures SideOk(NewEnd(dialer, window), NewEnd(!dialer, otherWindow), orderly)
  {
  }
}
