/** Every step of a session hands descriptors over in order. */
module HandoffLaws {
  import opened ByteStrings
  import opened Proto
  import opened Credit
  import opened Wire
  import opened Endpoint
  import opened EndpointLaws
  import opened Session
  import opened SessionLaws
  import opened Handoff

  // ---- rows of frames --------------------------------------------------------------------

  lemma {:induction false} LineSplits(u: seq<Frame>, v: seq<Frame>, dialer: bool, planned: seq<Dir>, next: nat,
          started: nat)
    ensures NamedIn(u + v) == NamedIn(u) + NamedIn(v)
    ensures LineFits(u + v, dialer, planned, next, started)
       <==> LineFits(u, dialer, planned, next, started) && LineFits(v, dialer, planned, next + NamedIn(u), started)
  {
    if u == [] {
      assert u + v == v;
    } else {
      assert (u + v)[0] == u[0] && (u + v)[1..] == u[1..] + v;
      LineSplits(u[1..], v, dialer, planned, next + Named(u[0]), started);
    }
  }

  lemma LineOfOne(f: Frame, dialer: bool, planned: seq<Dir>, next: nat, started: nat)
    ensures NamedIn([f]) == Named(f)
    ensures LineFits([f], dialer, planned, next, started) <==> FrameFits(f, dialer, planned, next, started)
  {
    assert [f][1..] == [];
  }

  lemma {:induction false} LineGrows(fs: seq<Frame>, dialer: bool, planned: seq<Dir>, next: nat, started: nat,
                                     planned': seq<Dir>, started': nat)
    requires LineFits(fs, dialer, planned, next, started) && planned <= planned' && started <= started'
    ensures LineFits(fs, dialer, planned', next, started')
  {
    if fs != [] {
      FrameGrows(fs[0], dialer, planned, next, started, planned', started');
      LineGrows(fs[1..], dialer, planned, next + Named(fs[0]), started, planned', started');
    }
  }

  lemma FrameGrows(f: Frame, dialer: bool, planned: seq<Dir>, next: nat, started: nat, planned': seq<Dir>,
          started': nat)
    requires FrameFits(f, dialer, planned, next, started) && planned <= planned' && started <= started'
    ensures FrameFits(f, dialer, planned', next, started')
  {
    if f.Fds? { assert planned'[next..next + Named(f)] == planned[next..next + Named(f)]; }
  }

  lemma {:induction false} RepliesSplit(u: seq<Frame>, v: seq<Frame>, dialer: bool, planned: seq<Dir>, started: nat,
          orderly: bool)
    ensures RepliesFit(u + v, dialer, planned, started, orderly)
       <==> RepliesFit(u, dialer, planned, started, orderly) && RepliesFit(v, dialer, planned, started, orderly)
  {
    if u == [] {
      assert u + v == v;
    } else {
      assert (u + v)[0] == u[0] && (u + v)[1..] == u[1..] + v;
      RepliesSplit(u[1..], v, dialer, planned, started, orderly);
    }
  }

  lemma RepliesOfOne(f: Frame, dialer: bool, planned: seq<Dir>, started: nat, orderly: bool)
    ensures RepliesFit([f], dialer, planned, started, orderly) <==> ReplyFits(f, dialer, planned, started, orderly)
  {
    assert [f][1..] == [];
  }

  lemma {:induction false} RepliesGrow(fs: seq<Frame>, dialer: bool, planned: seq<Dir>, started: nat, orderly: bool,
                                       planned': seq<Dir>, started': nat)
    requires RepliesFit(fs, dialer, planned, started, orderly) && planned <= planned' && started <= started'
    ensures RepliesFit(fs, dialer, planned', started', orderly)
  {
    if fs != [] { RepliesGrow(fs[1..], dialer, planned, started, orderly, planned', started'); }
  }

  // ---- plans -----------------------------------------------------------------------------

  lemma {:induction false} PlanJoin(dialer: bool, n: nat, a: seq<Dir>, b: seq<Dir>)
    ensures Plan(dialer, n, a + b) == Plan(dialer, n, a) + Plan(dialer, n + |a|, b)
    decreases |a|
  {
    if a == [] {
      assert a + b == b;
    } else {
      assert (a + b)[0] == a[0] && (a + b)[1..] == a[1..] + b;
      PlanJoin(dialer, n + 1, a[1..], b);
    }
  }

  lemma PlanHead(dialer: bool, n: nat, dirs: seq<Dir>)
    requires dirs != []
    ensures Plan(dialer, n, dirs)[0] == Spec(IdOf(dialer, n), dirs[0])
    ensures Plan(dialer, n, dirs)[1..] == Plan(dialer, n + 1, dirs[1..])
  {
  }

  // ---- one end, seen as allocator and as peer ----------------------------------------------

  /** What the hand-over of the other's descriptors looks at, but for the reader. */
  predicate SameOpened(e: End, e': End) {
    && e'.dialer == e.dialer && e'.delegated == e.delegated && e'.lastSink == e.lastSink && e'.offered == e.offered
    && e'.outs.Keys == e.outs.Keys && e'.sinks.Keys == e.sinks.Keys
    && e'.ctrl == e.ctrl && e'.announced == e.announced && e'.usable == e.usable
  }

  predicate SameHands(e: End, e': End) {
    SameOpened(e, e') && e'.planned == e.planned && e'.starting == e.starting
  }

  lemma OwnerSame(e: End, e': End)
    requires OwnerOk(e) && SameHands(e, e') && SameSockets(e, e')
    ensures OwnerOk(e')
  {
    assert forall h :: h in e'.outs ==> h in e.outs;
    assert forall h :: h in e'.sinks ==> h in e.sinks;
  }

  ghost predicate SameSockets(e: End, e': End) {
    forall h :: h in e.outs && h in e'.outs ==> e'.outs[h].socket == e.outs[h].socket
  }

  lemma PeerSame(e: End, e': End, dialer: bool, planned: seq<Dir>)
    requires PeerOk(e, dialer, planned) && SameOpened(e, e') && SameSockets(e, e')
    requires RestOf(e'.reader) == RestOf(e.reader) && (e.reader.Stopped? ==> e'.reader.Stopped?)
    ensures PeerOk(e', dialer, planned)
  {
    assert forall h :: h in e'.outs ==> h in e.outs;
    assert forall h :: h in e'.sinks ==> h in e.sinks;
  }

  /** Nothing more has been written into any descriptor. */
  ghost predicate SameSources(e: End, e': End) {
    forall h :: h in e'.outs ==> h in e.outs && e'.outs[h].id == e.outs[h].id
                                 && e'.outs[h].src == e.outs[h].src && e'.outs[h].eof == e.outs[h].eof
  }

  lemma UsedSame(e: End, e': End, dialer: bool)
    requires UsedInOrder(e, dialer) && SameSources(e, e') && e.usable <= e'.usable
    ensures UsedInOrder(e', dialer)
  {
  }

  lemma SurfacedSame(e: End, e': End, dialer: bool, started: int)
    requires SurfacedOk(e, dialer, started) && SameOpened(e, e') && RestOf(e'.reader) == RestOf(e.reader)
    requires ReaderFits(e'.reader, dialer, Taken(e), started)
    ensures SurfacedOk(e', dialer, started)
  {
  }

  lemma {:induction false} CtrlGrows(ctrl: seq<Item>, announced: set<u32>, dialer: bool, taken: int, started: int,
                                     taken': int, started': int)
    requires CtrlFits(ctrl, announced, dialer, taken, started) && taken <= taken' && started <= started'
    ensures CtrlFits(ctrl, announced, dialer, taken', started')
    decreases |ctrl|
  {
    if ctrl != [] {
      match ctrl[0]
      case Descriptors(ids, _) => CtrlGrows(ctrl[1..], announced + IdSet(ids), dialer, taken, started, taken',
        started');
      case Note(_, _, _) => CtrlGrows(ctrl[1..], announced, dialer, taken, started, taken', started');
    }
  }

  /** The other end has only moved on. */
  predicate MovedOn(e: End, e': End) {
    e'.dialer == e.dialer && e.planned <= e'.planned && Started(e) <= Started(e') && |e'.planned| <= IDS
  }

  lemma SideGrows(e: End, other: End, other': End, orderly: bool)
    requires SideOk(e, other, orderly) && MovedOn(other, other')
    ensures SideOk(e, other', orderly)
  {
    CtrlGrows(e.ctrl, e.announced, other.dialer, Taken(e), Started(other), Taken(e), Started(other'));
    assert other'.planned[Taken(e)..e.offered] == other.planned[Taken(e)..e.offered];
  }

  /** A step that adds nothing to the frames on their way. */
  lemma FlowGrows(a: End, b: End, fs: seq<Frame>, orderly: bool, a': End, b': End)
    requires FlowOk(a, b, fs, orderly) && MovedOn(a, a') && MovedOn(b, b') && a'.planned == a.planned
    requires b'.offered == b.offered
    ensures FlowOk(a', b', fs, orderly)
  {
    LineGrows(fs, a.dialer, a.planned, b.offered, Started(a), a'.planned, Started(a'));
    RepliesGrow(fs, b.dialer, b.planned, Started(b), orderly, b'.planned, Started(b'));
  }

  /** A frame joins the end of the row. */
  lemma FlowAppends(a: End, b: End, fs: seq<Frame>, orderly: bool, f: Frame)
    requires FlowOk(a, b, fs, orderly) && Named(f) == 0
    requires FrameFits(f, a.dialer, a.planned, |a.planned|, Started(a))
    requires ReplyFits(f, b.dialer, b.planned, Started(b), orderly)
    ensures FlowOk(a, b, fs + [f], orderly)
  {
    LineSplits(fs, [f], a.dialer, a.planned, b.offered, Started(a));
    LineOfOne(f, a.dialer, a.planned, |a.planned|, Started(a));
    RepliesSplit(fs, [f], b.dialer, b.planned, Started(b), orderly);
    RepliesOfOne(f, b.dialer, b.planned, Started(b), orderly);
  }

  /** A frame that names and carries nothing overtakes the frame queue. */
  lemma FlowInserts(a: End, b: End, u: seq<Frame>, v: seq<Frame>, orderly: bool, f: Frame)
    requires FlowOk(a, b, u + v, orderly) && (f.Hello? || f.Window?)
    ensures FlowOk(a, b, u + [f] + v, orderly)
  {
    var d, p, n, k := a.dialer, a.planned, b.offered, Started(a);
    LineSplits(u, v, d, p, n, k);
    LineSplits(u + [f], v, d, p, n, k);
    LineSplits(u, [f], d, p, n, k);
    LineOfOne(f, d, p, n + NamedIn(u), k);
    RepliesSplit(u, v, b.dialer, b.planned, Started(b), orderly);
    RepliesSplit(u + [f], v, b.dialer, b.planned, Started(b), orderly);
    RepliesSplit(u, [f], b.dialer, b.planned, Started(b), orderly);
    RepliesOfOne(f, b.dialer, b.planned, Started(b), orderly);
  }

  /** The first frame is taken off. */
  lemma {:induction false} FlowHead(a: End, b: End, f: Frame, rest: seq<Frame>, orderly: bool)
    requires FlowOk(a, b, [f] + rest, orderly)
    ensures FrameFits(f, a.dialer, a.planned, b.offered, Started(a))
      && ReplyFits(f, b.dialer, b.planned, Started(b), orderly)
    ensures FlowOk(a, b.(offered := b.offered + Named(f)), rest, orderly)
    ensures b.offered + Named(f) <= |a.planned|
  {
    assert ([f] + rest)[0] == f && ([f] + rest)[1..] == rest;
  }

  // ---- steps that hand nothing over ---------------------------------------------------------

  lemma SideSame(e: End, e': End, other: End, orderly: bool)
    requires SideOk(e, other, orderly) && SameHands(e, e') && SameSockets(e, e') && SameSources(e, e')
    requires RestOf(e'.reader) == RestOf(e.reader) && (e.reader.Stopped? ==> e'.reader.Stopped?)
    requires ReaderFits(e'.reader, other.dialer, Taken(e), Started(other)) && e'.unrouted == e.unrouted
    ensures SideOk(e', other, orderly)
  {
    OwnerSame(e, e');
    PeerSame(e, e', other.dialer, other.planned);
    SurfacedSame(e, e', other.dialer, Started(other));
    if orderly { UsedSame(e, e', other.dialer); }
  }

  /** Everything but the reader and the frames: what such a step must keep. */
  ghost predicate HandsOff(e: End, e': End) {
    SameHands(e, e') && SameSockets(e, e') && SameSources(e, e') && e'.unrouted == e.unrouted
  }

  /** A step of the first end that leaves the hand-over alone, but for what it adds
      to the row of frames and takes off it. */
  lemma HandedByQuietStep(s: Sys, s': Sys)
    requires Handed(s) && s'.b == s.b && s'.orderly == s.orderly && HandsOff(s.a, s'.a)
    requires RestOf(s'.a.reader) == RestOf(s.a.reader) && (s.a.reader.Stopped? ==> s'.a.reader.Stopped?)
    requires ReaderFits(s'.a.reader, s.b.dialer, Taken(s.a), Started(s.b))
    requires OnTheWay(Swap(s')) == OnTheWay(Swap(s))
    requires FlowOk(s.a, s.b, OnTheWay(s'), s.orderly)
    ensures Handed(s')
  {
    SideSame(s.a, s'.a, s.b, s.orderly);
    SideGrows(s.b, s.a, s'.a, s.orderly);
    FlowGrows(s.a, s.b, OnTheWay(s'), s.orderly, s'.a, s.b);
    FlowGrows(s.b, s.a, OnTheWay(Swap(s)), s.orderly, s.b, s'.a);
  }

  lemma WriterHandsOff(e: End, w: WriterStep)
    requires WriterEnabled(e, w)
    ensures HandsOff(e, ApplyWriter(e, w))
  {
    match w
    case SayHello | TakeOwed | GrantOwed(_) | WriteQueued =>
  }

  lemma FlowOvertakes(s: Sys, f: Frame)
    requires Handed(s) && (f.Hello? || f.Window?)
    ensures FlowOk(s.a, s.b, InHand(s.b.reader) + (s.ab + [f]) + s.a.queue, s.orderly)
  {
    var u, v := InHand(s.b.reader) + s.ab, s.a.queue;
    FlowInserts(s.a, s.b, u, v, s.orderly, f);
    assert InHand(s.b.reader) + (s.ab + [f]) + v == u + [f] + v;
  }

  lemma FlowMoves(s: Sys, f: Frame, rest: seq<Frame>)
    requires Handed(s) && s.a.queue == [f] + rest
    ensures FlowOk(s.a, s.b, InHand(s.b.reader) + (s.ab + [f]) + rest, s.orderly)
  {
    assert InHand(s.b.reader) + (s.ab + [f]) + rest == OnTheWay(s);
  }

  lemma WriterFlow(s: Sys, w: WriterStep)
    requires Handed(s) && EnabledA(s, Writer(w))
    ensures FlowOk(s.a, s.b, OnTheWay(StepA(s, Writer(w))), s.orderly)
  {
    match w
    case SayHello => FlowOvertakes(s, Greeting(s.a));
    case TakeOwed => assert s.ab + [] == s.ab;
    case GrantOwed(id) => FlowOvertakes(s, Window(id, s.a.flushing[id]));
    case WriteQueued =>
      assert s.a.queue == [s.a.queue[0]] + s.a.queue[1..];
      FlowMoves(s, s.a.queue[0], s.a.queue[1..]);
  }

  lemma WriterHands(s: Sys, w: WriterStep)
    requires Handed(s) && EnabledA(s, Writer(w))
    ensures Handed(StepA(s, Writer(w)))
  {
    WriterHandsOff(s.a, w);
    WriterStepLeaves(s.a, w);
    WriterFlow(s, w);
    HandedByQuietStep(s, StepA(s, Writer(w)));
  }

  lemma QueueFlow(a: End, b: End, row: seq<Frame>, queue: seq<Frame>, f: Frame, orderly: bool)
    requires FlowOk(a, b, row + queue, orderly) && Named(f) == 0
    requires FrameFits(f, a.dialer, a.planned, |a.planned|, Started(a))
    requires ReplyFits(f, b.dialer, b.planned, Started(b), orderly)
    ensures FlowOk(a, b, row + (queue + [f]), orderly)
  {
    FlowAppends(a, b, row + queue, orderly, f);
    assert row + (queue + [f]) == row + queue + [f];
  }

  lemma PumpFlow(s: Sys, h: Handle, o: Out, p: PumpStep)
    requires Handed(s) && Tidy(s.a) && h in s.a.outs && s.a.outs[h] == o && PumpEnabled(s.a, o, p)
    requires OutOk(o, s.a.closed, s.a.peerWindowed)
    ensures FlowOk(s.a, s.b, InHand(s.b.reader) + s.ab + (s.a.queue + PumpFrames(o, p)), s.orderly)
  {
    var row := InHand(s.b.reader) + s.ab;
    match p
    case Queue =>
      TrafficFits(s, h, o);
      QueueFlow(s.a, s.b, row, s.a.queue, Data(o.id, o.phase.bytes), s.orderly);
    case QueueClose =>
      TrafficFits(s, h, o);
      QueueFlow(s.a, s.b, row, s.a.queue, Close(o.id), s.orderly);
    case Offer(_) | OfferEof | Admit | Retry | Read(_) | Tally | Quit | Drop =>
      assert s.a.queue + [] == s.a.queue;
  }

  /** A stream that has something to send is known to the other end: the allocator
      named it before it started the pump, and the peer sends only on descriptors
      the allocator's owner has released. */
  lemma TrafficFits(s: Sys, h: Handle, o: Out)
    requires Handed(s) && Tidy(s.a) && h in s.a.outs && s.a.outs[h] == o && (o.src != [] || o.eof)
    ensures Own(s.a.dialer, h) ==> h / 2 < |s.a.planned| && s.a.planned[h / 2].Reads()
    ensures Own(s.b.dialer, h) ==>
      h / 2 < |s.b.planned| && s.b.planned[h / 2].Writes() && (s.orderly ==> h / 2 < Started(s.b))
  {
  }

  /** Nothing is written into a descriptor that came over the channel, or it may be
      used by now. */
  lemma PumpSide(s: Sys, h: Handle, o: Out, p: PumpStep)
    requires Handed(s) && Tidy(s.a) && h in s.a.outs && s.a.outs[h] == o && EnabledA(s, Pump(h, p))
    ensures SideOk(ApplyPump(s.a, h, p), s.b, s.orderly)
  {
    var a' := ApplyPump(s.a, h, p);
    assert SameHands(s.a, a') && SameSockets(s.a, a') && a'.reader == s.a.reader;
    OwnerSame(s.a, a');
    PeerSame(s.a, a', s.b.dialer, s.b.planned);
    SurfacedSame(s.a, a', s.b.dialer, Started(s.b));
    if s.orderly { PumpUses(s.a, h, o, p, s.b.dialer); }
  }

  lemma PumpUses(e: End, h: Handle, o: Out, p: PumpStep, dialer: bool)
    requires UsedInOrder(e, dialer) && h in e.outs && e.outs[h] == o && PumpEnabled(e, o, p)
    requires Own(dialer, h) && (p.Offer? || p.OfferEof?) ==> o.id in e.usable
    ensures UsedInOrder(ApplyPump(e, h, p), dialer)
  {
    var e', o' := ApplyPump(e, h, p), PumpNext(o, p);
    assert o'.id == o.id && (o'.src == o.src || p.Offer?) && (o'.eof == o.eof || p.OfferEof?);
    forall g | g in e'.outs && Own(dialer, g) && (e'.outs[g].src != [] || e'.outs[g].eof)
      ensures e'.outs[g].id in e'.usable
    {
      if g == h { assert e'.outs[g] == o'; } else { assert e'.outs[g] == e.outs[g]; }
    }
  }

  lemma PumpHands(s: Sys, h: Handle, o: Out, p: PumpStep)
    requires Handed(s) && Tidy(s.a) && h in s.a.outs && s.a.outs[h] == o && OutOk(o, s.a.closed, s.a.peerWindowed)
    requires EnabledA(s, Pump(h, p))
    ensures Handed(s.(a := ApplyPump(s.a, h, p)))
  {
    PumpSide(s, h, o, p);
    PumpFlow(s, h, o, p);
    var a' := ApplyPump(s.a, h, p);
    assert MovedOn(s.a, a') && a'.planned == s.a.planned && a'.offered == s.a.offered && a'.reader == s.a.reader;
    SideGrows(s.b, s.a, a', s.orderly);
    FlowGrows(s.a, s.b, InHand(s.b.reader) + s.ab + (s.a.queue + PumpFrames(o, p)), s.orderly, a', s.b);
    FlowGrows(s.b, s.a, OnTheWay(Swap(s)), s.orderly, s.b, a');
  }

  /** One more frame in the queue that names nothing, and nothing else. */
  lemma HandedByQueueing(s: Sys, s': Sys, f: Frame)
    requires Handed(s) && s'.b == s.b && s'.orderly == s.orderly && s'.ab == s.ab && s'.ba == s.ba
    requires HandsOff(s.a, s'.a) && s'.a.reader == s.a.reader && s'.a.queue == s.a.queue + [f] && Named(f) == 0
    requires FrameFits(f, s.a.dialer, s.a.planned, |s.a.planned|, Started(s.a))
    requires ReplyFits(f, s.b.dialer, s.b.planned, Started(s.b), s.orderly)
    ensures Handed(s')
  {
    QueueFlow(s.a, s.b, InHand(s.b.reader) + s.ab, s.a.queue, f, s.orderly);
    HandedByQuietStep(s, s');
  }

  lemma SinkHandsOff(e: End, h: Handle, m: SinkStep)
    requires h in e.sinks && SinkEnabled(e, h, e.sinks[h], m)
    ensures HandsOff(e, ApplySink(e, h, m)) && ApplySink(e, h, m).reader == e.reader
  {
  }

  lemma SinkHands(s: Sys, h: Handle, k: Sink, m: SinkStep)
    requires Handed(s) && EnabledA(s, Drain(h, m)) && s.a.sinks[h] == k
    ensures Handed(StepA(s, Drain(h, m)))
  {
    assert s.ab + [] == s.ab;
    SinkHandsOff(s.a, h, m);
    if m.QueueGrant? {
      HandedByQueueing(s, StepA(s, Drain(h, m)), Window(k.id, k.pending.value));
    } else {
      assert s.a.queue + [] == s.a.queue;
      HandedByQuietStep(s, StepA(s, Drain(h, m)));
    }
  }

  // ---- the owner -----------------------------------------------------------------------------

  lemma QuietAppHands(s: Sys, m: AppStep)
    requires Handed(s) && EnabledA(s, App(m)) && (m.BeginSend? || m.Aim? || m.Pass? || m.CloseFlow?)
    ensures Handed(StepA(s, App(m)))
  {
    assert s.ab + [] == s.ab;
    var a' := ApplyApp(s.a, m);
    assert HandsOff(s.a, a') && a'.reader == s.a.reader && a'.queue == s.a.queue;
    HandedByQuietStep(s, StepA(s, App(m)));
  }

  lemma ReceiveSide(e: End, other: End, orderly: bool, item: Item, rest: seq<Item>)
    requires SideOk(e, other, orderly) && e.ctrl == [item] + rest
    ensures SideOk(DoAppReceive(e), other, orderly)
  {
    assert e.ctrl[0] == item && e.ctrl[1..] == rest;
    var e' := DoAppReceive(e);
    assert CtrlFits(rest, e'.announced, other.dialer, Taken(e), Started(other));
    if orderly { UsedSame(e, e', other.dialer); }
  }

  lemma ReceiveHands(s: Sys)
    requires Handed(s) && EnabledA(s, App(AppReceive))
    ensures Handed(StepA(s, App(AppReceive)))
  {
    assert s.ab + [] == s.ab;
    assert s.a.ctrl == [s.a.ctrl[0]] + s.a.ctrl[1..];
    ReceiveSide(s.a, s.b, s.orderly, s.a.ctrl[0], s.a.ctrl[1..]);
    HandedByOwnStep(s, StepA(s, App(AppReceive)));
  }

  /** A step that changes nothing but its own end. */
  lemma HandedByOwnStep(s: Sys, s': Sys)
    requires Handed(s) && s'.b == s.b && s'.orderly == s.orderly && s'.ab == s.ab && s'.ba == s.ba
    requires SideOk(s'.a, s.b, s.orderly) && MovedOn(s.a, s'.a) && s'.a.planned == s.a.planned
    requires s'.a.queue == s.a.queue && InHand(s'.a.reader) == InHand(s.a.reader) && s'.a.offered == s.a.offered
    ensures Handed(s')
  {
    SideGrows(s.b, s.a, s'.a, s.orderly);
    FlowGrows(s.a, s.b, OnTheWay(s), s.orderly, s'.a, s.b);
    FlowGrows(s.b, s.a, OnTheWay(Swap(s)), s.orderly, s.b, s'.a);
  }

  lemma PlainHandsOff(e: End, task: nat, t: Task, msg: Message)
    requires AppEnabled(e, QueueMessage(task)) && e.tasks[task] == t && t.what == Plain(msg)
    ensures HandsOff(e, DoQueueMessage(e, task)) && DoQueueMessage(e, task).reader == e.reader
    ensures TaskFrame(e, task).Control? && TaskFrame(e, task).main == (task == MAIN)
  {
  }

  /** A message of the owner waits until the pumps of all delegated streams have
      been started: `send` starts them before it returns. */
  lemma PlainHands(s: Sys, task: nat, msg: Message)
    requires Handed(s) && SendersOk(s.a) && task in s.a.tasks && s.a.tasks[task].what == Plain(msg)
    requires EnabledA(s, App(QueueMessage(task)))
    ensures Handed(StepA(s, App(QueueMessage(task))))
  {
    assert s.ab + [] == s.ab;
    PlainHandsOff(s.a, task, s.a.tasks[task], msg);
    assert task == MAIN ==> Started(s.a) == |s.a.planned|;
    HandedByQueueing(s, StepA(s, App(QueueMessage(task))), TaskFrame(s.a, task));
  }

  predicate Delegates(a: End, a': End, dirs: seq<Dir>) {
    && a.starting == [] && |a.planned| + |dirs| <= IDS
    && a'.planned == a.planned + dirs && a'.starting == Plan(a.dialer, |a.planned|, dirs)
    && SameOpened(a, a') && a'.outs == a.outs && a'.reader == a.reader && a'.unrouted == a.unrouted
  }

  lemma DelegateOwner(a: End, a': End, dirs: seq<Dir>)
    requires OwnerOk(a) && Delegates(a, a', dirs)
    ensures OwnerOk(a') && Started(a') == Started(a)
  {
    assert a'.planned[|a.planned|..] == dirs;
    assert forall h :: h in a'.sinks ==> h in a.sinks;
    assert forall n :: 0 <= n < |a.planned| ==> a'.planned[n] == a.planned[n];
  }

  lemma DelegateSide(a: End, a': End, other: End, orderly: bool, dirs: seq<Dir>)
    requires SideOk(a, other, orderly) && Delegates(a, a', dirs)
    ensures SideOk(a', other, orderly)
  {
    DelegateOwner(a, a', dirs);
    PeerSame(a, a', other.dialer, other.planned);
    SurfacedSame(a, a', other.dialer, Started(other));
    if orderly { UsedSame(a, a', other.dialer); }
  }

  lemma DelegateFrame(a: End, a': End, dirs: seq<Dir>, f: Frame)
    requires Delegates(a, a', dirs) && f.Fds? && f.payload == EncodeFds(a'.starting)
    ensures Named(f) == |dirs| && FrameFits(f, a.dialer, a'.planned, |a.planned|, |a.planned|)
  {
    FdsRoundTrip(a'.starting);
    assert a'.planned[|a.planned|..|a.planned| + |dirs|] == dirs;
  }

  lemma DelegateLine(row: seq<Frame>, a: End, a': End, dirs: seq<Dir>, f: Frame, next: nat)
    requires Delegates(a, a', dirs) && LineFits(row, a.dialer, a.planned, next, |a.planned|)
    requires next + NamedIn(row) == |a.planned| && f.Fds? && f.payload == EncodeFds(a'.starting)
    ensures LineFits(row + [f], a.dialer, a'.planned, next, |a.planned|) && next + NamedIn(row + [f]) == |a'.planned|
  {
    var n := |a.planned|;
    DelegateFrame(a, a', dirs, f);
    LineGrows(row, a.dialer, a.planned, next, n, a'.planned, n);
    LineSplits(row, [f], a.dialer, a'.planned, next, n);
    LineOfOne(f, a.dialer, a'.planned, n, n);
  }

  lemma DelegateFlow(a: End, b: End, row: seq<Frame>, orderly: bool, a': End, dirs: seq<Dir>, f: Frame)
    requires FlowOk(a, b, row, orderly) && Delegates(a, a', dirs) && f.Fds? && f.payload == EncodeFds(a'.starting)
    ensures FlowOk(a', b, row + [f], orderly)
  {
    DelegateLine(row, a, a', dirs, f, b.offered);
    RepliesSplit(row, [f], b.dialer, b.planned, Started(b), orderly);
    RepliesOfOne(f, b.dialer, b.planned, Started(b), orderly);
  }

  lemma HandedByDelegating(s: Sys, s': Sys, dirs: seq<Dir>, f: Frame)
    requires Handed(s) && s'.b == s.b && s'.orderly == s.orderly && s'.ab == s.ab && s'.ba == s.ba
    requires Delegates(s.a, s'.a, dirs) && s'.a.queue == s.a.queue + [f]
    requires f.Fds? && f.payload == EncodeFds(s'.a.starting)
    ensures Handed(s')
  {
    var row := InHand(s.b.reader) + s.ab;
    assert row + (s.a.queue + [f]) == row + s.a.queue + [f];
    DelegateSide(s.a, s'.a, s.b, s.orderly, dirs);
    DelegateOwner(s.a, s'.a, dirs);
    SideGrows(s.b, s.a, s'.a, s.orderly);
    DelegateFlow(s.a, s.b, OnTheWay(s), s.orderly, s'.a, dirs, f);
    DelegateReplies(s, s'.a);
  }

  lemma DelegateHands(s: Sys, task: nat, dirs: seq<Dir>)
    requires Handed(s) && SendersOk(s.a) && task in s.a.tasks && s.a.tasks[task].what == Delegate(dirs)
    requires EnabledA(s, App(QueueMessage(task)))
    ensures Handed(StepA(s, App(QueueMessage(task))))
  {
    assert s.ab + [] == s.ab;
    assert task == MAIN && s.a.starting == [];
    assert Delegates(s.a, DoQueueMessage(s.a, task), dirs);
    HandedByDelegating(s, StepA(s, App(QueueMessage(task))), dirs, TaskFrame(s.a, task));
  }

  lemma DelegateReplies(s: Sys, a': End)
    requires Handed(s) && MovedOn(s.a, a') && a'.offered == s.a.offered
    ensures FlowOk(s.b, a', OnTheWay(Swap(s)), s.orderly)
  {
    RepliesGrow(OnTheWay(Swap(s)), s.a.dialer, s.a.planned, Started(s.a), s.orderly, a'.planned, Started(a'));
  }

  // ---- opening a stream ------------------------------------------------------------------------

  lemma IdIs(dialer: bool, n: nat)
    requires n < IDS
    ensures Own(dialer, IdOf(dialer, n)) && IdOf(dialer, n) / 2 == n && !Own(!dialer, IdOf(dialer, n))
  {
    IdsAreDistinct(dialer, n, n);
    ParityOf(dialer, n);
  }

  lemma StartOwner(e: End, h: Handle, spec: Spec, rest: seq<Spec>)
    requires OwnerOk(e) && AppEnabled(e, StartPump(h)) && e.starting == [spec] + rest && h == spec.id
    ensures OwnerOk(DoStartPump(e, h)) && Started(DoStartPump(e, h)) == Started(e) + 1 && Own(e.dialer, h)
  {
    var k := Started(e);
    PlanHead(e.dialer, k, e.planned[k..]);
    assert e.starting[0] == spec && e.starting[1..] == rest;
    assert e.planned[k..][1..] == e.planned[k + 1..];
    IdIs(e.dialer, k);
    StartedSinks(e, k, h, spec.dir);
  }

  lemma StartedSinks(e: End, k: nat, h: Handle, dir: Dir)
    requires OwnerOk(e) && k == Started(e) < |e.planned| && h == IdOf(e.dialer, k) && dir == e.planned[k]
    ensures forall n: nat :: n < k + 1 && e.planned[n].Writes() ==>
              IdOf(e.dialer, n) in if dir.Writes() then e.lastSink[h as u32 := h] else e.lastSink
  {
  }

  /** Opening one's own stream does not touch the peer's. */
  lemma StartPeer(e: End, h: Handle, spec: Spec, other: End, orderly: bool)
    requires SideOk(e, other, orderly) && AppEnabled(e, StartPump(h)) && e.starting[0] == spec && h == spec.id
    requires !Own(other.dialer, h)
    ensures var e' := DoStartPump(e, h);
            PeerOk(e', other.dialer, other.planned) && SurfacedOk(e', other.dialer, Started(other))
            && (orderly ==> UsedInOrder(e', other.dialer))
  {
  }

  lemma StartHands(s: Sys, h: Handle, spec: Spec, rest: seq<Spec>)
    requires Handed(s) && EnabledA(s, App(StartPump(h))) && s.a.starting == [spec] + rest
    ensures Handed(StepA(s, App(StartPump(h))))
  {
    assert s.ab + [] == s.ab;
    StartOwner(s.a, h, spec, rest);
    StartPeer(s.a, h, spec, s.b, s.orderly);
    HandedByOwnStep(s, StepA(s, App(StartPump(h))));
  }

  lemma AppHands(s: Sys, m: AppStep)
    requires Handed(s) && Sound(s) && EnabledA(s, App(m))
    ensures Handed(StepA(s, App(m)))
  {
    match m
    case AppReceive => ReceiveHands(s);
    case QueueMessage(task) =>
      match s.a.tasks[task].what {
        case Plain(msg) => PlainHands(s, task, msg);
        case Delegate(dirs) => DelegateHands(s, task, dirs);
      }
    case StartPump(h) =>
      assert s.a.starting == [s.a.starting[0]] + s.a.starting[1..];
      StartHands(s, h, s.a.starting[0], s.a.starting[1..]);
    case BeginSend(_, _, _) | Aim(_) | Pass(_) | CloseFlow => QuietAppHands(s, m);
  }

  // ---- the reader ------------------------------------------------------------------------------

  lemma QuietReaderHandsOff(e: End, r: ReaderStep)
    requires ReaderEnabled(e, r) && (r.Count? || r.Deliver? || r.Owe? || r.Shutdown? || r.FinishFds?)
    ensures HandsOff(e, ApplyReader(e, r))
    ensures var e' := ApplyReader(e, r);
            RestOf(e'.reader) == RestOf(e.reader) == [] && InHand(e'.reader) == InHand(e.reader) && e'.queue == e.queue
            && !e'.reader.Materializing? && !e.reader.Stopped?
            && (e'.reader.Surfacing? ==> r.FinishFds? && e'.reader.item == Descriptors(e.reader.done, e.reader.after))
  {
    match r
    case Count | Deliver | Owe | Shutdown | FinishFds =>
  }

  lemma QuietReaderHands(s: Sys, r: ReaderStep)
    requires Handed(s) && EnabledA(s, Reads(r)) && (r.Count? || r.Deliver? || r.Owe? || r.Shutdown? || r.FinishFds?)
    ensures Handed(StepA(s, Reads(r)))
  {
    assert s.ab + [] == s.ab;
    QuietReaderHandsOff(s.a, r);
    HandedByQuietStep(s, StepA(s, Reads(r)));
  }

  lemma ReceiveFrameHands(s: Sys, f: Frame, rest: seq<Frame>)
    requires Handed(s) && EnabledA(s, Reads(Receive(f))) && s.ba == [f] + rest
    ensures Handed(StepA(s, Reads(Receive(f))))
  {
    assert s.ab + [] == s.ab && s.ba[1..] == rest;
    var s' := StepA(s, Reads(Receive(f)));
    assert InHand(s'.a.reader) == [f];
    assert [f] + rest + s.b.queue == [] + ([f] + rest) + s.b.queue;
    assert HandsOff(s.a, s'.a);
    HandedByQuietStep(s, s');
  }

  lemma {:induction false} CtrlAppends(ctrl: seq<Item>, announced: set<u32>, dialer: bool, taken: int, started: int,
          item: Item)
    requires CtrlFits(ctrl, announced, dialer, taken, started)
    requires match item case Descriptors(ids, _) => Below(IdSet(ids), dialer, taken)
                        case Note(_, _, main) => main ==> taken <= started
    ensures CtrlFits(ctrl + [item], announced, dialer, taken, started)
    decreases |ctrl|
  {
    if ctrl == [] {
      assert [item][1..] == [];
      assert ctrl + [item] == [item];
    } else {
      assert (ctrl + [item])[0] == ctrl[0] && (ctrl + [item])[1..] == ctrl[1..] + [item];
      match ctrl[0]
      case Descriptors(ids, _) => CtrlAppends(ctrl[1..], announced + IdSet(ids), dialer, taken, started, item);
      case Note(_, _, _) => CtrlAppends(ctrl[1..], announced, dialer, taken, started, item);
    }
  }

  lemma SurfaceSide(e: End, other: End, orderly: bool, item: Item)
    requires SideOk(e, other, orderly) && e.reader == Surfacing(item)
    ensures SideOk(e.(ctrl := e.ctrl + [item], reader := Idle), other, orderly)
  {
    CtrlAppends(e.ctrl, e.announced, other.dialer, Taken(e), Started(other), item);
  }

  lemma SurfaceHands(s: Sys, item: Item)
    requires Handed(s) && EnabledA(s, Reads(Surface)) && s.a.reader == Surfacing(item)
    ensures Handed(StepA(s, Reads(Surface)))
  {
    assert s.ab + [] == s.ab;
    SurfaceSide(s.a, s.b, s.orderly, item);
    HandedByOwnStep(s, StepA(s, Reads(Surface)));
  }

  lemma FailSide(e: End, other: End, orderly: bool)
    requires SideOk(e, other, orderly) && e.reader.Materializing?
    ensures SideOk(StopReader(e, NoDescriptor), other, orderly)
  {
    CtrlGrows(e.ctrl, e.announced, other.dialer, Taken(e), Started(other), e.offered, Started(other));
  }

  lemma FailHands(s: Sys)
    requires Handed(s) && EnabledA(s, Reads(MaterializeFails))
    ensures Handed(StepA(s, Reads(MaterializeFails)))
  {
    assert s.ab + [] == s.ab;
    FailSide(s.a, s.b, s.orderly);
    HandedByOwnStep(s, StepA(s, Reads(MaterializeFails)));
  }

  // ---- a frame is acted on -----------------------------------------------------------------------

  /** What the frame says when its turn comes. */
  predicate FrameSays(e: End, other: End, f: Frame, orderly: bool) {
    && Started(e) >= 0 && Started(other) >= 0
    && FrameFits(f, other.dialer, other.planned, e.offered, Started(other))
    && ReplyFits(f, e.dialer, e.planned, Started(e), orderly)
    && e.offered + Named(f) <= |other.planned|
  }

  lemma {:induction false} FdsSide(e: End, other: End, orderly: bool, payload: Bytes, after: map<nat, nat>)
    requires SideOk(e, other, orderly) && e.reader == Reader.Hand(Fds(payload, after))
    requires FrameSays(e, other, Fds(payload, after), orderly)
    ensures SideOk(HandleFds(e, payload, after), other, orderly)
  {
    FdsOwner(e, payload, after);
    FdsPeer(e, payload, after, other.dialer, other.planned);
    FdsSurfaced(e, payload, after, other.dialer, Started(other));
  }

  lemma FdsOwner(e: End, payload: Bytes, after: map<nat, nat>)
    requires OwnerOk(e)
    ensures OwnerOk(HandleFds(e, payload, after))
  {
  }

  lemma {:induction false} FdsPeer(e: End, payload: Bytes, after: map<nat, nat>, dialer: bool, planned: seq<Dir>)
    requires PeerOk(e, dialer, planned) && e.reader == Reader.Hand(Fds(payload, after))
    requires e.offered + |DecodeFds(payload)| <= |planned|
    requires DecodeFds(payload) == Plan(dialer, e.offered, planned[e.offered..e.offered + |DecodeFds(payload)|])
    ensures PeerOk(HandleFds(e, payload, after), dialer, planned)
  {
  }

  lemma {:induction false} FdsSurfaced(e: End, payload: Bytes, after: map<nat, nat>, dialer: bool, started: int)
    requires SurfacedOk(e, dialer, started) && e.reader == Reader.Hand(Fds(payload, after))
    ensures SurfacedOk(HandleFds(e, payload, after), dialer, started)
  {
    CtrlGrows(e.ctrl, e.announced, dialer, e.offered, started, Taken(HandleFds(e, payload, after)), started);
  }

  /** Every stream that data may name has been opened by then. */
  lemma TrafficKnown(e: End, other: End, orderly: bool, f: Frame)
    requires SideOk(e, other, orderly) && other.dialer == !e.dialer && e.reader == Reader.Hand(f)
      && (f.Data? || f.Close?)
    requires FrameSays(e, other, f, orderly)
    ensures f.id !in e.lastSink ==> !Own(other.dialer, f.id) && !orderly
  {
    var n := f.id / 2;
    if Own(other.dialer, f.id) {
      IdIs(other.dialer, n);
      assert f.id == IdOf(other.dialer, n);
    } else {
      IdIs(e.dialer, n);
      assert f.id == IdOf(e.dialer, n);
    }
  }

  lemma DataSide(e: End, other: End, orderly: bool, id: u32, bytes: Bytes)
    requires SideOk(e, other, orderly) && e.reader == Reader.Hand(Data(id, bytes))
    requires id !in e.lastSink ==> !Own(other.dialer, id) && !orderly
    ensures SideOk(HandleData(e, id, bytes), other, orderly)
  {
    var e' := HandleData(e, id, bytes);
    SideButUnrouted(e, e', other, orderly);
  }

  lemma CloseSide(e: End, other: End, orderly: bool, id: u32)
    requires SideOk(e, other, orderly) && e.reader == Reader.Hand(Close(id))
    requires id !in e.lastSink ==> !Own(other.dialer, id) && !orderly
    ensures SideOk(HandleClose(e, id), other, orderly)
  {
    var e' := HandleClose(e, id);
    SideButUnrouted(e, e', other, orderly);
  }

  lemma SideButUnrouted(e: End, e': End, other: End, orderly: bool)
    requires SideOk(e, other, orderly) && SameHands(e, e') && SameSockets(e, e') && SameSources(e, e')
    requires RestOf(e'.reader) == RestOf(e.reader) && !e.reader.Stopped?
    requires ReaderFits(e'.reader, other.dialer, Taken(e), Started(other))
    requires forall x :: x in e'.unrouted ==> x in e.unrouted || (!Own(other.dialer, x) && !orderly)
    ensures SideOk(e', other, orderly)
  {
    SideSame(e, e'.(unrouted := e.unrouted), other, orderly);
  }

  lemma HelloHandsOff(e: End, verdict: Verdict)
    ensures HandsOff(e, HandleHello(e, verdict))
  {
  }

  lemma WindowHandsOff(e: End, id: u32, amount: u32)
    ensures HandsOff(e, HandleWindow(e, id, amount))
  {
  }

  lemma FrameCounts(e: End, f: Frame)
    requires e.reader == Reader.Hand(f)
    ensures HandleFrame(e, f).offered == e.offered + Named(f) && InHand(HandleFrame(e, f).reader) == []
  {
    match f
    case Hello(_) | Control(_, _, _) | Fds(_, _) | Data(_, _) | Close(_) | Window(_, _) | Unknown =>
  }

  lemma {:induction false} FrameSide(e: End, other: End, orderly: bool, f: Frame)
    requires SideOk(e, other, orderly) && other.dialer == !e.dialer && e.reader == Reader.Hand(f)
    requires FrameSays(e, other, f, orderly)
    ensures SideOk(HandleFrame(e, f), other, orderly)
  {
    match f
    case Fds(payload, after) => FdsSide(e, other, orderly, payload, after);
    case Data(id, bytes) => TrafficKnown(e, other, orderly, f); DataSide(e, other, orderly, id, bytes);
    case Close(id) => TrafficKnown(e, other, orderly, f); CloseSide(e, other, orderly, id);
    case Hello(payload) =>
      HelloHandsOff(e, HelloVerdict(e.peerWindowed, payload));
      SideSame(e, HandleFrame(e, f), other, orderly);
    case Window(id, amount) => WindowHandsOff(e, id, amount); SideSame(e, HandleFrame(e, f), other, orderly);
    case Control(_, _, _) | Unknown => SideSame(e, HandleFrame(e, f), other, orderly);
  }

  lemma {:induction false} FrameIsNext(s: Sys, f: Frame)
    requires FlowOk(s.b, s.a, OnTheWay(Swap(s)), s.orderly) && s.a.reader == Reader.Hand(f)
    ensures FrameSays(s.a, s.b, f, s.orderly)
    ensures FlowOk(s.b, s.a.(offered := s.a.offered + Named(f)), s.ba + s.b.queue, s.orderly)
  {
    HandFirst(s, f);
    NextSays(s.a, s.b, OnTheWay(Swap(s)), f, s.ba + s.b.queue, s.orderly);
  }

  lemma HandFirst(s: Sys, f: Frame)
    requires s.a.reader == Reader.Hand(f)
    ensures OnTheWay(Swap(s)) == [f] + (s.ba + s.b.queue)
  {
  }

  lemma {:induction false} NextSays(e: End, other: End, fs: seq<Frame>, f: Frame, rest: seq<Frame>, orderly: bool)
    requires FlowOk(other, e, fs, orderly) && fs == [f] + rest
    ensures FrameSays(e, other, f, orderly)
    ensures FlowOk(other, e.(offered := e.offered + Named(f)), rest, orderly)
  {
    FlowHead(other, e, f, rest, orderly);
  }

  lemma FrameFlow(s: Sys, a': End, f: Frame)
    requires FlowOk(s.a, s.b, OnTheWay(s), s.orderly) && FlowOk(s.b, s.a, OnTheWay(Swap(s)), s.orderly)
    requires s.a.reader == Reader.Hand(f) && MovedOn(s.a, a') && a'.planned == s.a.planned && |s.b.planned| <= IDS
    requires a'.offered == s.a.offered + Named(f) && Started(a') == Started(s.a)
    ensures FlowOk(a', s.b, OnTheWay(s), s.orderly) && FlowOk(s.b, a', s.ba + s.b.queue, s.orderly)
  {
    FrameIsNext(s, f);
    FlowGrows(s.a, s.b, OnTheWay(s), s.orderly, a', s.b);
    FlowGrows(s.b, s.a.(offered := s.a.offered + Named(f)), s.ba + s.b.queue, s.orderly, s.b, a');
  }

  lemma HandedByFrame(s: Sys, s': Sys, f: Frame)
    requires Handed(s) && s'.b == s.b && s'.orderly == s.orderly && s'.ab == s.ab && s'.ba == s.ba
    requires s.a.reader == Reader.Hand(f) && InHand(s'.a.reader) == [] && ReaderLeaves(s.a, s'.a)
    requires SideOk(s'.a, s.b, s.orderly) && s'.a.offered == s.a.offered + Named(f)
    ensures Handed(s')
  {
    FrameFlow(s, s'.a, f);
    SideGrows(s.b, s.a, s'.a, s.orderly);
    HandEmptied(s, s');
  }

  lemma HandEmptied(s: Sys, s': Sys)
    requires s'.b == s.b && s'.ab == s.ab && s'.ba == s.ba && s'.a.queue == s.a.queue && InHand(s'.a.reader) == []
    ensures OnTheWay(s') == OnTheWay(s) && OnTheWay(Swap(s')) == s.ba + s.b.queue
  {
    assert [] + s.ba + s.b.queue == s.ba + s.b.queue;
  }

  lemma InspectHands(s: Sys, f: Frame)
    requires Handed(s) && EnabledA(s, Reads(Inspect)) && s.a.reader == Reader.Hand(f)
    ensures Handed(StepA(s, Reads(Inspect)))
  {
    assert s.ab + [] == s.ab;
    FrameIsNext(s, f);
    FrameSide(s.a, s.b, s.orderly, f);
    FrameCounts(s.a, f);
    FrameLeaves(s.a, f);
    HandedByFrame(s, StepA(s, Reads(Inspect)), f);
  }

  // ---- a descriptor is opened ----------------------------------------------------------------------

  lemma OpenPeer(e: End, h: Handle, spec: Spec, rest: seq<Spec>, done: seq<u32>, after: map<nat, nat>, other: End)
    requires PeerOk(e, other.dialer, other.planned) && e.reader == Materializing([spec] + rest, done, after)
    requires h == spec.id && Fresh(e, h) && Own(other.dialer, h) && h / 2 == Taken(e)
    requires spec == Spec(IdOf(other.dialer, Taken(e)), other.planned[Taken(e)])
    requires rest == Plan(other.dialer, Taken(e) + 1, other.planned[Taken(e) + 1..e.offered])
    ensures PeerOk(DoMaterialize(e, h), other.dialer, other.planned)
  {
  }

  lemma OpenOwner(e: End, h: Handle)
    requires OwnerOk(e) && ReaderEnabled(e, Materialize(h)) && !Own(e.dialer, h)
    ensures OwnerOk(DoMaterialize(e, h))
  {
  }

  lemma OpenSurfaced(e: End, h: Handle, spec: Spec, rest: seq<Spec>, done: seq<u32>, after: map<nat, nat>,
                     dialer: bool, started: int)
    requires SurfacedOk(e, dialer, started) && e.reader == Materializing([spec] + rest, done, after) && Fresh(e, h)
    requires spec.id / 2 == Taken(e)
    ensures SurfacedOk(DoMaterialize(e, h), dialer, started)
  {
    CtrlGrows(e.ctrl, e.announced, dialer, Taken(e), started, Taken(e) + 1, started);
    assert IdSet(done + [spec.id]) == IdSet(done) + {spec.id};
  }

  /** The next descriptor to open is the next one the other end planned. */
  lemma NextOffer(e: End, other: End, spec: Spec, rest: seq<Spec>, done: seq<u32>, after: map<nat, nat>)
    requires PeerOk(e, other.dialer, other.planned) && e.reader == Materializing([spec] + rest, done, after)
    ensures var m := Taken(e);
            && 0 <= m < e.offered && spec == Spec(IdOf(other.dialer, m), other.planned[m])
            && rest == Plan(other.dialer, m + 1, other.planned[m + 1..e.offered])
            && Own(other.dialer, spec.id) && !Own(!other.dialer, spec.id) && spec.id / 2 == m
  {
    var m := Taken(e);
    var dirs := other.planned[m..e.offered];
    PlanHead(other.dialer, m, dirs);
    assert ([spec] + rest)[0] == spec && ([spec] + rest)[1..] == rest;
    assert dirs[1..] == other.planned[m + 1..e.offered];
    IdIs(other.dialer, m);
  }

  lemma OpenSide(e: End, other: End, orderly: bool, h: Handle, spec: Spec, rest: seq<Spec>, done: seq<u32>,
          after: map<nat, nat>)
    requires SideOk(e, other, orderly) && other.dialer == !e.dialer
    requires e.reader == Materializing([spec] + rest, done, after) && Fresh(e, h) && h == spec.id
    ensures SideOk(DoMaterialize(e, h), other, orderly)
  {
    NextOffer(e, other, spec, rest, done, after);
    OpenPeer(e, h, spec, rest, done, after, other);
    OpenOwner(e, h);
    OpenSurfaced(e, h, spec, rest, done, after, other.dialer, Started(other));
  }

  lemma {:induction false} OpenHands(s: Sys, h: Handle, spec: Spec, rest: seq<Spec>, done: seq<u32>, after: map<nat,
          nat>)
    requires Handed(s) && EnabledA(s, Reads(Materialize(h))) && s.a.reader == Materializing([spec] + rest, done, after)
    ensures Handed(StepA(s, Reads(Materialize(h))))
  {
    assert s.ab + [] == s.ab;
    OpenSide(s.a, s.b, s.orderly, h, spec, rest, done, after);
    HandedByOwnStep(s, StepA(s, Reads(Materialize(h))));
  }

  lemma ReaderHands(s: Sys, r: ReaderStep)
    requires Handed(s) && EnabledA(s, Reads(r))
    ensures Handed(StepA(s, Reads(r)))
  {
    match r
    case Receive(f) => assert s.ba == [f] + s.ba[1..]; ReceiveFrameHands(s, f, s.ba[1..]);
    case Inspect => InspectHands(s, s.a.reader.frame);
    case Materialize(h) =>
      var m := s.a.reader;
      assert m.rest == [m.rest[0]] + m.rest[1..];
      OpenHands(s, h, m.rest[0], m.rest[1..], m.done, m.after);
    case MaterializeFails => FailHands(s);
    case Surface => SurfaceHands(s, s.a.reader.item);
    case Count | Deliver | Owe | FinishFds | Shutdown => QuietReaderHands(s, r);
  }

  // ---- every step ----------------------------------------------------------------------------------

  lemma StepHands(s: Sys, step: Step)
    requires Handed(s) && Sound(s) && EnabledA(s, step)
    ensures Handed(StepA(s, step))
  {
    match step
    case Writer(w) => WriterHands(s, w);
    case Reads(r) => ReaderHands(s, r);
    case App(m) => AppHands(s, m);
    case Pump(h, p) =>
      QuietStep(s, step);
      assert OutOk(s.a.outs[h], s.a.closed, s.a.peerWindowed);
      PumpHands(s, h, s.a.outs[h], p);
    case Drain(h, k) => SinkHands(s, h, s.a.sinks[h], k);
  }

  lemma HandedBothWays(s: Sys)
    requires Handed(s)
    ensures Handed(Swap(s))
  {
    assert Swap(Swap(s)) == s;
  }

  lemma NextHands(s: Sys, l: Label)
    requires Handed(s) && Sound(s) && EnabledIn(s, l)
    ensures Handed(Next(s, l))
  {
    if l.atA {
      StepHands(s, l.step);
    } else {
      HandedBothWays(s);
      StepHands(Swap(s), l.step);
      HandedBothWays(StepA(Swap(s), l.step));
    }
  }
}
