/** What an abandoned sink does to the credit: when it grants a frame twice, and
    when its grant is too small for what it holds. Both are about one end, whatever
    its peer sends. */
module Abandoning {
  import opened ByteStrings
  import opened Proto
  import opened Credit
  import opened Wire
  import opened Endpoint
  import opened EndpointLaws

  // ---- granted twice -----------------------------------------------------------------------

  function ExcessAt(e: End, h: Handle): nat {
    if h in e.sinks then e.sinks[h].excess else 0
  }

  /** The reader hands over a frame that was counted before `abandon` read the
      counter, to a pump that has let go of its queue since. */
  predicate CaughtTwice(e: End, step: Step, h: Handle) {
    step == Reads(Deliver) && e.reader.Counted? && e.reader.h == h && e.reader.early
    && h in e.sinks && !e.sinks[h].phase.Live?
  }

  /** Credit is granted twice by exactly that step, and by what the frame costs. */
  lemma ExcessRises(e: End, step: Step, h: Handle)
    requires Enabled(e, step)
    ensures ExcessAt(Apply(e, step), h) == ExcessAt(e, h) + if CaughtTwice(e, step, h) then Cost(e.reader.bytes) else 0
  {
    match step
    case Writer(w) => assert Apply(e, step).sinks == e.sinks by { WriterKeepsSinks(e, w); }
    case Reads(r) => ExcessByReader(e, r, h);
    case App(a) => ExcessByApp(e, a, h);
    case Pump(g, p) => assert ApplyPump(e, g, p).sinks == e.sinks;
    case Drain(g, k) => ExcessBySink(e, g, e.sinks[g], k, h);
  }

  lemma WriterKeepsSinks(e: End, w: WriterStep)
    requires WriterEnabled(e, w)
    ensures ApplyWriter(e, w).sinks == e.sinks
  {
  }

  lemma ExcessBySink(e: End, g: Handle, k: Sink, s: SinkStep, h: Handle)
    requires g in e.sinks && e.sinks[g] == k && SinkEnabled(e, g, k, s)
    ensures ExcessAt(ApplySink(e, g, s), h) == ExcessAt(e, h)
  {
    assert SinkNext(k, e.window, e.peerWindowed, s).excess == k.excess;
  }

  lemma ExcessByOpen(e: End, g: Handle, id: u32, dir: Dir, socket: bool, h: Handle)
    requires Fresh(e, g)
    ensures ExcessAt(OpenPumps(e, g, id, dir, socket), h) == ExcessAt(e, h)
  {
  }

  lemma ExcessByApp(e: End, a: AppStep, h: Handle)
    requires AppEnabled(e, a)
    ensures ExcessAt(ApplyApp(e, a), h) == ExcessAt(e, h)
  {
    match a
    case StartPump(g) => ExcessByOpen(e, g, e.starting[0].id, e.starting[0].dir, false, h);
    case AppReceive | BeginSend(_, _, _) | Aim(_) | Pass(_) | QueueMessage(_) | CloseFlow =>
      assert ApplyApp(e, a).sinks == e.sinks;
  }

  lemma ExcessByFrame(e: End, f: Frame, h: Handle)
    ensures ExcessAt(HandleFrame(e, f), h) == ExcessAt(e, h)
  {
    match f
    case Close(id) =>
    case Hello(_) | Control(_, _, _) | Fds(_, _) | Data(_, _) | Window(_, _) | Unknown =>
      assert HandleFrame(e, f).sinks == e.sinks;
  }

  lemma ExcessByReader(e: End, r: ReaderStep, h: Handle)
    requires ReaderEnabled(e, r)
    ensures ExcessAt(ApplyReader(e, r), h)
         == ExcessAt(e, h) + if CaughtTwice(e, Reads(r), h) then Cost(e.reader.bytes) else 0
  {
    match r
    case Inspect => ExcessByFrame(e, e.reader.frame, h);
    case Materialize(g) => ExcessByOpen(e, g, e.reader.rest[0].id, e.reader.rest[0].dir.Invert(), true, h);
    case Count | Deliver =>
    case Receive(_) | Owe | MaterializeFails | FinishFds | Surface | Shutdown =>
      assert ApplyReader(e, r).sinks == e.sinks;
  }

  /** Some step of the run caught a frame twice. */
  predicate EverCaught(e: End, steps: seq<Step>, h: Handle)
    decreases |steps|
  {
    steps != [] && Enabled(e, steps[0])
    && (CaughtTwice(e, steps[0], h) || EverCaught(Apply(e, steps[0]), steps[1..], h))
  }

  /** So a run grants credit twice exactly if it caught a frame that way. */
  lemma {:induction false} TwiceExactlyIfCaught(e: End, steps: seq<Step>, last: End, h: Handle)
    requires Runs(e, steps, last)
    ensures ExcessAt(e, h) <= ExcessAt(last, h)
    ensures ExcessAt(e, h) < ExcessAt(last, h) <==> EverCaught(e, steps, h)
    decreases |steps|
  {
    if steps != [] {
      ExcessRises(e, steps[0], h);
      TwiceExactlyIfCaught(Apply(e, steps[0]), steps[1..], last, h);
    }
  }

  // ---- a grant that is too small -------------------------------------------------------------

  ghost predicate Reaches(d: bool, w: u32, e: End) {
    exists steps: seq<Step> :: Runs(NewEnd(d, w), steps, e)
  }

  lemma {:induction false} RunsOn(e: End, steps: seq<Step>, last: End, step: Step)
    requires Runs(e, steps, last) && Enabled(last, step)
    ensures Runs(e, steps + [step], Apply(last, step))
    decreases |steps|
  {
    if steps == [] {
      assert steps + [step] == [step] && [step][1..] == [];
    } else {
      assert (steps + [step])[0] == steps[0] && (steps + [step])[1..] == steps[1..] + [step];
      RunsOn(Apply(e, steps[0]), steps[1..], last, step);
    }
  }

  lemma Goes(d: bool, w: u32, e: End, step: Step, e': End)
    requires Reaches(d, w, e) && Enabled(e, step) && e' == Apply(e, step)
    ensures Reaches(d, w, e')
  {
    var steps :| Runs(NewEnd(d, w), steps, e);
    RunsOn(NewEnd(d, w), steps, e, step);
  }

  /** The end's first stream. */
  function First(d: bool): u32 {
    if d then 0 else 1
  }

  /** The peer has said Hello with a window of its own. */
  function Windowed(d: bool, w: u32): End {
    NewEnd(d, w).(peerWindowed := true, peerWindow := 1)
  }

  /** The end has delegated one descriptor that it writes: `k` is its sink. */
  function Receiving(d: bool, w: u32, k: Sink, r: Reader): End {
    var i := First(d);
    Windowed(d, w).(planned := [Dir.Write], queue := [Fds(EncodeFds([Spec(i, Dir.Write)]), map[])],
                   sinks := map[i as nat := k], routes := map[i := i as nat], lastSink := map[i := i as nat],
                   reader := r)
  }

  lemma Greets(d: bool, w: u32)
    ensures Reaches(d, w, Windowed(d, w))
  {
    var e0, hello := NewEnd(d, w), Hello(HelloPayload(1));
    assert Runs(e0, [], e0);
    Goes(d, w, e0, Reads(Receive(hello)), e0.(reader := Reader.Hand(hello)));
    HelloIsTaken(1, []);
    assert HelloPayload(1) + [] == HelloPayload(1);
    var e1 := e0.(reader := Reader.Hand(hello));
    assert HandleFrame(e1, hello).outs == map[];
    Goes(d, w, e1, Reads(Inspect), Windowed(d, w));
  }

  lemma Opens(d: bool, w: u32)
    ensures Reaches(d, w, Receiving(d, w, NewSink(First(d)), Idle))
  {
    Greets(d, w);
    var e0, spec := Windowed(d, w), Spec(First(d), Dir.Write);
    assert SocketStreams(e0) == {} && Offered(e0) == map[];
    var e1 := e0.(tasks := map[MAIN := Task(Delegate([Dir.Write]), [], None, map[])]);
    Goes(d, w, e0, App(BeginSend(MAIN, Delegate([Dir.Write]), [])), e1);
    assert Plan(d, 0, [Dir.Write]) == [spec] && e1.tasks - {MAIN} == map[];
    var e2 := e0.(planned := [Dir.Write], starting := [spec], queue := [Fds(EncodeFds([spec]), map[])]);
    Goes(d, w, e1, App(QueueMessage(MAIN)), e2);
    OpensSink(d, w, e2, spec);
  }

  lemma OpensSink(d: bool, w: u32, e: End, spec: Spec)
    requires Reaches(d, w, e) && spec == Spec(First(d), Dir.Write)
    requires e == Windowed(d, w).(planned := [Dir.Write], starting := [spec], queue := [Fds(EncodeFds([spec]), map[])])
    ensures Reaches(d, w, Receiving(d, w, NewSink(First(d)), Idle))
  {
    var i: nat := First(d);
    assert e.starting[1..] == [];
    assert e.sinks[i := NewSink(First(d))] == map[i := NewSink(First(d))];
    assert e.routes[First(d) := i] == map[First(d) := i] && e.lastSink[First(d) := i] == map[First(d) := i];
    Goes(d, w, e, App(StartPump(i)), Receiving(d, w, NewSink(First(d)), Idle));
  }

  // ---- frames in, frames out ---------------------------------------------------------------------

  predicate Open(d: bool, k: Sink) {
    k.id == First(d) && k.phase.Live? && !k.closeSeen
  }

  lemma TakesFrame(d: bool, w: u32, k: Sink, bytes: Bytes)
    requires Reaches(d, w, Receiving(d, w, k, Idle)) && Open(d, k)
    requires |bytes| <= PUMP_BUF && k.queued + Cost(bytes) <= QueueLimit(w)
    ensures Reaches(d, w, Receiving(d, w, k.(queued := k.queued + Cost(bytes)),
      Counted(First(d), First(d), bytes, true)))
  {
    var i, f := First(d), Data(First(d), bytes);
    var k1 := k.(queued := k.queued + Cost(bytes));
    Goes(d, w, Receiving(d, w, k, Idle), Reads(Receive(f)), Receiving(d, w, k, Reader.Hand(f)));
    Goes(d, w, Receiving(d, w, k, Reader.Hand(f)), Reads(Inspect), Receiving(d, w, k, Room(i, i, bytes)));
    var e := Receiving(d, w, k, Room(i, i, bytes));
    assert e.sinks[i as nat := k1] == map[i as nat := k1];
    Goes(d, w, e, Reads(Count), Receiving(d, w, k1, Counted(i, i, bytes, true)));
  }

  lemma QueuesFrame(d: bool, w: u32, k: Sink, bytes: Bytes)
    requires Reaches(d, w, Receiving(d, w, k, Idle)) && Open(d, k)
    requires |bytes| <= PUMP_BUF && k.queued + Cost(bytes) <= QueueLimit(w)
    ensures Reaches(d, w, Receiving(d, w, k.(queued := k.queued + Cost(bytes), inq := k.inq + [Payload(bytes)]), Idle))
  {
    TakesFrame(d, w, k, bytes);
    var i: nat := First(d);
    var k1 := k.(queued := k.queued + Cost(bytes));
    var k2 := k1.(inq := k.inq + [Payload(bytes)]);
    var e := Receiving(d, w, k1, Counted(i, First(d), bytes, true));
    assert e.sinks[i := k2] == map[i := k2];
    Goes(d, w, e, Reads(Deliver), Receiving(d, w, k2, Idle));
  }

  lemma Drains(d: bool, w: u32, k: Sink, s: SinkStep, k': Sink)
    requires Reaches(d, w, Receiving(d, w, k, Idle)) && k.id == First(d) && SinkCan(k, s)
    requires s.Take? || s.Write? || s.Consumed? || s.AbandonClose? || s.AbandonLoad?
    requires k' == SinkNext(k, w, true, s)
    ensures Reaches(d, w, Receiving(d, w, k', Idle))
  {
    var i: nat := First(d);
    var e := Receiving(d, w, k, Idle);
    assert e.sinks[i := k'] == map[i := k'] && e.queue + [] == e.queue;
    Goes(d, w, e, Drain(i, s), Receiving(d, w, k', Idle));
  }

  function WrittenOut(k: Sink, bytes: Bytes, rest: seq<StreamMsg>): Sink
    requires Cost(bytes) <= k.queued
  {
    k.(inq := rest, queued := k.queued - Cost(bytes), ungranted := k.ungranted + Cost(bytes),
       written := k.written + bytes)
  }

  /** A frame is written out while another waits behind it, so its credit is kept
      for a later grant. */
  lemma WritesOut(d: bool, w: u32, k: Sink, bytes: Bytes, rest: seq<StreamMsg>)
    requires Reaches(d, w, Receiving(d, w, k, Idle)) && Open(d, k) && Between(k)
    requires k.inq == [Payload(bytes)] + rest && rest != [] && bytes != [] && Cost(bytes) <= k.queued && k.off == 0
    requires k.ungranted + Cost(bytes) < w / 4
    ensures Reaches(d, w, Receiving(d, w, WrittenOut(k, bytes, rest), Idle))
  {
    var k1 := k.(inq := rest, held := Some(bytes));
    assert k.inq[1..] == rest;
    Drains(d, w, k, SinkStep.Take, k1);
    var k2 := k1.(off := |bytes|, written := k.written + bytes);
    assert bytes[0..|bytes|] == bytes;
    Drains(d, w, k1, SinkStep.Write(|bytes|), k2);
    Drains(d, w, k2, SinkStep.Consumed(false), WrittenOut(k, bytes, rest));
  }

  // ---- exact amounts -----------------------------------------------------------------------------

  function Zeros(n: nat): (bytes: Bytes)
    ensures |bytes| == n
  {
    seq(n, i => 0)
  }

  const LEAST: nat := MUX_HEADER + 1

  /** The cost of the next of the frames that cost `n` together. */
  function Slice(n: nat): (cost: nat)
    requires n >= LEAST
    ensures LEAST <= cost <= MIN_STREAM_FRAME && cost <= n && (n - cost == 0 || n - cost >= LEAST)
  {
    if n <= MIN_STREAM_FRAME then n
    else if n - MIN_STREAM_FRAME >= LEAST then MIN_STREAM_FRAME else MIN_STREAM_FRAME - LEAST
  }

  function FrameOf(cost: nat): Bytes {
    Zeros(if cost >= MUX_HEADER then cost - MUX_HEADER else 0)
  }

  /** An open sink with one frame in its queue. */
  function Busy(d: bool, cost: nat, ungranted: nat, written: Bytes): Sink {
    NewSink(First(d)).(inq := [Payload(FrameOf(cost))], queued := cost, ungranted := ungranted, written := written)
  }

  /** Frames that cost `n` together are written out, and all their credit is kept. */
  lemma {:induction false} KeepsCredit(d: bool, w: u32, n: nat, ungranted: nat, written: Bytes) returns (out: Bytes)
    requires n >= LEAST && ungranted + n < w / 4
    requires Reaches(d, w, Receiving(d, w, Busy(d, Slice(n), ungranted, written), Idle))
    ensures Reaches(d, w, Receiving(d, w, Busy(d, LEAST, ungranted + n, out), Idle))
    decreases n
  {
    var cost := Slice(n);
    var next := if n == cost then LEAST else Slice(n - cost);
    PassesOn(d, w, cost, next, ungranted, written);
    out := written + FrameOf(cost);
    if n != cost { out := KeepsCredit(d, w, n - cost, ungranted + cost, out); }
  }

  lemma PassesOn(d: bool, w: u32, cost: nat, next: nat, ungranted: nat, written: Bytes)
    requires LEAST <= cost <= MIN_STREAM_FRAME && LEAST <= next <= MIN_STREAM_FRAME && ungranted + cost < w / 4
    requires Reaches(d, w, Receiving(d, w, Busy(d, cost, ungranted, written), Idle))
    ensures Reaches(d, w, Receiving(d, w, Busy(d, next, ungranted + cost, written + FrameOf(cost)), Idle))
  {
    var k := Busy(d, cost, ungranted, written);
    QueuesFrame(d, w, k, FrameOf(next));
    var k1 := k.(queued := cost + next, inq := [Payload(FrameOf(cost))] + [Payload(FrameOf(next))]);
    WritesOut(d, w, k1, FrameOf(cost), [Payload(FrameOf(next))]);
    assert k1.(inq := [Payload(FrameOf(next))], queued := next, ungranted := ungranted + cost,
      written := written + FrameOf(cost))
        == Busy(d, next, ungranted + cost, written + FrameOf(cost));
  }

  /** Frames that cost `n` together fill the queue. */
  lemma {:induction false} FillsQueue(d: bool, w: u32, k: Sink, n: nat) returns (inq: seq<StreamMsg>)
    requires n == 0 || n >= LEAST
    requires Reaches(d, w, Receiving(d, w, k, Idle)) && Open(d, k) && k.queued + n <= QueueLimit(w)
    ensures Reaches(d, w, Receiving(d, w, k.(queued := k.queued + n, inq := inq), Idle))
    decreases n
  {
    if n == 0 {
      inq := k.inq;
    } else {
      var cost := Slice(n);
      QueuesFrame(d, w, k, FrameOf(cost));
      inq := FillsQueue(d, w, k.(queued := k.queued + cost, inq := k.inq + [Payload(FrameOf(cost))]), n - cost);
    }
  }

  /** For every window above MAX_EXACT_WINDOW there is a run in which the grant of an
      abandoned sink is as much too small as it can be: just short of a quarter
      window is written out and not granted, and the queue is full. */
  lemma AbandonLosesCredit(d: bool, w: u32) returns (e: End)
    requires MAX_EXACT_WINDOW < w <= MAX_WINDOW
    ensures Reaches(d, w, e) && First(d) as nat in e.sinks
    ensures e.sinks[First(d) as nat].lost == w / 4 - 1 + QueueLimit(w) - U32_MAX > 0
  {
    Opens(d, w);
    var n, limit := w / 4 - 1, QueueLimit(w);
    var k0 := NewSink(First(d));
    QueuesFrame(d, w, k0, FrameOf(Slice(n)));
    assert [] + [Payload(FrameOf(Slice(n)))] == [Payload(FrameOf(Slice(n)))];
    assert k0.(queued := Slice(n), inq := [Payload(FrameOf(Slice(n)))]) == Busy(d, Slice(n), 0, []);
    var written := KeepsCredit(d, w, n, 0, []);
    var inq := FillsQueue(d, w, Busy(d, LEAST, n, written), limit - LEAST);
    e := Abandons(d, w, Busy(d, LEAST, n, written).(queued := limit, inq := inq));
  }

  lemma Abandons(d: bool, w: u32, k: Sink) returns (e: End)
    requires Reaches(d, w, Receiving(d, w, k, Idle)) && Open(d, k) && k.pending.None?
      && k.ungranted + k.queued > U32_MAX
    ensures Reaches(d, w, e) && First(d) as nat in e.sinks
    ensures e.sinks[First(d) as nat].lost == k.ungranted + k.queued - U32_MAX
  {
    var k1 := SinkNext(k, w, true, AbandonClose);
    Drains(d, w, k, AbandonClose, k1);
    var k2 := SinkNext(k1, w, true, AbandonLoad);
    Drains(d, w, k1, AbandonLoad, k2);
    e := Receiving(d, w, k2, Idle);
  }

  /** The grant of an abandoned sink is exact on every run, against every peer, for
      exactly the windows up to MAX_EXACT_WINDOW. */
  lemma AbandonIsExactUpTo(d: bool, w: u32)
    requires ValidWindow(w)
    ensures (forall e: End, h: Handle :: Reaches(d, w, e) && h in e.sinks ==> e.sinks[h].lost == 0)
      <==> w <= MAX_EXACT_WINDOW
  {
    if w > MAX_EXACT_WINDOW {
      var e := AbandonLosesCredit(d, w);
    } else {
      forall e: End, h: Handle | Reaches(d, w, e) && h in e.sinks
        ensures e.sinks[h].lost == 0
      {
        NothingLost(d, w, e, h);
      }
    }
  }

  lemma NothingLost(d: bool, w: u32, e: End, h: Handle)
    requires Reaches(d, w, e) && h in e.sinks && w <= MAX_EXACT_WINDOW
    ensures e.sinks[h].lost == 0
  {
    var steps :| Runs(NewEnd(d, w), steps, e);
    StartsOk(d, w);
    RunOk(NewEnd(d, w), steps, e);
    WindowStays(NewEnd(d, w), steps, e);
    assert SinkOk(e.sinks[h], e.window, e.peerWindowed, HalfQueued(e.reader, h));
  }

  lemma {:induction false} WindowStays(e: End, steps: seq<Step>, last: End)
    requires Runs(e, steps, last)
    ensures last.window == e.window
    decreases |steps|
  {
    if steps != [] {
      WindowStaysByStep(e, steps[0]);
      WindowStays(Apply(e, steps[0]), steps[1..], last);
    }
  }

  lemma WindowStaysByStep(e: End, step: Step)
    requires Enabled(e, step)
    ensures Apply(e, step).window == e.window
  {
    match step
    case Writer(w) => WindowStaysByWriter(e, w);
    case Reads(r) => WindowStaysByReader(e, r);
    case App(a) => WindowStaysByApp(e, a);
    case Pump(h, p) => assert ApplyPump(e, h, p).window == e.window;
    case Drain(h, k) => assert ApplySink(e, h, k).window == e.window;
  }

  lemma WindowStaysByWriter(e: End, w: WriterStep)
    requires WriterEnabled(e, w)
    ensures ApplyWriter(e, w).window == e.window
  {
  }

  lemma WindowStaysByApp(e: End, a: AppStep)
    requires AppEnabled(e, a)
    ensures ApplyApp(e, a).window == e.window
  {
    match a
    case AppReceive | BeginSend(_, _, _) | Aim(_) | Pass(_) | QueueMessage(_) | StartPump(_) | CloseFlow =>
  }

  lemma WindowStaysByReader(e: End, r: ReaderStep)
    requires ReaderEnabled(e, r)
    ensures ApplyReader(e, r).window == e.window
  {
    match r
    case Inspect => WindowStaysByFrame(e, e.reader.frame);
    case Receive(_) | Count | Deliver | Owe | Materialize(_) | MaterializeFails | FinishFds | Surface | Shutdown =>
  }

  lemma WindowStaysByFrame(e: End, f: Frame)
    ensures HandleFrame(e, f).window == e.window
  {
    match f
    case Hello(_) | Control(_, _, _) | Fds(_, _) | Data(_, _) | Close(_) | Window(_, _) | Unknown =>
  }
}
