/** Why RestRestoresEveryWindow asks for streams opened after Hello: a run in which
    both ends send before it, and end up each waiting for the other. */
module Deadlock {
  import opened ByteStrings
  import opened Proto
  import opened Credit
  import opened Wire
  import opened Endpoint
  import opened EndpointLaws
  import opened Session
  import opened Settling
  import opened AtRestLaws
  import opened Counterexamples

  /** The session with one end, `e`, in view: the dialer if `d`. The channel `eo`
      leads away from it, `oe` towards it. */
  function At(d: bool, e: End, o: End, eo: seq<Frame>, oe: seq<Frame>): Sys {
    if d then Sys(e, o, eo, oe, 1, false) else Sys(o, e, oe, eo, 1, false)
  }

  lemma GoesAt(d: bool, e: End, o: End, eo: seq<Frame>, oe: seq<Frame>, step: Step, e': End, eo': seq<Frame>,
          oe': seq<Frame>)
    requires Reachable(At(d, e, o, eo, oe)) && EnabledA(Sys(e, o, eo, oe, 1, false), step)
    requires Sys(e', o, eo', oe', 1, false) == StepA(Sys(e, o, eo, oe, 1, false), step)
    ensures Reachable(At(d, e', o, eo', oe'))
  {
    Goes(At(d, e, o, eo, oe), Label(d, step));
  }

  /** Steps of one end that touch neither channel. */
  lemma GoesAlone(d: bool, e: End, o: End, eo: seq<Frame>, oe: seq<Frame>, step: Step, e': End)
    requires Reachable(At(d, e, o, eo, oe)) && EnabledA(Sys(e, o, eo, oe, 1, false), step)
    requires !step.Writer? && !Receives(step) && e' == Apply(e, step)
    ensures Reachable(At(d, e', o, eo, oe))
  {
    assert eo + [] == eo;
    GoesAt(d, e, o, eo, oe, step, e', eo, oe);
  }

  lemma Writes(d: bool, e: End, o: End, oe: seq<Frame>, f: Frame, rest: seq<Frame>)
    requires Reachable(At(d, e, o, [], oe)) && e.queue == [f] + rest && e.helloSent && e.flushing == map[]
    ensures Reachable(At(d, e.(queue := rest), o, [f], oe))
  {
    GoesAt(d, e, o, [], oe, Writer(WriteQueued), e.(queue := rest), [f], oe);
  }

  lemma Takes(d: bool, e: End, o: End, eo: seq<Frame>, f: Frame)
    requires Reachable(At(d, e, o, eo, [f])) && e.reader.Idle? && (f.Data? ==> |f.bytes| <= MAX_FRAME_PAYLOAD)
    ensures Reachable(At(d, e.(reader := Reader.Hand(f)), o, eo, []))
  {
    assert eo + [] == eo;
    GoesAt(d, e, o, eo, [f], Reads(Receive(f)), e.(reader := Reader.Hand(f)), eo, []);
  }

  // ---- what each end does ------------------------------------------------------------------

  const TINY: u32 := 1

  /** Each end delegates one descriptor that it reads. */
  function Mine(d: bool): u32 { if d then 0 else 1 }
  function Theirs(d: bool): u32 { if d then 1 else 0 }

  function FdsFrame(d: bool): Frame {
    Fds(EncodeFds([Spec(Mine(d), Dir.Read)]), map[])
  }

  /** An end whose stream is open and has queued `queue`. */
  function Sending(d: bool, o: Out, queue: seq<Frame>): End {
    var i := Mine(d);
    NewEnd(d, TINY).(planned := [Dir.Read], outs := map[i as nat := o], progress := map[i := i as nat],
                     lastOut := map[i := i as nat], queue := queue)
  }

  function NewSender(d: bool): Out {
    Out(Mine(d), false, true, 0, [], false, 0, 0, Waiting)
  }

  lemma Delegates(d: bool, o: End, eo: seq<Frame>, oe: seq<Frame>)
    requires Reachable(At(d, NewEnd(d, TINY), o, eo, oe))
    ensures Reachable(At(d, Sending(d, NewSender(d), [FdsFrame(d)]), o, eo, oe))
  {
    var e0 := NewEnd(d, TINY);
    assert SocketStreams(e0) == {} && Offered(e0) == map[];
    var e1 := e0.(tasks := map[MAIN := Task(Delegate([Dir.Read]), [], None, map[])]);
    GoesAlone(d, e0, o, eo, oe, App(BeginSend(MAIN, Delegate([Dir.Read]), [])), e1);
    QueuesDescriptor(d, e1, o, eo, oe);
  }

  lemma QueuesDescriptor(d: bool, e: End, o: End, eo: seq<Frame>, oe: seq<Frame>)
    requires e == NewEnd(d, TINY).(tasks := map[MAIN := Task(Delegate([Dir.Read]), [], None, map[])])
    requires Reachable(At(d, e, o, eo, oe))
    ensures Reachable(At(d, Sending(d, NewSender(d), [FdsFrame(d)]), o, eo, oe))
  {
    var spec := Spec(Mine(d), Dir.Read);
    assert Plan(d, 0, [Dir.Read]) == [spec];
    assert e.tasks - {MAIN} == map[];
    var e2 := NewEnd(d, TINY).(planned := [Dir.Read], starting := [spec], queue := [FdsFrame(d)]);
    GoesAlone(d, e, o, eo, oe, App(QueueMessage(MAIN)), e2);
    StartsReading(d, e2, o, eo, oe);
  }

  lemma StartsReading(d: bool, e: End, o: End, eo: seq<Frame>, oe: seq<Frame>)
    requires e == NewEnd(d, TINY).(planned := [Dir.Read], starting := [Spec(Mine(d), Dir.Read)], queue := [FdsFrame(d)])
    requires Reachable(At(d, e, o, eo, oe))
    ensures Reachable(At(d, Sending(d, NewSender(d), [FdsFrame(d)]), o, eo, oe))
  {
    var i: nat := Mine(d);
    assert e.starting[1..] == [] && NewOut(e, Mine(d), false) == NewSender(d);
    assert e.outs[i := NewSender(d)] == map[i := NewSender(d)];
    assert e.progress[Mine(d) := i] == map[Mine(d) := i] && e.lastOut[Mine(d) := i] == map[Mine(d) := i];
    GoesAlone(d, e, o, eo, oe, App(StartPump(i)), Sending(d, NewSender(d), [FdsFrame(d)]));
  }

  lemma PumpsOn(d: bool, s: Out, queue: seq<Frame>, p: PumpStep, o: End, eo: seq<Frame>, oe: seq<Frame>)
    requires Reachable(At(d, Sending(d, s, queue), o, eo, oe)) && PumpCan(s, p) && !p.Quit? && !p.Drop?
      && |queue| < CHANNEL_DEPTH
    ensures Reachable(At(d, Sending(d, PumpNext(s, p), queue + PumpFrames(s, p)), o, eo, oe))
  {
    PumpedIs(d, s, queue, p, PumpNext(s, p));
    GoesAlone(d, Sending(d, s, queue), o, eo, oe, Pump(Mine(d), p),
      Sending(d, PumpNext(s, p), queue + PumpFrames(s, p)));
  }

  lemma PumpedIs(d: bool, s: Out, queue: seq<Frame>, p: PumpStep, s': Out)
    requires PumpCan(s, p) && !p.Quit? && !p.Drop? && |queue| < CHANNEL_DEPTH && s' == PumpNext(s, p)
    ensures PumpEnabled(Sending(d, s, queue), s, p)
    ensures ApplyPump(Sending(d, s, queue), Mine(d), p) == Sending(d, s', queue + PumpFrames(s, p))
  {
    var e := Sending(d, s, queue);
    assert e.outs[Mine(d) as nat := s'] == map[Mine(d) as nat := s'];
  }

  /** The stream after `n` blocks. */
  function AfterBlocks(d: bool, src: Bytes, n: nat): Out {
    Out(Mine(d), false, true, -(n * (MUX_HEADER + PUMP_BUF)), src, false, n * PUMP_BUF, n * PUMP_BUF, Waiting)
  }

  lemma SendsBlock(d: bool, src: Bytes, block: Bytes, n: nat, queue: seq<Frame>, o: End, eo: seq<Frame>, oe: seq<Frame>)
    requires Reachable(At(d, Sending(d, AfterBlocks(d, src, n), queue), o, eo, oe)) && |queue| + 1 < CHANNEL_DEPTH
    requires |block| == PUMP_BUF && (n + 1) * PUMP_BUF <= |src| && src[n * PUMP_BUF..(n + 1) * PUMP_BUF] == block
    ensures Reachable(At(d, Sending(d, AfterBlocks(d, src, n + 1), queue + [Data(Mine(d), block)]), o, eo, oe))
  {
    var s := AfterBlocks(d, src, n);
    assert queue + [] == queue;
    PumpsOn(d, s, queue, Admit, o, eo, oe);
    var s1 := s.(phase := OutPhase.Ready);
    PumpsOn(d, s1, queue, PumpStep.Read(PUMP_BUF), o, eo, oe);
    var s2 := s.(phase := Holding(block), taken := (n + 1) * PUMP_BUF,
      available := s.available - (MUX_HEADER + PUMP_BUF));
    assert PumpNext(s1, PumpStep.Read(PUMP_BUF)) == s2;
    QueuesBlock(d, s2, block, queue, AfterBlocks(d, src, n + 1), o, eo, oe);
  }

  lemma QueuesBlock(d: bool, s: Out, block: Bytes, queue: seq<Frame>, s': Out, o: End, eo: seq<Frame>, oe: seq<Frame>)
    requires Reachable(At(d, Sending(d, s, queue), o, eo, oe)) && |queue| + 1 < CHANNEL_DEPTH
    requires s.phase == Holding(block) && s.id == Mine(d) && s' == s.(phase := Waiting, sent := s.sent + |block|)
    ensures Reachable(At(d, Sending(d, s', queue + [Data(Mine(d), block)]), o, eo, oe))
  {
    PumpsOn(d, s, queue, Queue, o, eo, oe);
    var s1, more := s.(phase := Counting(|block|)), queue + [Data(Mine(d), block)];
    assert more + [] == more;
    PumpsOn(d, s1, more, Tally, o, eo, oe);
    assert PumpNext(s1, Tally) == s';
  }

  function Thrice(block: Bytes): Bytes {
    block + block + block
  }

  function Blocks(d: bool, block: Bytes): seq<Frame> {
    [Data(Mine(d), block), Data(Mine(d), block), Data(Mine(d), block)]
  }

  /** Three blocks sent before anything was received. */
  function Early(d: bool, block: Bytes): End {
    Sending(d, AfterBlocks(d, Thrice(block), 3), [FdsFrame(d)] + Blocks(d, block))
  }

  lemma SendsEarly(d: bool, block: Bytes, o: End, eo: seq<Frame>, oe: seq<Frame>)
    requires |block| == PUMP_BUF && Reachable(At(d, NewEnd(d, TINY), o, eo, oe))
    ensures Reachable(At(d, Early(d, block), o, eo, oe))
  {
    var src, q0, f := Thrice(block), [FdsFrame(d)], Data(Mine(d), block);
    Delegates(d, o, eo, oe);
    assert q0 + [] == q0;
    PumpsOn(d, NewSender(d), q0, Offer(src), o, eo, oe);
    assert PumpNext(NewSender(d), Offer(src)) == AfterBlocks(d, src, 0);
    assert src[0..PUMP_BUF] == block && src[PUMP_BUF..2 * PUMP_BUF] == block
      && src[2 * PUMP_BUF..3 * PUMP_BUF] == block;
    SendsThree(d, src, block, q0, f, o, eo, oe);
    assert q0 + [f] + [f] + [f] == q0 + Blocks(d, block);
  }

  lemma SendsThree(d: bool, src: Bytes, block: Bytes, q: seq<Frame>, f: Frame, o: End, eo: seq<Frame>, oe: seq<Frame>)
    requires Reachable(At(d, Sending(d, AfterBlocks(d, src, 0), q), o, eo, oe)) && |q| == 1 && f == Data(Mine(d), block)
    requires |block| == PUMP_BUF && |src| == 3 * PUMP_BUF
    requires src[0..PUMP_BUF] == block && src[PUMP_BUF..2 * PUMP_BUF] == block
      && src[2 * PUMP_BUF..3 * PUMP_BUF] == block
    ensures Reachable(At(d, Sending(d, AfterBlocks(d, src, 3), q + [f] + [f] + [f]), o, eo, oe))
  {
    SendsBlock(d, src, block, 0, q, o, eo, oe);
    SendsBlock(d, src, block, 1, q + [f], o, eo, oe);
    SendsBlock(d, src, block, 2, q + [f] + [f], o, eo, oe);
  }

  // ---- the greetings, after the data -----------------------------------------------------------

  function HelloFrame(): Frame {
    Hello(HelloPayload(TINY))
  }

  lemma SaysHello(d: bool, e: End, o: End, oe: seq<Frame>)
    requires Reachable(At(d, e, o, [], oe)) && !e.helloSent && e.window == TINY
    ensures Reachable(At(d, e.(helloSent := true), o, [HelloFrame()], oe))
  {
    GoesAt(d, e, o, [], oe, Writer(SayHello), e.(helloSent := true), [HelloFrame()], oe);
  }

  /** Three blocks cost far more than the window that the Hello grants. */
  function Welcomed(d: bool, block: Bytes, e: End): End {
    var s := AfterBlocks(d, Thrice(block), 3);
    e.(peerWindowed := true, peerWindow := TINY, outs := map[Mine(d) as nat := s.(available := s.available + TINY)])
  }

  lemma HearsHello(d: bool, block: Bytes, e: End, o: End, eo: seq<Frame>)
    requires Reachable(At(d, e, o, eo, [HelloFrame()])) && e == Early(d, block).(helloSent := e.helloSent)
    ensures Reachable(At(d, Welcomed(d, block, e), o, eo, []))
  {
    Takes(d, e, o, eo, HelloFrame());
    HeardHello(d, block, e);
    GoesAlone(d, e.(reader := Reader.Hand(HelloFrame())), o, eo, [], Reads(Inspect), Welcomed(d, block, e));
  }

  lemma HeardHello(d: bool, block: Bytes, e: End)
    requires e == Early(d, block).(helloSent := e.helloSent)
    ensures HandleFrame(e.(reader := Reader.Hand(HelloFrame())), HelloFrame()) == Welcomed(d, block, e)
  {
    var e1 := e.(reader := Reader.Hand(HelloFrame()));
    HelloIsTaken(TINY, []);
    assert HelloPayload(TINY) + [] == HelloPayload(TINY);
    assert HandleFrame(e1, HelloFrame()).outs == Welcomed(d, block, e).outs;
  }

  // ---- what each end receives ----------------------------------------------------------------

  /** Both greetings are over; `queue` is left to write. */
  function Begun(d: bool, block: Bytes, queue: seq<Frame>): End {
    Welcomed(d, block, Early(d, block)).(helloSent := true, queue := queue)
  }

  /** ... and the other's descriptor has been opened. */
  function Open(d: bool, block: Bytes, queue: seq<Frame>, r: Reader, k: Sink): End {
    var j := Theirs(d);
    Begun(d, block, queue).(offered := 1, sinks := map[j as nat := k], routes := map[j := j as nat],
                            lastSink := map[j := j as nat], live := 1, delegated := {j as nat}, announced := {j},
                              reader := r)
  }

  lemma OpensTheirs(d: bool, block: Bytes, queue: seq<Frame>, o: End, eo: seq<Frame>)
    requires Reachable(At(d, Begun(d, block, queue), o, eo, [FdsFrame(!d)]))
    ensures Reachable(At(d, Open(d, block, queue, Idle, NewSink(Theirs(d))), o, eo, []))
  {
    var e, f, j := Begun(d, block, queue), FdsFrame(!d), Theirs(d);
    assert Mine(!d) == j;
    Takes(d, e, o, eo, f);
    FdsRoundTrip([Spec(j, Dir.Read)]);
    var e1 := e.(reader := Materializing([Spec(j, Dir.Read)], [], map[]), offered := 1);
    GoesAlone(d, e.(reader := Reader.Hand(f)), o, eo, [], Reads(Inspect), e1);
    Materializes(d, block, queue, e1, o, eo);
  }

  lemma Materializes(d: bool, block: Bytes, queue: seq<Frame>, e: End, o: End, eo: seq<Frame>)
    requires Reachable(At(d, e, o, eo, []))
    requires e == Begun(d, block, queue).(reader := Materializing([Spec(Theirs(d), Dir.Read)], [], map[]), offered := 1)
    ensures Reachable(At(d, Open(d, block, queue, Idle, NewSink(Theirs(d))), o, eo, []))
  {
    var j: nat := Theirs(d);
    var open := Open(d, block, queue, Idle, NewSink(Theirs(d))).(announced := {});
    var e1 := open.(reader := Materializing([], [Theirs(d)], map[]));
    assert e.reader.rest[1..] == [] && e.reader.done + [Theirs(d)] == [Theirs(d)] && e.delegated + {j} == {j};
    assert e.sinks[j := NewSink(Theirs(d))] == map[j := NewSink(Theirs(d))];
    assert e.routes[Theirs(d) := j] == map[Theirs(d) := j] && e.lastSink[Theirs(d) := j] == map[Theirs(d) := j];
    assert DoMaterialize(e, j) == e1;
    GoesAlone(d, e, o, eo, [], Reads(Materialize(j)), e1);
    Announces(d, open, Theirs(d), o, eo);
  }

  lemma Announces(d: bool, e: End, j: u32, o: End, eo: seq<Frame>)
    requires e.ctrl == [] && e.announced == {} && e.reader.Idle?
    requires Reachable(At(d, e.(reader := Materializing([], [j], map[])), o, eo, []))
    ensures Reachable(At(d, e.(announced := {j}), o, eo, []))
  {
    var item := Descriptors([j], map[]);
    GoesAlone(d, e.(reader := Materializing([], [j], map[])), o, eo, [], Reads(FinishFds),
      e.(reader := Surfacing(item)));
    SurfacesItem(d, e, item, o, eo);
    ReceivesDescriptor(d, e, j, o, eo);
  }

  lemma SurfacesItem(d: bool, e: End, item: Item, o: End, eo: seq<Frame>)
    requires e.ctrl == [] && e.reader.Idle? && Reachable(At(d, e.(reader := Surfacing(item)), o, eo, []))
    ensures Reachable(At(d, e.(ctrl := [item]), o, eo, []))
  {
    assert e.ctrl + [item] == [item];
    GoesAlone(d, e.(reader := Surfacing(item)), o, eo, [], Reads(Surface), e.(ctrl := [item]));
  }

  lemma ReceivesDescriptor(d: bool, e: End, j: u32, o: End, eo: seq<Frame>)
    requires e.ctrl == [] && e.announced == {}
    requires Reachable(At(d, e.(ctrl := [Descriptors([j], map[])]), o, eo, []))
    ensures Reachable(At(d, e.(announced := {j}), o, eo, []))
  {
    var e1 := e.(ctrl := [Descriptors([j], map[])]);
    assert e1.ctrl[1..] == [] && e1.announced + (set id | id in [j]) == {j};
    GoesAlone(d, e1, o, eo, [], App(AppReceive), e.(announced := {j}));
  }

  // ---- its data --------------------------------------------------------------------------------

  const BLOCK_COST: u32 := 9 + 16 * 1024

  lemma HasInHand(d: bool, block: Bytes, queue: seq<Frame>, k: Sink, o: End, eo: seq<Frame>)
    requires |block| == PUMP_BUF && Reachable(At(d, Open(d, block, queue, Idle, k), o, eo, [Data(Theirs(d), block)]))
    requires k.id == Theirs(d) && k.phase.Live?
    ensures Reachable(At(d, Open(d, block, queue, Room(Theirs(d), Theirs(d), block), k), o, eo, []))
  {
    var f := Data(Theirs(d), block);
    var e := Open(d, block, queue, Idle, k);
    Takes(d, e, o, eo, f);
    GoesAlone(d, e.(reader := Reader.Hand(f)), o, eo, [], Reads(Inspect),
              Open(d, block, queue, Room(Theirs(d), Theirs(d), block), k));
  }

  /** An empty queue takes a frame of any size. */
  lemma Enqueues(d: bool, block: Bytes, queue: seq<Frame>, k: Sink, o: End, eo: seq<Frame>)
    requires |block| == PUMP_BUF && k.id == Theirs(d) && k.phase.Live? && k.queued == 0 && k.inq == []
    requires Reachable(At(d, Open(d, block, queue, Room(Theirs(d), Theirs(d), block), k), o, eo, []))
    ensures Reachable(At(d, Open(d, block, queue, Idle, k.(queued := BLOCK_COST, inq := [Payload(block)])), o, eo, []))
  {
    var j: nat := Theirs(d);
    var k1 := k.(queued := BLOCK_COST);
    var e := Open(d, block, queue, Room(j, Theirs(d), block), k);
    assert e.sinks[j := k1] == map[j := k1];
    GoesAlone(d, e, o, eo, [], Reads(Count), Open(d, block, queue, Counted(j, Theirs(d), block, true), k1));
    DeliversFirst(d, block, queue, k1, o, eo);
  }

  lemma DeliversFirst(d: bool, block: Bytes, queue: seq<Frame>, k: Sink, o: End, eo: seq<Frame>)
    requires |block| == PUMP_BUF && k.id == Theirs(d) && k.phase.Live? && k.inq == []
    requires Reachable(At(d, Open(d, block, queue, Counted(Theirs(d), Theirs(d), block, true), k), o, eo, []))
    ensures Reachable(At(d, Open(d, block, queue, Idle, k.(inq := [Payload(block)])), o, eo, []))
  {
    var j: nat := Theirs(d);
    var k2 := k.(inq := [Payload(block)]);
    var e := Open(d, block, queue, Counted(j, Theirs(d), block, true), k);
    assert e.sinks[j := k2] == map[j := k2] && k.inq + [Payload(block)] == [Payload(block)];
    GoesAlone(d, e, o, eo, [], Reads(Deliver), Open(d, block, queue, Idle, k2));
  }

  lemma Drains(d: bool, block: Bytes, queue: seq<Frame>, k: Sink, m: SinkStep, k': Sink, o: End, eo: seq<Frame>)
    requires k.id == Theirs(d) && SinkCan(k, m) && (m.Take? || m.Write? || m.Consumed?)
    requires k' == SinkNext(k, TINY, true, m) && Reachable(At(d, Open(d, block, queue, Idle, k), o, eo, []))
    ensures Reachable(At(d, Open(d, block, queue, Idle, k'), o, eo, []))
  {
    DrainedIs(d, block, queue, k, m, k');
    GoesAlone(d, Open(d, block, queue, Idle, k), o, eo, [], Drain(Theirs(d), m), Open(d, block, queue, Idle, k'));
  }

  lemma DrainedIs(d: bool, block: Bytes, queue: seq<Frame>, k: Sink, m: SinkStep, k': Sink)
    requires k.id == Theirs(d) && SinkCan(k, m) && (m.Take? || m.Write? || m.Consumed?)
      && k' == SinkNext(k, TINY, true, m)
    ensures ApplySink(Open(d, block, queue, Idle, k), Theirs(d), m) == Open(d, block, queue, Idle, k')
  {
    var e := Open(d, block, queue, Idle, k);
    assert e.sinks[Theirs(d) as nat := k'] == map[Theirs(d) as nat := k'] && e.queue + [] == e.queue;
  }

  /** The first block is written out; the grant for it is still in the pump's hand. */
  function Granting(d: bool, block: Bytes): Sink {
    NewSink(Theirs(d)).(written := block, pending := Some(BLOCK_COST))
  }

  lemma {:induction false} DrainsFirst(d: bool, block: Bytes, queue: seq<Frame>, o: End, eo: seq<Frame>)
    requires |block| == PUMP_BUF
    requires Reachable(At(d, Open(d, block, queue, Idle,
      NewSink(Theirs(d)).(queued := BLOCK_COST, inq := [Payload(block)])), o, eo, []))
    ensures Reachable(At(d, Open(d, block, queue, Idle, Granting(d, block)), o, eo, []))
  {
    var k0 := NewSink(Theirs(d)).(queued := BLOCK_COST, inq := [Payload(block)]);
    var k1 := k0.(inq := [], held := Some(block));
    var k2 := k1.(off := PUMP_BUF, written := block);
    assert k0.inq[1..] == [] && [] + block[0..PUMP_BUF] == block;
    Drains(d, block, queue, k0, SinkStep.Take, k1, o, eo);
    Drains(d, block, queue, k1, SinkStep.Write(PUMP_BUF), k2, o, eo);
    Drains(d, block, queue, k2, SinkStep.Consumed(true), Granting(d, block), o, eo);
  }

  /** The second block waits in the sink's queue, the third at its door. */
  function Stalled(d: bool, block: Bytes): Sink {
    Granting(d, block).(queued := BLOCK_COST, inq := [Payload(block)])
  }

  function Stuck(d: bool, block: Bytes, queue: seq<Frame>): End {
    Open(d, block, queue, Room(Theirs(d), Theirs(d), block), Stalled(d, block))
  }

  /** `e` has its descriptor and its blocks queued; the other end takes them in
      until its reader waits. */
  lemma Floods(d: bool, block: Bytes, e: End, queue: seq<Frame>, oe: seq<Frame>)
    requires |block| == PUMP_BUF && e.queue == [FdsFrame(d)] + Blocks(d, block) && e.helloSent && e.flushing == map[]
    requires Reachable(At(d, e, Begun(!d, block, queue), [], oe))
    ensures Reachable(At(d, e.(queue := []), Stuck(!d, block, queue), [], oe))
  {
    var b := Blocks(d, block);
    Writes(d, e, Begun(!d, block, queue), oe, FdsFrame(d), b);
    OpensTheirs(!d, block, queue, e.(queue := b), oe);
    FloodsFirst(d, block, e.(queue := b), queue, oe);
    FloodsSecond(d, block, e.(queue := b[1..]), queue, oe);
    FloodsThird(d, block, e.(queue := b[2..]), queue, oe);
  }

  lemma FloodsFirst(d: bool, block: Bytes, e: End, queue: seq<Frame>, oe: seq<Frame>)
    requires |block| == PUMP_BUF && e.queue == Blocks(d, block) && e.helloSent && e.flushing == map[]
    requires Reachable(At(!d, Open(!d, block, queue, Idle, NewSink(Mine(d))), e, oe, []))
    ensures Reachable(At(!d, Open(!d, block, queue, Idle, Granting(!d, block)),
      e.(queue := Blocks(d, block)[1..]), oe, []))
  {
    var f, rest := Data(Mine(d), block), Blocks(d, block)[1..];
    assert e.queue == [f] + rest && Theirs(!d) == Mine(d);
    var k := NewSink(Mine(d));
    Writes(d, e, Open(!d, block, queue, Idle, k), oe, f, rest);
    HasInHand(!d, block, queue, k, e.(queue := rest), oe);
    Enqueues(!d, block, queue, k, e.(queue := rest), oe);
    DrainsFirst(!d, block, queue, e.(queue := rest), oe);
  }

  lemma FloodsSecond(d: bool, block: Bytes, e: End, queue: seq<Frame>, oe: seq<Frame>)
    requires |block| == PUMP_BUF && e.queue == Blocks(d, block)[1..] && e.helloSent && e.flushing == map[]
    requires Reachable(At(!d, Open(!d, block, queue, Idle, Granting(!d, block)), e, oe, []))
    ensures Reachable(At(!d, Open(!d, block, queue, Idle, Stalled(!d, block)),
      e.(queue := Blocks(d, block)[2..]), oe, []))
  {
    var f, rest := Data(Mine(d), block), Blocks(d, block)[2..];
    assert e.queue == [f] + rest && Theirs(!d) == Mine(d);
    var k := Granting(!d, block);
    Writes(d, e, Open(!d, block, queue, Idle, k), oe, f, rest);
    HasInHand(!d, block, queue, k, e.(queue := rest), oe);
    Enqueues(!d, block, queue, k, e.(queue := rest), oe);
  }

  lemma FloodsThird(d: bool, block: Bytes, e: End, queue: seq<Frame>, oe: seq<Frame>)
    requires |block| == PUMP_BUF && e.queue == Blocks(d, block)[2..] && e.helloSent && e.flushing == map[]
    requires Reachable(At(!d, Open(!d, block, queue, Idle, Stalled(!d, block)), e, oe, []))
    ensures Reachable(At(d, e.(queue := []), Stuck(!d, block, queue), [], oe))
  {
    var f := Data(Mine(d), block);
    assert e.queue == [f] + [] && Theirs(!d) == Mine(d);
    var k := Stalled(!d, block);
    Writes(d, e, Open(!d, block, queue, Idle, k), oe, f, []);
    HasInHand(!d, block, queue, k, e.(queue := []), oe);
  }

  // ---- the queues fill up ------------------------------------------------------------------------

  function Reminder(): Frame {
    Control(EndMessage(), map[], false)
  }

  function Messages(n: nat): (fs: seq<Frame>)
    ensures |fs| == n
  {
    if n == 0 then [] else Messages(n - 1) + [Reminder()]
  }

  /** A detached sender adds one control message. */
  lemma QueuesMessage(d: bool, block: Bytes, queue: seq<Frame>, o: End, eo: seq<Frame>, oe: seq<Frame>)
    requires Reachable(At(d, Stuck(d, block, queue), o, eo, oe)) && |queue| < CHANNEL_DEPTH
    ensures Reachable(At(d, Stuck(d, block, queue + [Reminder()]), o, eo, oe))
  {
    var e := Stuck(d, block, queue);
    assert SocketStreams(e) == {} && Offered(e) == map[];
    GoesAlone(d, e, o, eo, oe, App(BeginSend(1, Plain(EndMessage()), [])), Asking(e));
    PassesBarrier(d, block, queue, o, eo, oe);
  }

  lemma PassesBarrier(d: bool, block: Bytes, queue: seq<Frame>, o: End, eo: seq<Frame>, oe: seq<Frame>)
    requires Reachable(At(d, Asking(Stuck(d, block, queue)), o, eo, oe)) && |queue| < CHANNEL_DEPTH
    ensures Reachable(At(d, Stuck(d, block, queue + [Reminder()]), o, eo, oe))
  {
    var e := Asking(Stuck(d, block, queue));
    assert e.tasks - {1} == map[];
    GoesAlone(d, e, o, eo, oe, App(QueueMessage(1)), Stuck(d, block, queue + [Reminder()]));
  }

  function Asking(e: End): End {
    e.(tasks := map[1 := Task(Plain(EndMessage()), [], None, map[])])
  }

  lemma {:induction false} FillsQueue(d: bool, block: Bytes, n: nat, o: End, eo: seq<Frame>, oe: seq<Frame>)
    requires Reachable(At(d, Stuck(d, block, []), o, eo, oe)) && n <= CHANNEL_DEPTH
    ensures Reachable(At(d, Stuck(d, block, Messages(n)), o, eo, oe))
  {
    if n > 0 {
      FillsQueue(d, block, n - 1, o, eo, oe);
      QueuesMessage(d, block, Messages(n - 1), o, eo, oe);
    }
  }

  /** One message into the channel, and as many as fit into the queue. */
  lemma Fills(d: bool, block: Bytes, o: End, oe: seq<Frame>)
    requires Reachable(At(d, Stuck(d, block, []), o, [], oe))
    ensures Reachable(At(d, Stuck(d, block, Messages(CHANNEL_DEPTH)), o, [Reminder()], oe))
  {
    QueuesMessage(d, block, [], o, [], oe);
    assert [] + [Reminder()] == [Reminder()] + [];
    Writes(d, Stuck(d, block, [Reminder()]), o, oe, Reminder(), []);
    FillsQueue(d, block, CHANNEL_DEPTH, o, [Reminder()], oe);
  }

  // ---- and nothing moves -------------------------------------------------------------------------

  lemma StuckIsStill(d: bool, block: Bytes, o: End, oe: seq<Frame>)
    requires |block| == PUMP_BUF
    ensures Still(Sys(Stuck(d, block, Messages(CHANNEL_DEPTH)), o, [Reminder()], oe, 1, false))
  {
    var e := Stuck(d, block, Messages(CHANNEL_DEPTH));
    var s := Sys(e, o, [Reminder()], oe, 1, false);
    forall step: Step | Moving(step)
      ensures !EnabledA(s, step)
    {
      match step
      case Writer(w) => StuckWriter(e, w);
      case Reads(r) => StuckReader(d, block, e, r);
      case App(_) =>
      case Pump(h, p) =>
      case Drain(h, m) => StuckSink(d, block, m);
    }
  }

  lemma StuckWriter(e: End, w: WriterStep)
    requires e.helloSent && e.flushing == map[] && e.owed == map[]
    ensures WriterEnabled(e, w) ==> w.WriteQueued?
  {
  }

  lemma StuckReader(d: bool, block: Bytes, e: End, r: ReaderStep)
    requires |block| == PUMP_BUF && e == Stuck(d, block, Messages(CHANNEL_DEPTH))
    ensures ReaderEnabled(e, r) ==> r.Shutdown?
  {
  }

  lemma StuckSink(d: bool, block: Bytes, m: SinkStep)
    ensures SinkCan(Stalled(d, block), m) ==> m.QueueGrant? || m.EndUnrouted? || m.AbandonClose?
  {
  }

  /** Two senders that both start before they have seen a Hello can leave the two
      readers waiting for each other for good: here each end has the other's data
      at the door of a full queue, a grant that does not fit its own, and no credit. */
  lemma EarlySendersDeadlock(block: Bytes) returns (s: Sys)
    requires |block| == PUMP_BUF
    ensures Reachable(s) && Settled(s) && WaitForEachOther(s)
    ensures 0 in s.a.outs && s.a.outs[0].phase.Waiting? && !MaySend(s.a.peerWindowed, s.a.outs[0].available)
    ensures 1 in s.b.outs && s.b.outs[1].phase.Waiting? && !MaySend(s.b.peerWindowed, s.b.outs[1].available)
  {
    MeetTooLate(block);
    var q := [FdsFrame(false)] + Blocks(false, block);
    Floods(true, block, Begun(true, block, [FdsFrame(true)] + Blocks(true, block)), q, []);
    Floods(false, block, Stuck(false, block, q), [], []);
    Fills(true, block, Stuck(false, block, []), []);
    var a := Stuck(true, block, Messages(CHANNEL_DEPTH));
    Fills(false, block, a, [Reminder()]);
    var b := Stuck(false, block, Messages(CHANNEL_DEPTH));
    s := At(true, a, b, [Reminder()], [Reminder()]);
    StuckIsStill(true, block, b, [Reminder()]);
    StuckIsStill(false, block, a, [Reminder()]);
  }

  /** Both ends send, and only then greet each other. */
  lemma MeetTooLate(block: Bytes)
    requires |block| == PUMP_BUF
    ensures Reachable(At(true, Begun(true, block, [FdsFrame(true)] + Blocks(true, block)),
                         Begun(false, block, [FdsFrame(false)] + Blocks(false, block)), [], []))
  {
    var a, b := Early(true, block), Early(false, block);
    BothSendEarly(block);
    SaysHello(true, a, b, []);
    var a1 := a.(helloSent := true);
    HearsHello(false, block, b, a1, []);
    var b1 := Welcomed(false, block, b);
    SaysHello(false, b1, a1, []);
    var b2 := b1.(helloSent := true);
    HearsHello(true, block, a1, b2, []);
    assert Welcomed(true, block, a1) == Begun(true, block, [FdsFrame(true)] + Blocks(true, block));
    assert b2 == Begun(false, block, [FdsFrame(false)] + Blocks(false, block));
  }

  lemma BothSendEarly(block: Bytes)
    requires |block| == PUMP_BUF
    ensures Reachable(At(true, Early(true, block), Early(false, block), [], []))
  {
    var a, b := NewEnd(true, TINY), NewEnd(false, TINY);
    var s := At(true, a, b, [], []);
    assert IsRun(Run([s], [])) && IsStart(s);
    assert Reachable(s) by { assert Run([s], []).states[|Run([s], []).labels|] == s; }
    SendsEarly(true, block, b, [], []);
    SendsEarly(false, block, Early(true, block), [], []);
  }
}
