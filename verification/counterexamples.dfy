/** Two runs of conforming ends that show where a promise stops: without the session
    rule data arrives for a stream nobody has opened, and an abandoned sink grants
    more than one frame twice. */
module Counterexamples {
  import opened ByteStrings
  import opened Proto
  import opened Credit
  import opened Wire
  import opened Endpoint
  import opened EndpointLaws
  import opened PipeMachine
  import opened Session
  import opened Handoff
  import opened Theorems

  // ---- runs, a step at a time ------------------------------------------------------------

  lemma Goes(s: Sys, l: Label)
    requires Reachable(s) && EnabledIn(s, l)
    ensures Reachable(Next(s, l))
  {
    var r :| IsRun(r) && IsStart(r.states[0]) && r.states[|r.labels|] == s;
    var r' := Run(r.states + [Next(s, l)], r.labels + [l]);
    forall i | 0 <= i < |r'.labels|
      ensures Follows(r', i)
    {
      assert i < |r.labels| ==> Follows(r, i);
    }
    assert IsRun(r') && r'.states[0] == r.states[0] && r'.states[|r'.labels|] == Next(s, l);
  }

  lemma GoesA(s: Sys, step: Step, t: Sys)
    requires Reachable(s) && EnabledA(s, step) && t == StepA(s, step)
    ensures Reachable(t)
  {
    Goes(s, Label(true, step));
  }

  lemma GoesB(s: Sys, step: Step, t: Sys)
    requires Reachable(s) && EnabledA(Swap(s), step) && t == Swap(StepA(Swap(s), step))
    ensures Reachable(t)
  {
    Goes(s, Label(false, step));
  }

  // ---- the way both runs begin -------------------------------------------------------------

  const W: u32 := STREAM_WINDOW

  function Greeter(e: End): End {
    e.(peerWindowed := true, peerWindow := W)
  }

  lemma TakesHello(e: End)
    requires e.reader == Reader.Hand(Hello(HelloPayload(W))) && !e.peerWindowed && e.outs == map[]
    ensures HandleFrame(e, e.reader.frame) == Greeter(e).(reader := Idle)
  {
    HelloIsTaken(W, []);
    assert HelloPayload(W) + [] == HelloPayload(W);
    assert HandleFrame(e, e.reader.frame).outs == map[];
  }

  /** Both ends have said Hello and handled the other's. */
  function Met(orderly: bool): Sys {
    Sys(Greeter(NewEnd(true, W)).(helloSent := true), Greeter(NewEnd(false, W)).(helloSent := true), [], [], 1, orderly)
  }

  lemma Meets(orderly: bool)
    ensures Reachable(Met(orderly))
  {
    var hello := Hello(HelloPayload(W));
    var s := Start(true, W, W, 1, orderly);
    assert IsRun(Run([s], [])) && IsStart(s);
    assert Reachable(s) by { assert Run([s], []).states[|Run([s], []).labels|] == s; }
    var s1 := s.(a := s.a.(helloSent := true), ab := [hello]);
    GoesA(s, Writer(SayHello), s1);
    var s2 := s1.(b := s1.b.(reader := Reader.Hand(hello)), ab := []);
    GoesB(s1, Reads(Receive(hello)), s2);
    TakesHello(s2.b);
    var s3 := s2.(b := Greeter(s1.b));
    GoesB(s2, Reads(Inspect), s3);
    var s4 := s3.(b := s3.b.(helloSent := true), ba := [hello]);
    GoesB(s3, Writer(SayHello), s4);
    var s5 := s4.(a := s4.a.(reader := Reader.Hand(hello)), ba := []);
    GoesA(s4, Reads(Receive(hello)), s5);
    TakesHello(s5.a);
    GoesA(s5, Reads(Inspect), Met(orderly));
  }

  /** The dialer has queued one descriptor, and the listener has the frame. */
  function Offering(dir: Dir): Sys {
    var m := Met(false);
    m.(a := m.a.(planned := [dir], starting := [Spec(0, dir)]),
       b := m.b.(offered := 1, reader := Materializing([Spec(0, dir)], [], map[])))
  }

  /** ... has asked for it to be sent, and has sent it. */
  function Asked(dir: Dir): Sys {
    var m := Met(false);
    m.(a := m.a.(tasks := map[MAIN := Task(Delegate([dir]), [], None, map[])]))
  }

  function Planned(dir: Dir, queue: seq<Frame>, ab: seq<Frame>): Sys {
    var m := Met(false);
    m.(a := m.a.(planned := [dir], starting := [Spec(0, dir)], queue := queue), ab := ab)
  }

  function FdsFrameOf(dir: Dir): Frame {
    Fds(EncodeFds([Spec(0, dir)]), map[])
  }

  lemma Asks(dir: Dir)
    ensures Reachable(Asked(dir))
  {
    var m := Met(false);
    Meets(false);
    assert SocketStreams(m.a) == {};
    assert Offered(m.a) == map[];
    GoesA(m, App(BeginSend(MAIN, Delegate([dir]), [])), Asked(dir));
  }

  lemma Queues(dir: Dir)
    ensures Reachable(Planned(dir, [FdsFrameOf(dir)], []))
  {
    Asks(dir);
    var s := Asked(dir);
    assert Plan(true, 0, [dir]) == [Spec(0, dir)];
    assert s.a.tasks - {MAIN} == map[];
    GoesA(s, App(QueueMessage(MAIN)), Planned(dir, [FdsFrameOf(dir)], []));
  }

  lemma Offers(dir: Dir)
    ensures Reachable(Offering(dir))
  {
    Queues(dir);
    GoesA(Planned(dir, [FdsFrameOf(dir)], []), Writer(WriteQueued), Planned(dir, [], [FdsFrameOf(dir)]));
    Arrives(dir);
    Accepts(dir);
  }

  function FdsArrived(dir: Dir): Sys {
    var s := Planned(dir, [], []);
    s.(b := s.b.(reader := Reader.Hand(FdsFrameOf(dir))))
  }

  lemma Arrives(dir: Dir)
    requires Reachable(Planned(dir, [], [FdsFrameOf(dir)]))
    ensures Reachable(FdsArrived(dir))
  {
    GoesB(Planned(dir, [], [FdsFrameOf(dir)]), Reads(Receive(FdsFrameOf(dir))), FdsArrived(dir));
  }

  lemma Accepts(dir: Dir)
    requires Reachable(FdsArrived(dir))
    ensures Reachable(Offering(dir))
  {
    FdsRoundTrip([Spec(0, dir)]);
    GoesB(FdsArrived(dir), Reads(Inspect), Offering(dir));
  }

  // ---- data before its sink -----------------------------------------------------------------

  /** The listener has opened the descriptor while the dialer has yet to. */
  function Using(o: Out, queue: seq<Frame>): Sys {
    var s := Offering(Dir.Write);
    s.(b := s.b.(outs := map[0 := o], progress := map[0 := 0], lastOut := map[0 := 0], live := 1, delegated := {0},
                 reader := Materializing([], [0], map[]), queue := queue))
  }

  const FIRST: Out := Out(0, true, false, W, [], false, 0, 0, Waiting)

  lemma Opens()
    ensures Reachable(Using(FIRST, []))
  {
    Offers(Dir.Write);
    var e := Offering(Dir.Write).b;
    assert e.reader.rest[1..] == [] && e.reader.done + [0] == [0] && e.delegated + {0} == {0};
    assert e.outs[0 := FIRST] == map[0 := FIRST] && e.progress[0 := 0] == map[0 := 0]
      && e.lastOut[0 := 0] == map[0 := 0];
    assert NewOut(e, 0, true) == FIRST;
    assert DoMaterialize(e, 0) == Using(FIRST, []).b;
    GoesB(Offering(Dir.Write), Reads(Materialize(0)), Using(FIRST, []));
  }

  lemma Pumps(o: Out, p: PumpStep)
    requires Reachable(Using(o, [])) && PumpCan(o, p) && !p.Quit? && !p.Drop? && (p.Admit? ==> o.available > 0)
    ensures Reachable(Using(PumpNext(o, p), PumpFrames(o, p)))
  {
    var s := Using(o, []);
    assert [] + PumpFrames(o, p) == PumpFrames(o, p);
    assert s.b.outs[0 := PumpNext(o, p)] == map[0 := PumpNext(o, p)];
    GoesB(s, Pump(0, p), Using(PumpNext(o, p), PumpFrames(o, p)));
  }

  const SENT: Out := Out(0, true, false, W - 10, [7], false, 1, 0, Counting(1))

  lemma Writes()
    ensures Reachable(Using(SENT, [Data(0, [7])]))
  {
    Opens();
    var o := FIRST.(src := [7]);
    Pumps(FIRST, Offer([7]));
    assert PumpNext(FIRST, Offer([7])) == o;
    Pumps(o, Admit);
    Reads7(o.(phase := OutPhase.Ready));
    Pumps(SENT.(phase := Holding([7])), Queue);
  }

  lemma Reads7(o: Out)
    requires o == FIRST.(src := [7], phase := OutPhase.Ready) && Reachable(Using(o, []))
    ensures Reachable(Using(SENT.(phase := Holding([7])), []))
  {
    assert o.src[0..1] == [7];
    Pumps(o, PumpStep.Read(1));
    assert PumpNext(o, PumpStep.Read(1)) == SENT.(phase := Holding([7]));
  }

  /** The session rule is needed: a listener that uses a descriptor as soon as it
      has it can send data to a dialer that has not yet opened the stream, and the
      dialer drops it. */
  lemma EarlyUseLosesData() returns (s: Sys)
    ensures Reachable(s) && !s.orderly && 0 in s.a.unrouted && 0 in s.a.spilled && Own(s.a.dialer, 0)
  {
    Writes();
    Travels(Data(0, [7]));
    var s0 := Holding7();
    s := StepA(s0, Reads(Inspect));
    GoesA(s0, Reads(Inspect), s);
  }

  /** The dialer's reader has the data in its hand. */
  function Holding7(): Sys {
    var s := Using(SENT, []);
    s.(a := s.a.(reader := Reader.Hand(Data(0, [7]))))
  }

  lemma Travels(frame: Frame)
    requires frame == Data(0, [7]) && Reachable(Using(SENT, [frame]))
    ensures Reachable(Holding7())
  {
    var s1 := Using(SENT, []).(ba := [frame]);
    GoesB(Using(SENT, [frame]), Writer(WriteQueued), s1);
    GoesA(s1, Reads(Receive(frame)), Holding7());
  }

  // ---- an abandoned sink ----------------------------------------------------------------------

  /** The listener's side of a stream whose holder has gone away. */
  datatype Giving = Giving(reader: Reader, sink: Sink, owed: map<u32, u32>, spilled: set<u32>, forgone: map<u32, nat>)

  function Taking(g: Giving): End {
    var e := Offering(Dir.Read).b;
    e.(reader := g.reader, sinks := map[0 := g.sink], routes := map[0 := 0], lastSink := map[0 := 0], live := 1,
       delegated := {0}, ctrl := [Descriptors([0], map[])], owed := g.owed, spilled := g.spilled, forgone := g.forgone)
  }

  function Streaming(o: Out, queue: seq<Frame>, ab: seq<Frame>, g: Giving): Sys {
    var s := Offering(Dir.Read);
    s.(a := s.a.(starting := [], outs := map[0 := o], progress := map[0 := 0], lastOut := map[0 := 0], queue := queue),
       ab := ab, b := Taking(g))
  }

  const SOURCE: Out := Out(0, false, false, W, [], false, 0, 0, Waiting)
  const NEW: Giving := Giving(Idle, NewSink(0), map[], {}, map[])

  function Unstarted(b: End): Sys {
    Offering(Dir.Read).(b := b)
  }

  lemma Starts()
    ensures Reachable(Streaming(SOURCE, [], [], NEW))
  {
    Offers(Dir.Read);
    var s0 := Offering(Dir.Read);
    var e0 := s0.b;
    assert e0.reader.rest[1..] == [] && e0.reader.done + [0] == [0] && e0.delegated + {0} == {0};
    assert e0.sinks[0 := NewSink(0)] == map[0 := NewSink(0)] && e0.routes[0 := 0] == map[0 := 0]
      && e0.lastSink[0 := 0] == map[0 := 0];
    var e1 := Taking(NEW).(reader := Materializing([], [0], map[]), ctrl := []);
    assert DoMaterialize(e0, 0) == e1;
    GoesB(s0, Reads(Materialize(0)), Unstarted(e1));
    Surfaces(e1);
    StartsSource(Unstarted(Taking(NEW)));
  }

  lemma Surfaces(e: End)
    requires e == Taking(NEW).(reader := Materializing([], [0], map[]), ctrl := []) && Reachable(Unstarted(e))
    ensures Reachable(Unstarted(Taking(NEW)))
  {
    var e2 := e.(reader := Surfacing(Descriptors([0], map[])));
    GoesB(Unstarted(e), Reads(FinishFds), Unstarted(e2));
    assert e2.ctrl + [Descriptors([0], map[])] == [Descriptors([0], map[])];
    GoesB(Unstarted(e2), Reads(Surface), Unstarted(Taking(NEW)));
  }

  lemma StartsSource(s: Sys)
    requires s == Unstarted(Taking(NEW)) && Reachable(s)
    ensures Reachable(Streaming(SOURCE, [], [], NEW))
  {
    var e := s.a;
    assert e.starting[1..] == [];
    assert e.outs[0 := SOURCE] == map[0 := SOURCE] && e.progress[0 := 0] == map[0 := 0]
      && e.lastOut[0 := 0] == map[0 := 0];
    assert NewOut(e, 0, false) == SOURCE;
    assert DoStartPump(e, 0) == Streaming(SOURCE, [], [], NEW).a;
    GoesA(s, App(StartPump(0)), Streaming(SOURCE, [], [], NEW));
  }

  lemma Sends(o: Out, p: PumpStep, g: Giving)
    requires Reachable(Streaming(o, [], [], g)) && PumpCan(o, p) && !p.Quit? && !p.Drop?
      && (p.Admit? ==> o.available > 0)
    ensures Reachable(Streaming(PumpNext(o, p), PumpFrames(o, p), [], g))
  {
    var s := Streaming(o, [], [], g);
    assert [] + PumpFrames(o, p) == PumpFrames(o, p);
    assert s.a.outs[0 := PumpNext(o, p)] == map[0 := PumpNext(o, p)];
    GoesA(s, Pump(0, p), Streaming(PumpNext(o, p), PumpFrames(o, p), [], g));
  }

  /** One whole frame, from the source into the reader's hand. */
  lemma SendsFrame(o: Out, bytes: Bytes, g: Giving)
    requires Reachable(Streaming(o, [], [], g)) && g.reader.Idle? && o.id == 0 && o.phase.Waiting? && o.available > 0
    requires 0 < |bytes| <= PUMP_BUF && o.taken + |bytes| <= |o.src| && o.src[o.taken..o.taken + |bytes|] == bytes
    ensures Reachable(Streaming(Past(o, bytes), [], [], g.(reader := Reader.Hand(Data(0, bytes)))))
  {
    var o2 := o.(phase := Holding(bytes), taken := o.taken + |bytes|, available := o.available - Cost(bytes));
    ReadsFrame(o, bytes, g, o2);
    QueuesFrame(o2, bytes, g);
    TalliesFrame(o2.(phase := Counting(|bytes|)), bytes, g.(reader := Reader.Hand(Data(0, bytes))), Past(o, bytes));
  }

  lemma QueuesFrame(o: Out, bytes: Bytes, g: Giving)
    requires Reachable(Streaming(o, [], [], g)) && g.reader.Idle? && o.id == 0 && o.phase == Holding(bytes)
      && |bytes| <= PUMP_BUF
    ensures Reachable(Streaming(o.(phase := Counting(|bytes|)), [], [], g.(reader := Reader.Hand(Data(0, bytes)))))
  {
    Sends(o, Queue, g);
    Delivers(o.(phase := Counting(|bytes|)), Data(0, bytes), g);
  }

  lemma TalliesFrame(o: Out, bytes: Bytes, g: Giving, o': Out)
    requires Reachable(Streaming(o, [], [], g)) && o.phase == Counting(|bytes|)
    requires o' == o.(phase := Waiting, sent := o.sent + |bytes|)
    ensures Reachable(Streaming(o', [], [], g))
  {
    Sends(o, Tally, g);
    assert PumpNext(o, Tally) == o';
  }

  lemma ReadsFrame(o: Out, bytes: Bytes, g: Giving, o2: Out)
    requires Reachable(Streaming(o, [], [], g)) && o.phase.Waiting? && o.available > 0
    requires 0 < |bytes| <= PUMP_BUF && o.taken + |bytes| <= |o.src| && o.src[o.taken..o.taken + |bytes|] == bytes
    requires o2 == o.(phase := Holding(bytes), taken := o.taken + |bytes|, available := o.available - Cost(bytes))
    ensures Reachable(Streaming(o2, [], [], g))
  {
    Sends(o, Admit, g);
    TakesFrame(o.(phase := OutPhase.Ready), bytes, g, o2);
  }

  lemma TakesFrame(o: Out, bytes: Bytes, g: Giving, o2: Out)
    requires Reachable(Streaming(o, [], [], g)) && o.phase.Ready? && 0 < |bytes| <= PUMP_BUF
    requires o.taken + |bytes| <= |o.src| && o.src[o.taken..o.taken + |bytes|] == bytes
    requires o2 == o.(phase := Holding(bytes), taken := o.taken + |bytes|, available := o.available - Cost(bytes))
    ensures Reachable(Streaming(o2, [], [], g))
  {
    Sends(o, PumpStep.Read(|bytes|), g);
    assert PumpNext(o, PumpStep.Read(|bytes|)) == o2;
  }

  function Past(o: Out, bytes: Bytes): Out {
    o.(taken := o.taken + |bytes|, sent := o.sent + |bytes|, available := o.available - Cost(bytes))
  }

  lemma Delivers(o: Out, f: Frame, g: Giving)
    requires Reachable(Streaming(o, [f], [], g)) && g.reader.Idle? && f.Data? && |f.bytes| <= PUMP_BUF
    ensures Reachable(Streaming(o, [], [], g.(reader := Reader.Hand(f))))
  {
    GoesA(Streaming(o, [f], [], g), Writer(WriteQueued), Streaming(o, [], [f], g));
    GoesB(Streaming(o, [], [f], g), Reads(Receive(f)), Streaming(o, [], [], g.(reader := Reader.Hand(f))));
  }

  /** The reader counts the frame while the sink is being abandoned, and finds its
      queue gone. */
  lemma CountsAndRefuses(o: Out, bytes: Bytes, g: Giving)
    requires Reachable(Streaming(o, [], [], g)) && g.reader == Reader.Hand(Data(0, bytes)) && |bytes| <= PUMP_BUF
    requires g.sink.id == 0 && g.sink.phase.QueueDropped? && !g.sink.closeSeen && g.sink.queued + Cost(bytes) <= W
    ensures Reachable(Streaming(o, [], [], Refusing(g, bytes)))
  {
    var g1 := g.(reader := Room(0, 0, bytes));
    GoesB(Streaming(o, [], [], g), Reads(Inspect), Streaming(o, [], [], g1));
    var g2 := g.(reader := Counted(0, 0, bytes, true), sink := CountSink(g.sink, bytes));
    Counts(o, bytes, g1, g2);
    Refuses(o, bytes, g2, Refusing(g, bytes));
  }

  lemma Counts(o: Out, bytes: Bytes, g: Giving, g': Giving)
    requires Reachable(Streaming(o, [], [], g)) && g.reader == Room(0, 0, bytes)
    requires g.sink.phase.QueueDropped? && g.sink.queued + Cost(bytes) <= W
    requires g' == g.(reader := Counted(0, 0, bytes, true), sink := CountSink(g.sink, bytes))
    ensures Reachable(Streaming(o, [], [], g'))
  {
    assert Taking(g).sinks[0 := g'.sink] == map[0 := g'.sink];
    GoesB(Streaming(o, [], [], g), Reads(Count), Streaming(o, [], [], g'));
  }

  lemma Refuses(o: Out, bytes: Bytes, g: Giving, g': Giving)
    requires Reachable(Streaming(o, [], [], g)) && g.reader == Counted(0, 0, bytes, true) && g.sink.phase.QueueDropped?
    requires g' == g.(reader := Refused(0, bytes), spilled := g.spilled + {0}, sink := DeliverSink(g.sink, bytes, true))
    ensures Reachable(Streaming(o, [], [], g'))
  {
    assert Taking(g).sinks[0 := g'.sink] == map[0 := g'.sink];
    GoesB(Streaming(o, [], [], g), Reads(Deliver), Streaming(o, [], [], g'));
  }

  function Refusing(g: Giving, bytes: Bytes): Giving {
    g.(reader := Refused(0, bytes), spilled := g.spilled + {0},
       sink := DeliverSink(CountSink(g.sink, bytes), bytes, true))
  }

  /** The block is read twice by the dialer, counted twice and refused twice. */
  function Refused2(block: Bytes): Giving
    requires |block| == PUMP_BUF
  {
    var k := NewSink(0).(phase := QueueDropped, queued := 2 * Cost(block), excess := 2 * Cost(block));
    Giving(Refused(0, block), k, map[0 := Cost(block)], {0}, map[0 := 0])
  }

  function Read2(block: Bytes): Out {
    SOURCE.(src := block + block, taken := 2 * |block|, sent := 2 * |block|, available := W - 2 * Cost(block))
  }

  lemma SendsTwice(block: Bytes)
    requires |block| == PUMP_BUF
    ensures Reachable(Streaming(Read2(block), [], [], Refused2(block)))
  {
    Starts();
    var o0 := SOURCE.(src := block + block);
    Sends(SOURCE, Offer(block + block), NEW);
    assert PumpNext(SOURCE, Offer(block + block)) == o0;
    var g0 := NEW.(sink := NewSink(0).(phase := QueueDropped));
    Abandons(o0, g0);
    SendsFirst(o0, g0, block);
    var g2 := Refusing(g0, block).(reader := Idle, owed := map[0 := Cost(block)], forgone := map[0 := 0]);
    SendsSecond(Past(o0, block), g2, block);
    assert Past(Past(o0, block), block) == Read2(block);
    assert Refusing(g2, block) == Refused2(block);
  }

  lemma SendsFirst(o: Out, g: Giving, block: Bytes)
    requires |block| == PUMP_BUF && o == SOURCE.(src := block + block)
    requires g == NEW.(sink := NewSink(0).(phase := QueueDropped)) && Reachable(Streaming(o, [], [], g))
    ensures Reachable(Streaming(Past(o, block), [], [],
                                Refusing(g, block).(reader := Idle, owed := map[0 := Cost(block)],
                                  forgone := map[0 := 0])))
  {
    assert (block + block)[0..PUMP_BUF] == block;
    SendsFrame(o, block, g);
    CountsAndRefuses(Past(o, block), block, g.(reader := Reader.Hand(Data(0, block))));
    var g1 := Refusing(g, block);
    Owes(Past(o, block), block, g1, g1.(reader := Idle, owed := map[0 := Cost(block)], forgone := map[0 := 0]));
  }

  lemma SendsSecond(o: Out, g: Giving, block: Bytes)
    requires |block| == PUMP_BUF && o == Past(SOURCE.(src := block + block), block)
    requires g.reader.Idle? && g.sink.id == 0 && g.sink.phase.QueueDropped? && !g.sink.closeSeen
      && g.sink.queued <= W / 2
    requires Reachable(Streaming(o, [], [], g))
    ensures Reachable(Streaming(Past(o, block), [], [], Refusing(g, block)))
  {
    assert (block + block)[PUMP_BUF..PUMP_BUF + PUMP_BUF] == block;
    SendsFrame(o, block, g);
    CountsAndRefuses(Past(o, block), block, g.(reader := Reader.Hand(Data(0, block))));
  }

  /** `abandon` can grant far more than one frame twice: every frame that the reader
      counts and finds refused before the counter is read is granted there and owed
      as well. Here it is two frames of the largest size. */
  lemma TwoFramesGrantedTwice(block: Bytes)
    requires |block| == PUMP_BUF
    ensures var s := Streaming(Read2(block), [], [], Refused2(block));
            && Reachable(s) && 0 in s.a.outs && 0 in s.b.sinks && s.b.sinks[0].excess == 2 * MIN_STREAM_FRAME
            && s.a.outs[0].available + HandCost(s.a.outs[0]) + DataCost(OnTheWay(s), 0) + Returning(s, 0)
               == s.b.window + 2 * MIN_STREAM_FRAME
  {
    SendsTwice(block);
    var s := Streaming(Read2(block), [], [], Refused2(block));
    CreditIsConserved(s, 0);
  }

  lemma Abandons(o: Out, g: Giving)
    requires Reachable(Streaming(o, [], [], NEW)) && g == NEW.(sink := NewSink(0).(phase := QueueDropped))
    ensures Reachable(Streaming(o, [], [], g))
  {
    var e := Taking(NEW);
    assert e.sinks[0 := g.sink] == map[0 := g.sink] && e.queue + [] == e.queue;
    GoesB(Streaming(o, [], [], NEW), Drain(0, AbandonClose), Streaming(o, [], [], g));
  }

  lemma OwesFirst(cost: u32)
    ensures OweCredit(map[], 0, cost) == map[0 := cost] && Forgone(map[], 0, cost) == 0
  {
  }

  lemma OwesBlock(block: Bytes, g: Giving, g': Giving)
    requires g.reader == Refused(0, block) && |block| == PUMP_BUF && g.owed == map[] && g.forgone == map[]
    requires g' == g.(reader := Idle, owed := map[0 := Cost(block)], forgone := map[0 := 0])
    ensures DoOwe(Taking(g)) == Taking(g')
  {
    OwesFirst(Cost(block));
    assert Cost(block) % 0x1_0000_0000 == Cost(block);
    assert g.forgone[0 := 0] == g'.forgone;
  }

  lemma Owes(o: Out, block: Bytes, g: Giving, g': Giving)
    requires Reachable(Streaming(o, [], [], g)) && g.reader == Refused(0, block) && |block| == PUMP_BUF
    requires g.owed == map[] && g.forgone == map[]
    requires g' == g.(reader := Idle, owed := map[0 := Cost(block)], forgone := map[0 := 0])
    ensures Reachable(Streaming(o, [], [], g'))
  {
    OwesBlock(block, g, g');
    GoesB(Streaming(o, [], [], g), Reads(Owe), Streaming(o, [], [], g'));
  }
}
