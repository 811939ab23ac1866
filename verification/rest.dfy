/** A session in which nothing can move any more is at rest, with every window back
    where it belongs, or its two readers wait for each other; and they never do if
    the streams of one direction were opened after the other end's Hello. */
module AtRestLaws {
  import opened ByteStrings
  import opened Proto
  import opened Credit
  import opened Wire
  import opened Endpoint
  import opened EndpointLaws
  import opened PipeMachine
  import opened PipeLaws
  import opened Session
  import opened Refinement
  import opened Handoff
  import opened Spills
  import opened Settling
  import opened Theorems

  ghost predicate Still(s: Sys) {
    forall step: Step :: Moving(step) ==> !EnabledA(s, step)
  }

  /** No step of either end moves anything. */
  ghost predicate Settled(s: Sys) {
    Still(s) && Still(Swap(s))
  }

  predicate ReaderRests(s: Sys) {
    s.a.reader.Idle? && s.ba == [] && s.a.ctrl == []
  }

  lemma CannotMove(s: Sys, step: Step)
    requires Still(s) && Moving(step)
    ensures !EnabledA(s, step)
  {
  }

  lemma NothingToReceive(s: Sys)
    requires Still(s) && s.a.reader.Idle? && Greeted(s.b, s.a, s.ba)
    ensures s.ba == []
  {
    if s.ba != [] {
      assert s.ba[0].Data? ==> |s.ba[0].bytes| <= PUMP_BUF;
      CannotMove(s, Reads(Receive(s.ba[0])));
    }
  }

  lemma NothingSurfaced(s: Sys)
    requires Still(s)
    ensures s.a.ctrl == [] && !s.a.reader.Surfacing?
  {
    CannotMove(s, App(AppReceive));
    CannotMove(s, Reads(Surface));
  }

  lemma NothingInHand(s: Sys)
    requires Still(s) && SinksOk(s.a)
    ensures !s.a.reader.Hand? && !s.a.reader.Counted? && !s.a.reader.Refused?
  {
    CannotMove(s, Reads(Inspect));
    CannotMove(s, Reads(Deliver));
    CannotMove(s, Reads(Owe));
  }

  lemma NothingToOpen(s: Sys)
    requires Still(s) && Handed(s)
    ensures !s.a.reader.Materializing?
  {
    CannotMove(s, Reads(FinishFds));
    if s.a.reader.Materializing? && s.a.reader.rest != [] {
      NextOfferIsFree(s.a, s.b, s.orderly);
      MayOpen(s, s.a.reader.rest[0].id);
      CannotMove(s, Reads(Materialize(s.a.reader.rest[0].id)));
    }
  }

  /** A reader that is neither stopped nor waiting for room waits for a frame. */
  lemma ReaderComesToRest(s: Sys)
    requires Still(s) && Sound(s) && Handed(s) && !s.a.reader.Stopped? && !s.a.reader.Room?
    ensures ReaderRests(s)
  {
    NothingSurfaced(s);
    NothingInHand(s);
    NothingToOpen(s);
    NothingToReceive(s);
  }

  predicate WriterRests(e: End) {
    e.helloSent && e.flushing == map[] && e.owed == map[] && e.queue == []
  }

  lemma WriterComesToRest(s: Sys)
    requires Still(s) && s.ab == [] && s.cap > 0
    ensures WriterRests(s.a)
  {
    CannotMove(s, Writer(SayHello));
    forall id | id in s.a.flushing
      ensures false
    {
      CannotMove(s, Writer(GrantOwed(id)));
    }
    CannotMove(s, Writer(TakeOwed));
    CannotMove(s, Writer(WriteQueued));
  }

  predicate SinkRests(k: Sink) {
    k.pending.None? && !k.phase.QueueDropped? && !k.phase.Loaded? && (k.phase.Live? ==> k.held.None? && k.inq == [])
  }

  /** Which step a sink that is not at rest can take. */
  function SinkMove(k: Sink): SinkStep {
    if k.pending.Some? then QueueGrant
    else if k.phase.QueueDropped? then AbandonLoad
    else if k.phase.Loaded? then AbandonDrop
    else if k.held.Some? then if k.off < |k.held.value| then SinkStep.Write(1) else Consumed(true)
    else if k.inq != [] && k.inq[0].Fin? then EndAtClose
    else SinkStep.Take
  }

  lemma SinkComesToRest(s: Sys, h: Handle, k: Sink)
    requires Still(s) && s.a.queue == [] && h in s.a.sinks && s.a.sinks[h] == k
    requires SinkOk(k, s.a.window, s.a.peerWindowed, HalfQueued(s.a.reader, h))
    ensures SinkRests(k)
  {
    CannotMove(s, Drain(h, SinkMove(k)));
  }

  /** A reader that waits for room waits for a sink that is not at rest. */
  lemma RestHasRoom(s: Sys)
    requires Still(s) && SinksOk(s.a) && s.a.queue == []
    ensures !s.a.reader.Room?
  {
    if s.a.reader.Room? {
      var k := s.a.sinks[s.a.reader.h];
      assert SinkOk(k, s.a.window, s.a.peerWindowed, HalfQueued(s.a.reader, s.a.reader.h));
      SinkComesToRest(s, s.a.reader.h, k);
      CannotMove(s, Reads(Count));
    }
  }

  lemma OutComesToRest(s: Sys, h: Handle, o: Out)
    requires Still(s) && s.a.queue == [] && h in s.a.outs && s.a.outs[h] == o
    ensures !o.phase.Holding? && !o.phase.Counting?
  {
    CannotMove(s, Pump(h, Queue));
    CannotMove(s, Pump(h, Tally));
  }

  /** A reader that waits although nothing moves waits for room for a stream that
      was opened before its Hello was handled. */
  lemma WaitsForEarly(s: Sys)
    requires Reachable(s) && Still(Swap(s)) && s.b.reader.Room?
    ensures s.b.reader.h == s.b.reader.id && s.b.reader.h in s.a.outs && s.a.outs[s.b.reader.h].early
  {
    WaitsForSender(s);
    var x := s.b.reader.id;
    CannotMove(Swap(s), Reads(Count));
    CannotMove(Swap(s), Drain(x, AbandonLoad));
    CannotMove(Swap(s), Drain(x, AbandonDrop));
    if !s.a.outs[x].early { NoHeadOfLineBlocking(s, x); }
  }

  lemma WaitsForSender(s: Sys)
    requires Reachable(s) && s.b.reader.Room?
    ensures s.b.reader.h == s.b.reader.id && s.b.reader.h in s.a.outs
  {
    ReachableIsGood(s);
    NamesFit(s.b);
    PipeFacts(s, s.b.reader.id);
    assert View(s, s.b.reader.id).stage.AtDoor?;
  }

  /** Everything on its way has arrived, and the two ends wait for the outside. */
  ghost predicate Resting(s: Sys) {
    && ReaderRests(s) && ReaderRests(Swap(s)) && WriterRests(s.a) && WriterRests(s.b)
    && (forall h :: h in s.a.sinks ==> SinkRests(s.a.sinks[h]))
    && (forall h :: h in s.b.sinks ==> SinkRests(s.b.sinks[h]))
  }

  lemma SinksComeToRest(s: Sys)
    requires Still(s) && s.a.queue == [] && SinksOk(s.a)
    ensures forall h :: h in s.a.sinks ==> SinkRests(s.a.sinks[h])
  {
    forall h | h in s.a.sinks
      ensures SinkRests(s.a.sinks[h])
    {
      assert SinkOk(s.a.sinks[h], s.a.window, s.a.peerWindowed, HalfQueued(s.a.reader, h));
      SinkComesToRest(s, h, s.a.sinks[h]);
    }
  }

  lemma OneReaderSuffices(s: Sys)
    requires Good(s) && Settled(s) && !s.a.reader.Stopped? && !s.b.reader.Stopped? && !s.b.reader.Room?
    ensures Resting(s)
  {
    GoodBothWays(s);
    ReaderComesToRest(Swap(s));
    WriterComesToRest(s);
    RestHasRoom(s);
    ReaderComesToRest(s);
    WriterComesToRest(Swap(s));
    SinksComeToRest(s);
    SinksComeToRest(Swap(s));
  }

  /** Each reader waits for room, and so takes nothing from the other end. */
  predicate WaitForEachOther(s: Sys) {
    s.a.reader.Room? && s.b.reader.Room?
  }

  /** When nothing moves any more, either everything has arrived or the two readers
      wait for each other; and then each waits on behalf of a stream that was opened
      before the other end's Hello was handled. */
  lemma SettledIsAtRest(s: Sys)
    requires Reachable(s) && Settled(s) && !s.a.reader.Stopped? && !s.b.reader.Stopped?
    ensures Resting(s) <==> !WaitForEachOther(s)
    ensures WaitForEachOther(s) ==>
              && s.b.reader.h in s.a.outs && s.a.outs[s.b.reader.h].early
              && s.a.reader.h in s.b.outs && s.b.outs[s.a.reader.h].early
  {
    ReachableIsGood(s);
    GoodBothWays(s);
    ReachableBothWays(s);
    assert Swap(Swap(s)) == s;
    if s.a.reader.Room? && s.b.reader.Room? {
      WaitsForEarly(s);
      WaitsForEarly(Swap(s));
    } else if s.b.reader.Room? {
      OneReaderSuffices(Swap(s));
    } else {
      OneReaderSuffices(s);
    }
  }

  /** All streams the end sends were opened after the peer's Hello. */
  ghost predicate AllLate(e: End) {
    forall h :: h in e.outs ==> !e.outs[h].early
  }

  /** So it comes to rest if either end opened its streams after that Hello. */
  lemma LateStreamsComeToRest(s: Sys)
    requires Reachable(s) && Settled(s) && !s.a.reader.Stopped? && !s.b.reader.Stopped?
    requires AllLate(s.a) || AllLate(s.b)
    ensures Resting(s)
  {
    SettledIsAtRest(s);
  }

  lemma NamesFit(e: End)
    requires SinksOk(e) && Tidy(e)
    ensures ReaderInStream(e.reader) ==> e.reader.id == e.reader.h
  {
  }

  /** No credit deadlock: once nothing moves any more, every sender of either end
      that has not ended has its whole window to spend, but for what the receiver has
      thrown away; so it waits for data and not for credit, unless as much as a whole
      window was thrown away, or the two readers wait for each other. */
  lemma RestRestoresEveryWindow(s: Sys, x: u32)
    requires Reachable(s) && Settled(s) && !s.a.reader.Stopped? && !s.b.reader.Stopped? && !WaitForEachOther(s)
    ensures WindowIsBack(s, x) && WindowIsBack(Swap(s), x)
  {
    ReachableBothWays(s);
    assert Swap(Swap(s)) == s;
    SettledIsAtRest(s);
    RestRestoresWindow(s, x);
    RestRestoresWindow(Swap(s), x);
  }

  predicate WindowIsBack(s: Sys, x: u32) {
    x in s.a.outs && !s.a.outs[x].phase.Ending? && !s.a.outs[x].phase.Dropped? ==>
      s.a.peerWindowed && CreditIsBack(s.a.outs[x], SinkOf(s.b, x), s.b.window, History(s.b.forgone, x))
  }

  /** All of the window but what is gone for good, which is nothing in the common
      cases: no debt was dropped, and the sink lives, or grants are wide enough, or
      the stream is late and no frame was granted twice. */
  predicate CreditIsBack(o: Out, k: Option<Sink>, window: u32, gone: nat) {
    var (lost, excess) := if k.Some? then (k.value.lost, k.value.excess) else (0, 0);
    && o.available + gone + lost == window + excess
    && (MaySend(true, o.available) <==> gone + lost < window + excess)
    && (gone == 0 && (k.None? || k.value.phase.Live? || window <= MAX_EXACT_WINDOW || (!o.early && excess == 0)) ==>
          o.available >= window && MaySend(true, o.available))
  }

  lemma RestRestoresWindow(s: Sys, x: u32)
    requires Reachable(s) && Resting(s) && Still(s)
    ensures WindowIsBack(s, x)
  {
    if x in s.a.outs && !s.a.outs[x].phase.Ending? && !s.a.outs[x].phase.Dropped? {
      ReachableIsGood(s);
      OutComesToRest(s, x, s.a.outs[x]);
      NothingReturns(s, x);
      CreditComesBack(s, x, s.a.outs[x], SinkOf(s.b, x), History(s.b.forgone, x));
    }
  }

  lemma CreditComesBack(s: Sys, x: u32, o: Out, k: Option<Sink>, gone: nat)
    requires Reachable(s) && Resting(s) && x in s.a.outs && s.a.outs[x] == o && k == SinkOf(s.b, x)
    requires gone == History(s.b.forgone, x) && !o.phase.Dropped? && HandCost(o) == 0
    requires Returning(s, x) == 0 && DataCost(OnTheWay(s), x) == 0
    ensures s.a.peerWindowed && CreditIsBack(o, k, s.b.window, gone)
  {
    HelloWasHandled(s);
    CreditIsConserved(s, x);
  }

  lemma HelloWasHandled(s: Sys)
    requires Reachable(s) && Resting(s)
    ensures s.a.peerWindowed && ValidWindow(s.b.window)
  {
    ReachableIsGood(s);
  }

  lemma RestingSinkHoldsNothing(p: Pipe, k: Sink, o: Out)
    requires PipeInv(p) && Local(p) && p.sink == Some(k) && p.out == Some(o) && !o.phase.Ending? && !o.phase.Dropped?
    requires SinkRests(k) && p.stage.Nowhere? && (k.phase.Ended? ==> k.closeSeen)
    ensures SinkHolds(k) == 0
  {
  }

  lemma NothingReturns(s: Sys, x: u32)
    requires Good(s) && Resting(s) && x in s.a.outs && !s.a.outs[x].phase.Ending? && !s.a.outs[x].phase.Dropped?
    ensures Returning(s, x) == 0 && DataCost(OnTheWay(s), x) == 0
  {
    assert OnTheWay(s) == [];
    if x in s.b.sinks {
      ViewIsLocal(s, x);
      assert PipeGood(View(s, x));
      RestingSinkHoldsNothing(View(s, x), s.b.sinks[x], s.a.outs[x]);
    }
  }

  // ---- what the two programs have done by then ---------------------------------------------------

  /** A sender whose pump can do nothing more waits for credit, waits for its holder,
      or has ended. */
  lemma SenderComesToRest(s: Sys, h: Handle, o: Out)
    requires Still(s) && HasQueueRoom(s.a) && h in s.a.outs && s.a.outs[h] == o
    requires OutOk(o, s.a.closed, s.a.peerWindowed)
    ensures o.phase.Waiting? || o.phase.Ready? || o.phase.Dropped?
    ensures o.phase.Waiting? ==> !s.a.closed && !MaySend(s.a.peerWindowed, o.available)
    ensures o.phase.Ready? ==> o.taken == |o.src| && !o.eof
    ensures o.phase.Dropped? ==> s.a.closed || (o.eof && o.taken == |o.src|)
  {
    CannotMove(s, Pump(h, Queue));
    CannotMove(s, Pump(h, Tally));
    CannotMove(s, Pump(h, PumpStep.Drop));
    CannotMove(s, Pump(h, Admit));
    CannotMove(s, Pump(h, Quit));
    CannotMove(s, Pump(h, PumpStep.Read(1)));
    CannotMove(s, Pump(h, QueueClose));
  }

  /** Asked for, but not sent because of something other than a stream: no room in
      the frame queue, or no ids left for its descriptors. */
  predicate HeldBack(e: End, t: Task) {
    t.todo == [] && (|e.queue| >= 64 || (t.what.Delegate? && |e.planned| + |t.what.dirs| > 0x8000_0000))
  }

  /** Waiting at its barrier for bytes that its holder has written into an open
      stream and that no frame holds yet. */
  predicate WaitsForBytes(e: End, t: Task) {
    && t.todo != [] && t.todo[0] in e.outs && t.target.Some? && !e.closed
    && !e.outs[t.todo[0]].phase.Dropped? && e.outs[t.todo[0]].sent < t.target.value <= |e.outs[t.todo[0]].src|
  }

  lemma TaskComesToRest(s: Sys, task: nat, t: Task)
    requires Still(s) && task in s.a.tasks && s.a.tasks[task] == t && TaskOk(t, s.a.outs, s.a.closed)
    ensures HeldBack(s.a, t) || WaitsForBytes(s.a, t)
  {
    CannotMove(s, App(Aim(task)));
    CannotMove(s, App(Pass(task)));
    CannotMove(s, App(QueueMessage(task)));
  }

  /** Barriers end: when nothing moves any more, a message that was asked for and has
      not been queued waits for bytes its stream's pump has not framed, or the frame
      queue is full, or the ids are used up. This is so even of two readers that
      wait for each other. */
  lemma BarriersEnd(s: Sys, task: nat)
    requires Reachable(s) && Settled(s)
    ensures task in s.a.tasks ==> HeldBack(s.a, s.a.tasks[task]) || WaitsForBytes(s.a, s.a.tasks[task])
    ensures task in s.b.tasks ==> HeldBack(s.b, s.b.tasks[task]) || WaitsForBytes(s.b, s.b.tasks[task])
  {
    ReachableIsGood(s);
    if task in s.a.tasks { TaskComesToRest(s, task, s.a.tasks[task]); }
    if task in s.b.tasks { TaskComesToRest(Swap(s), task, s.b.tasks[task]); }
  }

  /** At rest a barrier waits only for a sender that is out of credit. */
  lemma BarriersWaitForCredit(s: Sys, task: nat)
    requires Reachable(s) && Settled(s) && !s.a.reader.Stopped? && !s.b.reader.Stopped? && !WaitForEachOther(s)
    requires task in s.a.tasks && s.a.tasks[task].todo != []
    ensures WaitsForBytes(s.a, s.a.tasks[task])
    ensures s.a.peerWindowed && s.a.outs[s.a.tasks[task].todo[0]].available <= 0
  {
    ReachableIsGood(s);
    SettledIsAtRest(s);
    var t := s.a.tasks[task];
    TaskComesToRest(s, task, t);
    var o := s.a.outs[t.todo[0]];
    assert OutOk(o, s.a.closed, s.a.peerWindowed);
    SenderComesToRest(s, t.todo[0], o);
  }

  /** Eventual delivery: when nothing moves any more, every byte that any holder has
      written into a stream has been read, and written out at the other end, and
      every end of file has arrived, for every stream of either end whose holder
      stays: whatever the other streams did, and whatever the schedule. */
  lemma EverythingIsDelivered(s: Sys, x: u32)
    requires Reachable(s) && Settled(s) && !s.a.reader.Stopped? && !s.b.reader.Stopped? && !WaitForEachOther(s)
    requires x in s.a.outs && Kept(s.b, x) && !s.a.closed
    ensures s.a.outs[x].taken == |s.a.outs[x].src|
    ensures s.a.outs[x].src != [] ==> x in s.b.sinks
    ensures x in s.b.sinks ==> s.b.sinks[x].written == s.a.outs[x].src
    ensures s.a.outs[x].phase.Dropped? <==> s.a.outs[x].eof
    ensures s.a.outs[x].eof && x !in s.b.unrouted ==> x in s.b.sinks && s.b.sinks[x].phase.Ended?
  {
    SettledIsAtRest(s);
    SenderIsDone(s, x, s.a.outs[x]);
    PipeFacts(s, x);
    LineMeans(s, x);
    ArrivedIsWritten(s, x, View(s, x), s.a.outs[x]);
  }

  lemma SenderIsDone(s: Sys, x: u32, o: Out)
    requires Reachable(s) && Settled(s) && Resting(s) && x in s.a.outs && s.a.outs[x] == o && Kept(s.b, x)
      && !s.a.closed
    ensures o.taken == |o.src| && (o.phase.Ready? || o.phase.Dropped?) && (o.phase.Dropped? <==> o.eof)
  {
    ReachableIsGood(s);
    assert OutOk(o, s.a.closed, s.a.peerWindowed);
    SenderComesToRest(s, x, o);
    if o.phase.Waiting? { KeptHasCredit(s, x, o); }
  }

  lemma KeptHasCredit(s: Sys, x: u32, o: Out)
    requires Reachable(s) && Resting(s) && Still(s) && x in s.a.outs && s.a.outs[x] == o && Kept(s.b, x)
    requires o.phase.Waiting?
    ensures MaySend(s.a.peerWindowed, o.available)
  {
    HelloWasHandled(s);
    PipeFacts(s, x);
    RestRestoresWindow(s, x);
    assert Arrivals(View(s, x));
    CreditIsConserved(s, x);
  }

  lemma ArrivedIsWritten(s: Sys, x: u32, p: Pipe, o: Out)
    requires Resting(s) && p == View(s, x) && PipeGood(p) && Local(p) && p.out == Some(o) && Kept(s.b, x) && !s.a.closed
    requires LineBytes(p.line) == DataBytes(OnTheWay(s), x) && p.line == Tokens(OnTheWay(s), x)
    requires o.taken == |o.src| && (o.phase.Ready? || o.phase.Dropped?)
    ensures o.src != [] ==> x in s.b.sinks
    ensures x in s.b.sinks ==> s.b.sinks[x].written == o.src
    ensures o.phase.Dropped? && x !in s.b.unrouted ==> x in s.b.sinks && s.b.sinks[x].phase.Ended?
  {
    assert OnTheWay(s) == [];
    assert p.line == [] && p.stage.Nowhere? && o.src[..o.taken] == o.src;
    AllIsReceived(p, o);
    if x in s.b.sinks { RestingSinkHasWritten(p, s.b.sinks[x]); }
  }

  lemma AllIsReceived(p: Pipe, o: Out)
    requires Fifo(p) && Whole(p) && p.out == Some(o) && p.line == [] && p.stage.Nowhere?
    requires o.taken == |o.src| && o.InHand() == []
    ensures Received(p) == o.src
  {
    assert Received(p) + [] + [] + [] == Received(p) && o.src[..|o.src|] == o.src;
  }

  lemma RestingSinkHasWritten(p: Pipe, k: Sink)
    requires Fifo(p) && Local(p) && Whole(p) && p.sink == Some(k) && SinkRests(k)
    ensures Received(p) == k.written
  {
    assert QueueBytes(k.inq) == [] && k.written + [] + [] == k.written;
  }

  // ---- a transport that goes away ------------------------------------------------------------------

  /** When its reader has stopped an end winds down: once nothing moves, every pump
      that writes a descriptor has ended or been abandoned, every pump that reads one
      has ended or waits for its holder, and no message waits at a barrier. */
  lemma StoppedEndsWindDown(s: Sys, h: Handle, task: nat)
    requires Reachable(s) && Still(s) && s.a.reader.Stopped? && |s.a.queue| < 64
    ensures s.a.closed
    ensures h in s.a.sinks ==> s.a.sinks[h].phase.Ended? || (s.a.sinks[h].phase.Gone? && s.a.sinks[h].pending.None?)
    ensures h in s.a.outs ==>
      s.a.outs[h].phase.Dropped?
      || (s.a.outs[h].phase.Ready? && s.a.outs[h].taken == |s.a.outs[h].src| && !s.a.outs[h].eof)
    ensures task in s.a.tasks ==> HeldBack(s.a, s.a.tasks[task])
  {
    ReachableIsGood(s);
    if h in s.a.sinks {
      assert SinkOk(s.a.sinks[h], s.a.window, s.a.peerWindowed, HalfQueued(s.a.reader, h));
      StoppedSinkEnds(s, h, s.a.sinks[h]);
    }
    if h in s.a.outs {
      assert OutOk(s.a.outs[h], s.a.closed, s.a.peerWindowed);
      SenderComesToRest(s, h, s.a.outs[h]);
    }
    if task in s.a.tasks { TaskComesToRest(s, task, s.a.tasks[task]); }
  }

  lemma StoppedSinkEnds(s: Sys, h: Handle, k: Sink)
    requires Still(s) && HasQueueRoom(s.a) && s.a.reader.Stopped? && h in s.a.sinks && s.a.sinks[h] == k
    requires SinkOk(k, s.a.window, s.a.peerWindowed, HalfQueued(s.a.reader, h))
    ensures k.phase.Ended? || (k.phase.Gone? && k.pending.None?)
  {
    CannotMove(s, Drain(h, SinkMove(k)));
    CannotMove(s, Drain(h, EndUnrouted));
  }
}
