/** Every step of the single-stream machine keeps the credit ledger, the order of
    the data, the place of the close and the marks of the barriers. */
module PipeLaws {
  import opened ByteStrings
  import opened Credit
  import opened Endpoint
  import opened EndpointLaws
  import opened PipeMachine

  lemma OpenKeeps(p: Pipe, s: PipeStep)
    requires PipeInv(p) && Local(p) && PipeEnabled(p, s) && (s.OpenOut? || s.OpenSink?)
    ensures PipeInv(PipeApply(p, s))
  {
  }

  lemma SenderHelloKeeps(p: Pipe)
    requires PipeInv(p) && Local(p) && !p.sw
    ensures PipeInv(PipeApply(p, SenderHello))
  {
    if p.out.Some? && !p.out.value.phase.Dropped? {
      var o' := p.out.value.(available := p.out.value.available + p.window);
      assert PipeApply(p, SenderHello) == p.(sw := true, pw := p.window, out := Some(o'));
      WindowedKeeps(p, p.out.value, o');
    } else {
      assert PipeApply(p, SenderHello) == p.(sw := true, pw := p.window);
    }
  }

  lemma WindowedKeeps(p: Pipe, o: Out, o': Out)
    requires PipeInv(p) && Local(p) && !p.sw && p.out == Some(o) && !o.phase.Dropped?
    requires o' == o.(available := o.available + p.window)
    ensures PipeInv(p.(sw := true, pw := p.window, out := Some(o')))
  {
    assert o'.Framed() == o.Framed() && o'.InHand() == o.InHand();
  }

  lemma FlagKeeps(p: Pipe, s: PipeStep)
    requires PipeInv(p) && (s.ReceiverHello? || s.Cut? || s.Shown?)
    ensures PipeInv(PipeApply(p, s))
  {
  }

  lemma GrantKeeps(p: Pipe, amount: u32)
    requires PipeInv(p) && Local(p) && amount <= p.back
    ensures PipeInv(PipeApply(p, TakeGrant(amount)))
  {
    GrantApplies(p, amount);
    if p.out.Some? && !p.out.value.phase.Dropped? {
      GrantedKeeps(p, p.out.value, GrantOut(p.out.value, amount), amount);
    } else {
      UnclaimedGrantKeeps(p, amount);
    }
  }

  lemma GrantApplies(p: Pipe, amount: u32)
    requires amount <= p.back
    ensures PipeApply(p, TakeGrant(amount)) == p.(back := p.back - amount, out := WithGrant(p.out, amount))
    ensures WithGrant(p.out, amount) == p.out ==> PipeApply(p, TakeGrant(amount)) == p.(back := p.back - amount)
  {
  }

  /** A grant that finds nobody only leaves. */
  lemma UnclaimedGrantKeeps(p: Pipe, amount: u32)
    requires PipeInv(p) && amount <= p.back && (p.out.Some? ==> p.out.value.phase.Dropped?)
    ensures PipeInv(p.(back := p.back - amount))
  {
  }

  lemma GrantedKeeps(p: Pipe, o: Out, o': Out, amount: u32)
    requires PipeInv(p) && Local(p) && amount <= p.back && p.out == Some(o) && !o.phase.Dropped?
      && o' == GrantOut(o, amount)
    ensures PipeInv(p.(back := p.back - amount, out := Some(o')))
  {
    assert o'.Framed() == o.Framed() && o'.InHand() == o.InHand();
  }

  lemma ChargeApplies(p: Pipe, bytes: Bytes, lost: nat)
    requires PipeInv(p) && Local(p) && p.stage == Turned(bytes) && p.rw && lost <= Cost(bytes)
    ensures PipeInv(PipeApply(p, Charge(lost)))
  {
    ChargeKeeps(p, bytes, lost);
    assert PipeApply(p, Charge(lost))
        == p.(stage := Nowhere, owed := p.owed + Cost(bytes) - lost, forgone := p.forgone + lost);
  }

  lemma AbortApplies(p: Pipe, bytes: Bytes)
    requires PipeInv(p) && Local(p) && p.stage == AtDoor(bytes)
    ensures PipeInv(PipeApply(p, Abort))
  {
    AbortKeeps(p, bytes);
    assert PipeApply(p, Abort) == p.(stage := Nowhere, forgone := p.forgone + Cost(bytes), spilled := true);
  }

  lemma RepayApplies(p: Pipe, n: u32)
    requires PipeInv(p) && n <= p.owed
    ensures PipeInv(PipeApply(p, Repay(n)))
  {
    RepayKeeps(p, n);
    assert PipeApply(p, Repay(n)) == p.(owed := p.owed - n, back := p.back + n);
  }

  lemma RepayKeeps(p: Pipe, n: u32)
    requires PipeInv(p) && n <= p.owed
    ensures PipeInv(p.(owed := p.owed - n, back := p.back + n))
  {
  }

  lemma ChargeKeeps(p: Pipe, bytes: Bytes, lost: nat)
    requires PipeInv(p) && Local(p) && p.stage == Turned(bytes) && p.rw && lost <= Cost(bytes)
    ensures PipeInv(p.(stage := Nowhere, owed := p.owed + Cost(bytes) - lost, forgone := p.forgone + lost))
  {
  }

  lemma AbortKeeps(p: Pipe, bytes: Bytes)
    requires PipeInv(p) && Local(p) && p.stage == AtDoor(bytes)
    ensures PipeInv(p.(stage := Nowhere, forgone := p.forgone + Cost(bytes), spilled := true))
  {
  }

  lemma PromiseKeepsFifo(p: Pipe, n: nat)
    requires Fifo(p)
    ensures Fifo(p.(line := p.line + [Mark(n)]))
  {
    LineAppend(p.line, Mark(n));
    assert LineBytes(p.line) + [] == LineBytes(p.line);
  }

  lemma PromiseKeeps(p: Pipe, n: nat)
    requires PipeInv(p) && Local(p) && PipeEnabled(p, Promise(n))
    ensures PipeInv(PipeApply(p, Promise(n)))
  {
    PromiseKeepsFifo(p, n);
    LineAppend(p.line, Mark(n));
    MarksAppend(p.line, Mark(n), p.out.value.Framed(), 0);
  }

  // ---- the sender's pump -----------------------------------------------------------

  lemma ReadKeepsFifo(p: Pipe, o: Out, n: nat)
    requires Fifo(p) && p.out == Some(o) && PumpCan(o, Read(n))
    ensures Fifo(PipeApply(p, Push(Read(n))))
  {
    var bytes := o.src[o.taken..o.taken + n];
    assert p.line + [] == p.line;
    assert o.src[..o.taken + n] == o.src[..o.taken] + bytes;
    var rest := Received(p) + StageBytes(p.stage) + LineBytes(p.line);
    assert rest + [] == rest;
  }

  lemma ReadKeeps(p: Pipe, o: Out, n: nat)
    requires PipeInv(p) && Local(p) && p.out == Some(o) && PumpCan(o, Read(n))
    ensures PipeInv(PipeApply(p, Push(Read(n))))
  {
    assert p.line + [] == p.line;
    ReadKeepsFifo(p, o, n);
    assert PipeApply(p, Push(Read(n))) == p.(out := Some(PumpNext(o, Read(n))));
  }

  lemma QueueKeepsFifo(p: Pipe, o: Out, bytes: Bytes)
    requires Fifo(p) && p.out == Some(o) && o.phase == Holding(bytes)
    ensures Fifo(PipeApply(p, Push(Queue)))
  {
    LineAppend(p.line, Chunk(bytes));
    var rest, line := Received(p) + StageBytes(p.stage), LineBytes(p.line);
    assert rest + (line + bytes) + [] == rest + line + bytes;
  }

  lemma QueueKeeps(p: Pipe, o: Out, bytes: Bytes)
    requires PipeInv(p) && Local(p) && p.out == Some(o) && o.phase == Holding(bytes)
    ensures PipeInv(PipeApply(p, Push(Queue)))
  {
    QueueKeepsFifo(p, o, bytes);
    LineAppend(p.line, Chunk(bytes));
    MarksAppend(p.line, Chunk(bytes), o.Framed(), |bytes|);
  }

  lemma QueueCloseKeeps(p: Pipe, o: Out)
    requires PipeInv(p) && Local(p) && p.out == Some(o) && PumpCan(o, QueueClose)
    ensures PipeInv(PipeApply(p, Push(QueueClose)))
  {
    LineAppend(p.line, Finish);
    MarksAppend(p.line, Finish, o.Framed(), 0);
  }

  lemma OfferKeepsFifo(p: Pipe, o: Out, bytes: Bytes)
    requires Fifo(p) && p.out == Some(o)
    ensures Fifo(p.(out := Some(o.(src := o.src + bytes))))
  {
    assert (o.src + bytes)[..o.taken] == o.src[..o.taken];
  }

  lemma OfferedKeeps(p: Pipe, o: Out, o': Out, bytes: Bytes)
    requires PipeInv(p) && Local(p) && p.out == Some(o) && !o.eof && o' == o.(src := o.src + bytes)
    ensures PipeInv(p.(out := Some(o')))
  {
    OfferKeepsFifo(p, o, bytes);
    assert o'.Framed() == o.Framed();
  }

  lemma OfferKeeps(p: Pipe, o: Out, m: PumpStep)
    requires PipeInv(p) && Local(p) && p.out == Some(o) && PumpCan(o, m) && (m.Offer? || m.OfferEof?)
    ensures PipeInv(PipeApply(p, Push(m)))
  {
    assert p.line + [] == p.line;
    match m
    case Offer(bytes) => OfferedKeeps(p, o, o.(src := o.src + bytes), bytes);
    case _ =>
  }

  lemma IdleMoveKeeps(p: Pipe, o: Out, m: PumpStep)
    requires PipeInv(p) && Local(p) && p.out == Some(o) && PipeEnabled(p, Push(m))
    requires m.Admit? || m.Retry? || m.Tally? || m.Quit? || m.Drop?
    ensures PipeInv(PipeApply(p, Push(m)))
  {
    assert p.line + [] == p.line;
  }

  lemma PushKeeps(p: Pipe, o: Out, m: PumpStep)
    requires PipeInv(p) && Local(p) && p.out == Some(o) && PipeEnabled(p, Push(m))
    ensures PipeInv(PipeApply(p, Push(m)))
  {
    match m
    case Read(n) => ReadKeeps(p, o, n);
    case Queue => QueueKeeps(p, o, o.phase.bytes);
    case QueueClose => QueueCloseKeeps(p, o);
    case Offer(_) | OfferEof => OfferKeeps(p, o, m);
    case Admit | Retry | Tally | Quit | Drop => IdleMoveKeeps(p, o, m);
  }

  // ---- the receiver's reader -------------------------------------------------------

  lemma ArriveKeeps(p: Pipe, bytes: Bytes, rest: seq<Token>)
    requires PipeInv(p) && Local(p) && p.line == [Chunk(bytes)] + rest && PipeEnabled(p, Arrive)
    ensures PipeInv(PipeApply(p, Arrive))
  {
    assert p.line[0] == Chunk(bytes) && p.line[1..] == rest;
    ArriveKeepsFifo(p, bytes, rest);
  }

  lemma ArriveKeepsFifo(p: Pipe, bytes: Bytes, rest: seq<Token>)
    requires Fifo(p) && p.line == [Chunk(bytes)] + rest && p.stage.Nowhere?
    ensures Fifo(DoArrive(p, bytes, rest))
  {
    assert p.line[1..] == rest;
    var got := Received(p);
    assert got + [] + (bytes + LineBytes(rest)) == got + bytes + LineBytes(rest);
  }

  /** A token that carries no data leaves the data where it was. */
  lemma ArriveKeepsOrder(p: Pipe, t: Token, rest: seq<Token>, p': Pipe)
    requires Fifo(p) && p.line == [t] + rest && !t.Chunk?
    requires p' == p.(line := rest, sink := p'.sink, shown := p'.shown, unopened := p'.unopened)
    requires p'.sink == p.sink || p'.sink == WithClose(p.sink)
    ensures Fifo(p')
  {
    LineHead(t, rest);
    assert [] + LineBytes(rest) == LineBytes(rest);
    if p.sink.Some? {
      var q := p.sink.value.inq;
      QueueBytesAppend(q, Fin);
      assert QueueBytes(q) + [] == QueueBytes(q);
    }
  }

  lemma ArriveFinishKeepsClosing(p: Pipe, rest: seq<Token>)
    requires Closing(p) && Local(p) && p.line == [Finish] + rest
    ensures Closing(p.(line := rest, sink := WithClose(p.sink)))
  {
    LineHead(Finish, rest);
    SilentMeans(rest);
    if p.sink.Some? {
      var q := p.sink.value.inq;
      if !HasFin(q) { FinAppend(q, Fin); }
    }
  }

  lemma ArriveFinishKeeps(p: Pipe, rest: seq<Token>)
    requires PipeInv(p) && Local(p) && p.line == [Finish] + rest && PipeEnabled(p, ArriveFinish)
    ensures PipeInv(PipeApply(p, ArriveFinish))
  {
    var p' := p.(line := rest, sink := WithClose(p.sink), unopened := p.unopened || p.sink.None?);
    assert p.line[0] == Finish && p.line[1..] == rest;
    LineHead(Finish, rest);
    ArriveKeepsOrder(p, Finish, rest, p');
    ArriveFinishKeepsClosing(p, rest);
    assert p.sink.Some? ==> SinkHolds(p'.sink.value) == SinkHolds(p.sink.value);
  }

  lemma ArriveMarkKeeps(p: Pipe, n: nat, rest: seq<Token>)
    requires PipeInv(p) && Local(p) && p.line == [Mark(n)] + rest && PipeEnabled(p, ArriveMark)
    ensures PipeInv(PipeApply(p, ArriveMark)) && PipeInv(PipeApply(p, DropMark))
  {
    assert p.line[0] == Mark(n) && p.line[1..] == rest;
    LineHead(Mark(n), rest);
    ArriveKeepsOrder(p, Mark(n), rest, p.(line := rest, shown := n));
    ArriveKeepsOrder(p, Mark(n), rest, p.(line := rest));
  }

  lemma EnterKeeps(p: Pipe, bytes: Bytes, k: Sink)
    requires PipeInv(p) && Local(p) && p.stage == AtDoor(bytes) && p.sink == Some(k) && PipeEnabled(p, Enter)
    ensures PipeInv(DoEnter(p, bytes, k))
  {
  }

  lemma DeliveredBytes(k: Sink, bytes: Bytes, early: bool)
    requires k.phase.Live? && OffsetIn(k)
    ensures SinkBytes(DeliverSink(k, bytes, early)) == SinkBytes(k) + bytes
  {
    QueueBytesAppend(k.inq, Payload(bytes));
    var start := k.written + (if k.held.Some? then k.held.value[k.off..] else []);
    assert start + (QueueBytes(k.inq) + bytes) == start + QueueBytes(k.inq) + bytes;
  }

  lemma HandKeepsFifo(p: Pipe, bytes: Bytes, early: bool, k: Sink)
    requires Fifo(p) && p.stage == InCounter(bytes, early) && p.sink == Some(k)
    ensures Fifo(DoHand(p, bytes, early, k))
  {
    if k.phase.Live? {
      DeliveredBytes(k, bytes, early);
      assert SinkBytes(k) + bytes == SinkBytes(k) + bytes + [];
    }
  }

  lemma HandKeepsLedger(p: Pipe, bytes: Bytes, early: bool, k: Sink)
    requires Ledger(p) && Local(p) && p.stage == InCounter(bytes, early) && p.sink == Some(k)
    ensures Ledger(DoHand(p, bytes, early, k))
  {
    var k' := DeliverSink(k, bytes, early);
    assert SinkHolds(k') == SinkHolds(k) && k'.lost == k.lost;
    assert k'.excess == k.excess + if early && !k.phase.Live? then Cost(bytes) else 0;
    var p' := DoHand(p, bytes, early, k);
    assert StageCost(p'.stage) == if k.phase.Live? then 0 else Cost(bytes);
    assert Outstanding(p') == Outstanding(p) - StageCost(p.stage) + StageCost(p'.stage);
  }

  lemma HandKeeps(p: Pipe, bytes: Bytes, early: bool, k: Sink)
    requires PipeInv(p) && Local(p) && p.stage == InCounter(bytes, early) && p.sink == Some(k)
    ensures PipeInv(DoHand(p, bytes, early, k))
  {
    HandKeepsFifo(p, bytes, early, k);
    HandKeepsLedger(p, bytes, early, k);
    QueueAppend(k.inq, Payload(bytes));
    if !HasFin(k.inq) { FinAppend(k.inq, Payload(bytes)); }
  }

  // ---- the receiver's pump ---------------------------------------------------------

  lemma TakeKeepsFifo(p: Pipe, k: Sink, m: StreamMsg, rest: seq<StreamMsg>)
    requires Fifo(p) && p.sink == Some(k) && k.inq == [m] + rest && m.Payload? && k.held.None?
    ensures Fifo(p.(sink := Some(k.(inq := rest, held := Some(m.bytes), off := 0))))
  {
    assert k.inq[0] == m && k.inq[1..] == rest && m.bytes[0..] == m.bytes;
    assert k.written + [] + (m.bytes + QueueBytes(rest)) == k.written + m.bytes + QueueBytes(rest);
  }

  lemma WriteKeepsFifo(p: Pipe, k: Sink, bytes: Bytes, n: nat)
    requires Fifo(p) && p.sink == Some(k) && k.held == Some(bytes) && k.off + n <= |bytes|
    ensures Fifo(p.(sink := Some(k.(off := k.off + n, written := k.written + bytes[k.off..k.off + n]))))
  {
    assert bytes[k.off..] == bytes[k.off..k.off + n] + bytes[k.off + n..];
    assert k.written + bytes[k.off..k.off + n] + bytes[k.off + n..] == k.written + bytes[k.off..];
  }

  lemma ConsumedKeepsFifo(p: Pipe, k: Sink, bytes: Bytes, k': Sink)
    requires Fifo(p) && p.sink == Some(k) && k.held == Some(bytes) && k.off == |bytes|
    requires k'.held.None? && k'.off == 0 && k'.written == k.written && k'.inq == k.inq && k'.phase == k.phase
    ensures Fifo(p.(sink := Some(k')))
  {
    assert bytes[k.off..] == [];
  }

  /** What a step of the pump must keep: the credit its sink holds, with what it
      sends back or loses, and the end of its queue. */
  lemma SinkUpdateKeeps(p: Pipe, k: Sink, k': Sink, sent: nat)
    requires PipeInv(p) && p.sink == Some(k)
    requires SinkHolds(k') + sent + k'.lost == SinkHolds(k) + k.lost && k'.excess == k.excess
    requires k'.closeSeen == k.closeSeen && FinIsLast(k'.inq)
    requires Fifo(p.(sink := Some(k'))) && Quiet(p.(sink := Some(k')))
    ensures PipeInv(p.(sink := Some(k'), back := p.back + sent))
  {
  }

  lemma PullUpdates(p: Pipe, k: Sink, s: SinkStep, k': Sink, sent: nat)
    requires PipeInv(p) && p.sink == Some(k) && PipeEnabled(p, Pull(s)) && k' == SinkNext(k, p.window, p.rw, s)
    requires sent == if s.QueueGrant? then k.pending.value else 0
    requires SinkHolds(k') + sent + k'.lost == SinkHolds(k) + k.lost && k'.excess == k.excess
    requires FinIsLast(k'.inq) && Fifo(p.(sink := Some(k'))) && Quiet(p.(sink := Some(k')))
    ensures PipeInv(PipeApply(p, Pull(s)))
  {
    SinkUpdateKeeps(p, k, k', sent);
    assert PipeApply(p, Pull(s)) == p.(sink := Some(k'), back := p.back + sent);
  }

  lemma ConsumedKeeps(p: Pipe, k: Sink, bytes: Bytes, idle: bool)
    requires PipeInv(p) && Local(p) && p.sink == Some(k) && k.held == Some(bytes) && SinkCan(k, Consumed(idle))
    ensures PipeInv(PipeApply(p, Pull(Consumed(idle))))
  {
    var k' := SinkNext(k, p.window, p.rw, Consumed(idle));
    ConsumeConserves(k.ungranted, p.window, Cost(bytes), idle);
    ConsumedKeepsFifo(p, k, bytes, k');
    PullUpdates(p, k, Consumed(idle), k', 0);
  }

  lemma TakeKeeps(p: Pipe, k: Sink, m: StreamMsg, rest: seq<StreamMsg>)
    requires PipeInv(p) && Local(p) && p.sink == Some(k) && k.inq == [m] + rest && SinkCan(k, SinkStep.Take)
    ensures PipeInv(PipeApply(p, Pull(SinkStep.Take)))
  {
    assert k.inq[0] == m && k.inq[1..] == rest;
    TakeKeepsFifo(p, k, m, rest);
    PullUpdates(p, k, SinkStep.Take, SinkNext(k, p.window, p.rw, SinkStep.Take), 0);
  }

  lemma WriteKeeps(p: Pipe, k: Sink, bytes: Bytes, n: nat)
    requires PipeInv(p) && Local(p) && p.sink == Some(k) && k.held == Some(bytes) && SinkCan(k, Write(n))
    ensures PipeInv(PipeApply(p, Pull(Write(n))))
  {
    WriteKeepsFifo(p, k, bytes, n);
    var k' := k.(off := k.off + n, written := k.written + bytes[k.off..k.off + n]);
    assert SinkNext(k, p.window, p.rw, Write(n)) == k';
    PullUpdates(p, k, Write(n), k', 0);
  }

  /** The steps that end or abandon the stream, and the grant that follows. */
  lemma StopKeeps(p: Pipe, k: Sink, s: SinkStep)
    requires PipeInv(p) && Local(p) && p.sink == Some(k) && PipeEnabled(p, Pull(s))
    requires s.EndAtClose? || s.EndUnrouted? || s.AbandonClose? || s.AbandonLoad? || s.AbandonDrop?
    ensures PipeInv(PipeApply(p, Pull(s)))
  {
    var k' := SinkNext(k, p.window, p.rw, s);
    StopKeepsFifo(p, k, s, k');
    assert Quiet(p.(sink := Some(k')));
    PullUpdates(p, k, s, k', 0);
  }

  lemma StopKeepsFifo(p: Pipe, k: Sink, s: SinkStep, k': Sink)
    requires Fifo(p) && FinIsLast(k.inq) && p.sink == Some(k) && SinkCan(k, s) && k' == SinkNext(k, p.window, p.rw, s)
    requires s.EndAtClose? || s.EndUnrouted? || s.AbandonClose? || s.AbandonLoad? || s.AbandonDrop?
    ensures Fifo(p.(sink := Some(k')))
  {
    if s.EndAtClose? { assert k.inq == [k.inq[0]]; }
  }

  lemma QueueGrantKeeps(p: Pipe, k: Sink)
    requires PipeInv(p) && Local(p) && p.sink == Some(k) && SinkCan(k, QueueGrant)
    ensures PipeInv(PipeApply(p, Pull(QueueGrant)))
  {
    PullUpdates(p, k, QueueGrant, SinkNext(k, p.window, p.rw, QueueGrant), k.pending.value);
  }

  lemma PullKeeps(p: Pipe, k: Sink, s: SinkStep)
    requires PipeInv(p) && Local(p) && p.sink == Some(k) && PipeEnabled(p, Pull(s))
    ensures PipeInv(PipeApply(p, Pull(s)))
  {
    match s
    case Take =>
      assert k.inq == [k.inq[0]] + k.inq[1..];
      TakeKeeps(p, k, k.inq[0], k.inq[1..]);
    case Write(n) => WriteKeeps(p, k, k.held.value, n);
    case Consumed(idle) => ConsumedKeeps(p, k, k.held.value, idle);
    case QueueGrant => QueueGrantKeeps(p, k);
    case EndAtClose | EndUnrouted | AbandonClose | AbandonLoad | AbandonDrop => StopKeeps(p, k, s);
  }

  // ---- every step ------------------------------------------------------------------

  /** Whatever one stream does, its credit adds up, its bytes stay in order, its
      close stays last and its marks stay covered. */
  lemma PipeStepKeeps(p: Pipe, s: PipeStep)
    requires PipeInv(p) && Local(p) && PipeEnabled(p, s)
    ensures PipeInv(PipeApply(p, s))
  {
    match s
    case OpenOut(_) | OpenSink => OpenKeeps(p, s);
    case SenderHello => SenderHelloKeeps(p);
    case ReceiverHello | Cut | Shown => FlagKeeps(p, s);
    case Push(m) => PushKeeps(p, p.out.value, m);
    case Promise(n) => PromiseKeeps(p, n);
    case TakeGrant(amount) => GrantKeeps(p, amount);
    case Arrive => assert p.line == [p.line[0]] + p.line[1..]; ArriveKeeps(p, p.line[0].bytes, p.line[1..]);
    case ArriveFinish => assert p.line == [p.line[0]] + p.line[1..]; ArriveFinishKeeps(p, p.line[1..]);
    case ArriveMark | DropMark =>
      assert p.line == [p.line[0]] + p.line[1..];
      ArriveMarkKeeps(p, p.line[0].n, p.line[1..]);
    case Enter => EnterKeeps(p, p.stage.bytes, p.sink.value);
    case Hand => HandKeeps(p, p.stage.bytes, p.stage.early, p.sink.value);
    case Charge(lost) => ChargeApplies(p, p.stage.bytes, lost);
    case Abort => AbortApplies(p, p.stage.bytes);
    case Repay(n) => RepayApplies(p, n);
    case Pull(k) => PullKeeps(p, p.sink.value, k);
  }

  // ---- late streams -----------------------------------------------------------------

  /** A stream opened after the peer's Hello. Only such a stream is held to the
      window from its first byte. */
  predicate Late(p: Pipe) {
    p.out.Some? && !p.out.value.early
  }

  /** A frame of a late stream always finds room in a live stream's queue, so
      `wait_for_room` does not wait for it. */
  lemma LateFramesFindRoom(p: Pipe, bytes: Bytes)
    requires PipeInv(p) && Local(p) && Late(p) && p.sink.Some? && p.sink.value.phase.Live?
    requires p.stage == AtDoor(bytes)
    ensures p.sink.value.queued + Cost(bytes) <= QueueLimit(p.window)
  {
    var o := p.out.value;
    assert o.available + HandCost(o) >= 1 - MIN_STREAM_FRAME;
  }

  /** `abandon` loses credit of a late stream only if a frame was granted twice:
      without that, what its sink holds is at most the window and one frame. */
  predicate NoLateLoss(p: Pipe) {
    Late(p) && p.sink.Some? && p.sink.value.excess == 0 ==> p.sink.value.lost == 0
  }

  lemma LateSinkHolds(p: Pipe, o: Out, k: Sink)
    requires Ledger(p) && Local(p) && p.out == Some(o) && !o.early && p.sink == Some(k) && p.sw && p.pw == p.window
    ensures SinkHolds(k) <= p.window + k.excess + MIN_STREAM_FRAME - 1
  {
    assert o.available + HandCost(o) >= 1 - MIN_STREAM_FRAME;
  }

  lemma LoadKeepsNoLateLoss(p: Pipe, k: Sink)
    requires PipeInv(p) && Local(p) && p.sink == Some(k) && SinkCan(k, AbandonLoad) && p.window <= MAX_WINDOW
    ensures NoLateLoss(PipeApply(p, Pull(AbandonLoad)))
  {
    if Late(p) { LateSinkHolds(p, p.out.value, k); }
    assert SinkHolds(k) == k.ungranted + k.queued;
  }

  lemma NoLateLossKept(p: Pipe, s: PipeStep)
    requires PipeInv(p) && Local(p) && PipeEnabled(p, s) && NoLateLoss(p) && p.window <= MAX_WINDOW
    ensures NoLateLoss(PipeApply(p, s))
  {
    match s
    case Pull(k) =>
      if k.AbandonLoad? { LoadKeepsNoLateLoss(p, p.sink.value); } else { PullLosesNothing(p, p.sink.value, k); }
    case OpenOut(_) | OpenSink | SenderHello | ReceiverHello | Cut | Push(_) | Promise(_) | TakeGrant(_) =>
    case Arrive | ArriveFinish | ArriveMark | DropMark | Shown | Enter | Hand | Charge(_) | Abort | Repay(_) =>
  }

  lemma PullLosesNothing(p: Pipe, k: Sink, m: SinkStep)
    requires NoLateLoss(p) && p.sink == Some(k) && PipeEnabled(p, Pull(m)) && !m.AbandonLoad?
    ensures NoLateLoss(PipeApply(p, Pull(m)))
  {
    var k' := SinkNext(k, p.window, p.rw, m);
    assert k'.excess == k.excess && k'.lost == k.lost;
  }

  // ---- what must not go missing -----------------------------------------------------

  /** Credit is dropped only with data; and unless it came before its sink was open,
      a close that was queued is on its way, or has been seen and told to the pump. */
  predicate Arrivals(p: Pipe) {
    && (p.forgone > 0 ==> p.spilled)
    && (p.sink.Some? && p.sink.value.phase.Live? && p.sink.value.closeSeen ==> HasFin(p.sink.value.inq))
    && (p.out.Some? && !p.cut && (p.out.value.phase.Ending? || p.out.value.phase.Dropped?) ==>
          HasFinish(p.line) || p.unopened || (p.sink.Some? && (p.sink.value.closeSeen || p.sink.value.Closed())))
  }

  lemma PushKeepsArrivals(p: Pipe, o: Out, m: PumpStep)
    requires PipeInv(p) && Arrivals(p) && p.out == Some(o) && PipeEnabled(p, Push(m))
    ensures Arrivals(PipeApply(p, Push(m)))
  {
    assert p.line + [] == p.line;
    match m
    case Queue => LineAppend(p.line, Chunk(o.phase.bytes));
    case QueueClose => LineAppend(p.line, Finish);
    case Offer(_) | OfferEof | Admit | Retry | Read(_) | Tally | Quit | Drop =>
  }

  lemma PullKeepsArrivals(p: Pipe, k: Sink, m: SinkStep)
    requires Arrivals(p) && p.sink == Some(k) && PipeEnabled(p, Pull(m))
    ensures Arrivals(PipeApply(p, Pull(m)))
  {
    var k' := SinkNext(k, p.window, p.rw, m);
    match m
    case Take => assert HasFin(k.inq) == HasFin(k.inq[1..]);
    case Write(_) | Consumed(_) | QueueGrant | EndAtClose | EndUnrouted | AbandonClose | AbandonLoad | AbandonDrop =>
  }

  lemma TokenKeepsArrivals(p: Pipe, t: Token, rest: seq<Token>, s: PipeStep)
    requires Arrivals(p) && Local(p) && p.line == [t] + rest && PipeEnabled(p, s)
    requires s.Arrive? || s.ArriveFinish? || s.ArriveMark? || s.DropMark?
    ensures Arrivals(PipeApply(p, s))
  {
    LineHead(t, rest);
    assert p.line[0] == t && p.line[1..] == rest;
    if s.ArriveFinish? && p.sink.Some? { QueueAppend(p.sink.value.inq, Fin); }
  }

  lemma HandKeepsArrivals(p: Pipe, bytes: Bytes, early: bool, k: Sink)
    requires Arrivals(p) && p.stage == InCounter(bytes, early) && p.sink == Some(k)
    ensures Arrivals(DoHand(p, bytes, early, k))
  {
    QueueAppend(k.inq, Payload(bytes));
  }

  lemma ArrivalsKept(p: Pipe, s: PipeStep)
    requires PipeInv(p) && Local(p) && PipeEnabled(p, s) && Arrivals(p)
    ensures Arrivals(PipeApply(p, s))
  {
    match s
    case Push(m) => PushKeepsArrivals(p, p.out.value, m);
    case Pull(k) => PullKeepsArrivals(p, p.sink.value, k);
    case Promise(n) => LineAppend(p.line, Mark(n));
    case Arrive | ArriveFinish | ArriveMark | DropMark =>
      assert p.line == [p.line[0]] + p.line[1..];
      TokenKeepsArrivals(p, p.line[0], p.line[1..], s);
    case Hand => HandKeepsArrivals(p, p.stage.bytes, p.stage.early, p.sink.value);
    case OpenOut(_) | OpenSink | SenderHello | ReceiverHello | Cut | TakeGrant(_) =>
    case Shown | Enter | Charge(_) | Abort | Repay(_) =>
  }
}
