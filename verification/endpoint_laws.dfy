/** What one end keeps whatever its peer sends: bounded queues, the credit
    bounds, exact stream maps, the live-stream count and the barrier. */
module EndpointLaws {
  import opened ByteStrings
  import opened Proto
  import opened Credit
  import opened Wire
  import opened Endpoint

  // ---- bounded backlog -----------------------------------------------------------

  function QueueCost(q: seq<StreamMsg>): nat {
    if q == [] then 0
    else (if q[0].Payload? then Cost(q[0].bytes) else 0) + QueueCost(q[1..])
  }

  predicate QueueSized(q: seq<StreamMsg>) {
    q == [] || ((q[0].Payload? ==> WireSized(q[0].bytes)) && QueueSized(q[1..]))
  }

  predicate HasFin(q: seq<StreamMsg>) {
    q != [] && (q[0].Fin? || HasFin(q[1..]))
  }

  lemma {:induction false} QueueAppend(q: seq<StreamMsg>, m: StreamMsg)
    ensures QueueCost(q + [m]) == QueueCost(q) + if m.Payload? then Cost(m.bytes) else 0
    ensures QueueSized(q + [m]) <==> QueueSized(q) && (m.Payload? ==> WireSized(m.bytes))
    ensures HasFin(q + [m]) <==> HasFin(q) || m.Fin?
  {
    if q == [] {
      assert q + [m] == [m];
    } else {
      assert (q + [m])[1..] == q[1..] + [m];
      QueueAppend(q[1..], m);
    }
  }

  function HeldCost(k: Sink): nat {
    if k.held.Some? then Cost(k.held.value) else 0
  }

  /** The frame the reader has counted into this sink and not yet sent on. */
  function HalfQueued(r: Reader, h: Handle): nat {
    if r.Counted? && r.h == h && r.early then Cost(r.bytes) else 0
  }

  predicate WireSized(b: Bytes) {
    |b| <= MAX_FRAME_PAYLOAD
  }

  /** A live sink's counter is exactly what waits for its pump; no sink's counter
      passes the queue limit while it can still be read; and an idle sink owes no
      grant. `half` is the reader's half-finished enqueue. */
  predicate SinkOk(k: Sink, window: u32, peerWindowed: bool, half: nat) {
    && (k.phase.Live? ==> k.excess == 0 && k.queued == QueueCost(k.inq) + HeldCost(k) + half)
    && (k.phase.QueueDropped? ==> k.excess + half <= k.queued)
    && (k.phase.Ended? ==> k.excess == 0 && half == 0)
    && (k.Counting() || k.phase.Ended? || window <= MAX_EXACT_WINDOW ==> k.lost == 0)
    && (k.Counting() ==> k.queued <= QueueLimit(window) && Pending(k.ungranted, window))
    && k.excess + half <= QueueLimit(window)
    && (Between(k) && k.inq == [] ==> k.ungranted == 0)
    && (!peerWindowed ==> k.ungranted == 0)
    && (k.held.Some? ==> k.phase.Live? && k.pending.None? && k.off <= |k.held.value| && WireSized(k.held.value))
    && (k.pending.Some? ==> k.phase.Gone? || (k.phase.Live? && k.ungranted == 0))
    && (!k.phase.Live? ==> k.inq == [] && k.held.None?)
    && QueueSized(k.inq) && (HasFin(k.inq) ==> k.closeSeen)
  }

  ghost predicate SinksOk(e: End) {
    && (forall h :: h in e.sinks ==> SinkOk(e.sinks[h], e.window, e.peerWindowed, HalfQueued(e.reader, h)))
    && (ReaderInStream(e.reader) ==>
          && e.reader.h in e.sinks
          && var k := e.sinks[e.reader.h];
             && !k.closeSeen && !k.phase.Ended? && k.id == e.reader.id && Cost(e.reader.bytes) <= QueueLimit(e.window)
             && (e.reader.Counted? && !e.reader.early ==> !k.Counting()))
    && (ReaderInStream(e.reader) || e.reader.Refused? ==> WireSized(e.reader.bytes))
    && (e.reader.Hand? && e.reader.frame.Data? ==> WireSized(e.reader.frame.bytes))
    && |e.owed| <= MAX_OWED_STREAMS && |e.flushing| <= MAX_OWED_STREAMS
  }

  predicate ReaderInStream(r: Reader) {
    r.Room? || r.Counted?
  }

  // ---- stream identity -----------------------------------------------------------

  predicate Routed(k: Sink) {
    !k.closeSeen && !k.Closed()
  }

  /** Each map holds, for every id, the most recently opened stream of that id, and
      holds it exactly until that stream is dropped or, on the receiving side,
      closed. So no older stream's end ever removes a newer one. */
  ghost predicate RoutesOk(sinks: map<Handle, Sink>, routes: map<u32, Handle>, last: map<u32, Handle>) {
    && (forall h :: h in sinks ==> sinks[h].id in last)
    && (forall id :: id in last ==> last[id] in sinks && sinks[last[id]].id == id)
    && (forall id :: id in routes <==> id in last && Routed(sinks[last[id]]))
    && (forall id :: id in routes ==> routes[id] == last[id])
  }

  ghost predicate ProgressOk(outs: map<Handle, Out>, progress: map<u32, Handle>, last: map<u32, Handle>) {
    && (forall h :: h in outs ==> outs[h].id in last)
    && (forall id :: id in last ==> last[id] in outs && outs[last[id]].id == id)
    && (forall id :: id in progress <==> id in last && !outs[last[id]].phase.Dropped?)
    && (forall id :: id in progress ==> progress[id] == last[id])
  }

  ghost predicate MapsOk(e: End) {
    RoutesOk(e.sinks, e.routes, e.lastSink) && ProgressOk(e.outs, e.progress, e.lastOut)
  }

  // ---- live streams --------------------------------------------------------------

  ghost function LiveStreams(e: End): set<Handle> {
    set h | h in e.delegated && RunsPump(e.outs, e.sinks, h)
  }

  ghost predicate LiveOk(e: End) {
    && e.live == |LiveStreams(e)|
    && e.live <= MAX_LIVE_STREAMS
    && (e.reader.Materializing? ==> e.live + |e.reader.rest| <= MAX_LIVE_STREAMS)
  }

  // ---- senders and the barrier ---------------------------------------------------

  /** The pump's accounts, and the bound on a windowed sender's overshoot: one
      frame, and less than that while it holds the frame it was charged for. */
  predicate OutOk(o: Out, closed: bool, peerWindowed: bool) {
    && o.taken <= |o.src|
    && (o.phase.Holding? ==>
          0 < |o.phase.bytes| <= PUMP_BUF && |o.phase.bytes| <= o.taken
          && o.phase.bytes == o.src[o.taken - |o.phase.bytes|..o.taken])
    && o.sent + (if o.phase.Counting? then o.phase.n else 0) == o.Framed()
    && (o.phase.Ending? || o.phase.Dropped? ==> closed || (o.eof && o.taken == |o.src|))
    && (!o.early ==> peerWindowed && o.available + Cost(o.InHand()) - MUX_HEADER >= 1 - MIN_STREAM_FRAME)
    && (!o.early && o.phase.Ready? ==> o.available >= 1)
    && (!o.early && o.phase.Holding? ==> o.available >= 1 - Cost(o.phase.bytes))
  }

  /** Every stream the barrier has passed has queued what it promised, unless the
      flow is closed; and it never waits for more than a stream has been offered. */
  ghost predicate TaskOk(t: Task, outs: map<Handle, Out>, closed: bool) {
    && (forall h :: h in t.promise ==> h in outs && outs[h].socket && t.promise[h] <= |outs[h].src|)
    && (forall h :: h in t.promise && h !in t.todo ==> closed || t.promise[h] <= outs[h].Framed())
    && (forall h :: h in t.todo ==> h in outs)
    && (t.target.Some? ==>
          && t.todo != [] && t.todo[0] in outs && t.target.value <= |outs[t.todo[0]].src|
          && (t.todo[0] in t.promise ==> t.promise[t.todo[0]] <= t.target.value))
  }

  ghost predicate SendersOk(e: End) {
    && (forall h :: h in e.outs ==> OutOk(e.outs[h], e.closed, e.peerWindowed))
    && (forall t :: t in e.tasks ==> TaskOk(e.tasks[t], e.outs, e.closed))
    && (forall t :: t in e.tasks && e.tasks[t].what.Delegate? ==> t == MAIN)
    && (MAIN in e.tasks ==> e.starting == [])
    && (e.reader.Stopped? ==> e.closed)
  }

  ghost predicate EndOk(e: End) {
    SinksOk(e) && MapsOk(e) && LiveOk(e) && SendersOk(e)
  }

  lemma StartsOk(dialer: bool, window: u32)
    ensures EndOk(NewEnd(dialer, window))
  {
    assert LiveStreams(NewEnd(dialer, window)) == {};
  }

  // ---- the sinks ------------------------------------------------------------------

  ghost predicate SameReader(e: End, e': End) {
    && e'.reader == e.reader && e'.window == e.window && e'.peerWindowed == e.peerWindowed
    && e'.owed == e.owed && e'.flushing == e.flushing
  }

  /** Replacing one sink by one that is in order leaves the others in order. */
  lemma SinksKeptByUpdate(e: End, h: Handle, k: Sink, e': End)
    requires SinksOk(e) && h in e.sinks && SameReader(e, e') && e'.sinks == e.sinks[h := k]
    requires ReaderHolds(e, h) ==>
      !k.closeSeen && !k.phase.Ended? && k.id == e.reader.id && (k.Counting() ==> e.sinks[h].Counting())
    ensures SinkOk(k, e.window, e.peerWindowed, HalfQueued(e.reader, h)) ==> SinksOk(e')
  {
  }

  lemma ConsumedOk(k: Sink, idle: bool, window: u32, peerWindowed: bool, half: nat)
    requires SinkOk(k, window, peerWindowed, half) && SinkCan(k, Consumed(idle))
    ensures SinkOk(SinkNext(k, window, peerWindowed, Consumed(idle)), window, peerWindowed, half)
  {
    if peerWindowed {
      ConsumeConserves(k.ungranted, window, Cost(k.held.value), idle);
    }
  }

  lemma SinkStepOk(k: Sink, s: SinkStep, window: u32, peerWindowed: bool, half: nat)
    requires SinkOk(k, window, peerWindowed, half) && SinkCan(k, s)
    requires s.EndUnrouted? || s.EndAtClose? ==> half == 0
    ensures SinkOk(SinkNext(k, window, peerWindowed, s), window, peerWindowed, half)
  {
    if s.Consumed? {
      ConsumedOk(k, s.idle, window, peerWindowed, half);
    } else if s.AbandonLoad? {
      AbandonIsExact(k.ungranted, k.queued, window);
    }
  }

  lemma SinksKeptBySink(e: End, h: Handle, k: Sink, s: SinkStep)
    requires SinksOk(e) && h in e.sinks && e.sinks[h] == k && SinkEnabled(e, h, k, s)
    ensures SinksOk(ApplySink(e, h, s))
  {
    SinkStepOk(k, s, e.window, e.peerWindowed, HalfQueued(e.reader, h));
    SinksKeptByUpdate(e, h, SinkNext(k, e.window, e.peerWindowed, s), ApplySink(e, h, s));
  }

  lemma SinksKeptByWriter(e: End, w: WriterStep)
    requires SinksOk(e) && WriterEnabled(e, w)
    ensures SinksOk(ApplyWriter(e, w))
  {
    if w.GrantOwed? {
      assert (e.flushing - {w.id}).Keys == e.flushing.Keys - {w.id};
    }
  }

  lemma SinksKeptBySame(e: End, e': End)
    requires SinksOk(e) && SameReader(e, e') && e'.sinks == e.sinks
    ensures SinksOk(e')
  {
  }

  lemma SinksKeptByPump(e: End, h: Handle, p: PumpStep)
    requires SinksOk(e) && h in e.outs && PumpEnabled(e, e.outs[h], p)
    ensures SinksOk(ApplyPump(e, h, p))
  {
    SinksKeptBySame(e, ApplyPump(e, h, p));
  }

  /** Nothing changes for the sinks while the reader is between streams. */
  lemma SinksKeptByMove(e: End, e': End)
    requires SinksOk(e) && e'.sinks == e.sinks && e'.window == e.window
    requires e.peerWindowed ==> e'.peerWindowed
    requires !e.reader.Counted? && !ReaderInStream(e'.reader)
    requires e'.flushing == e.flushing && |e'.owed| <= MAX_OWED_STREAMS
    requires e'.reader.Refused? ==> WireSized(e'.reader.bytes)
    requires e'.reader.Hand? && e'.reader.frame.Data? ==> WireSized(e'.reader.frame.bytes)
    ensures SinksOk(e')
  {
    forall h | h in e'.sinks
      ensures SinkOk(e'.sinks[h], e'.window, e'.peerWindowed, HalfQueued(e'.reader, h))
    {
      assert SinkOk(e.sinks[h], e.window, e.peerWindowed, HalfQueued(e.reader, h));
    }
  }

  lemma CountOk(k: Sink, window: u32, peerWindowed: bool, bytes: Bytes)
    requires SinkOk(k, window, peerWindowed, 0) && Cost(bytes) <= QueueLimit(window) && !k.phase.Ended?
    requires HasRoom(k.queued, Cost(bytes), QueueLimit(window), k.Closed())
    ensures SinkOk(CountSink(k, bytes), window, peerWindowed, if k.Counting() then Cost(bytes) else 0)
  {
  }

  lemma SinksKeptByCount(e: End, h: Handle, id: u32, bytes: Bytes)
    requires SinksOk(e) && e.reader == Room(h, id, bytes) && ReaderEnabled(e, Count)
    ensures SinksOk(DoCount(e))
  {
    assert SinkOk(e.sinks[h], e.window, e.peerWindowed, 0);
    CountOk(e.sinks[h], e.window, e.peerWindowed, bytes);
    var e' := DoCount(e);
    forall g | g in e'.sinks
      ensures SinkOk(e'.sinks[g], e'.window, e'.peerWindowed, HalfQueued(e'.reader, g))
    {
      if g != h { assert SinkOk(e.sinks[g], e.window, e.peerWindowed, HalfQueued(e.reader, g)); }
    }
  }

  lemma DeliverOk(k: Sink, window: u32, peerWindowed: bool, bytes: Bytes, early: bool)
    requires SinkOk(k, window, peerWindowed, if early then Cost(bytes) else 0) && WireSized(bytes)
    requires k.phase.Live? ==> early
    requires !k.phase.Ended?
    ensures SinkOk(DeliverSink(k, bytes, early), window, peerWindowed, 0)
  {
    QueueAppend(k.inq, Payload(bytes));
  }

  lemma SinksKeptByDeliver(e: End, h: Handle, k: Sink, id: u32, bytes: Bytes, early: bool)
    requires SinksOk(e) && e.reader == Counted(h, id, bytes, early) && h in e.sinks && e.sinks[h] == k
    ensures SinksOk(DoDeliver(e))
  {
    assert SinkOk(k, e.window, e.peerWindowed, if early then Cost(bytes) else 0);
    DeliverOk(k, e.window, e.peerWindowed, bytes, early);
    var e' := DoDeliver(e);
    forall g | g in e'.sinks
      ensures SinkOk(e'.sinks[g], e'.window, e'.peerWindowed, HalfQueued(e'.reader, g))
    {
      if g != h { assert SinkOk(e.sinks[g], e.window, e.peerWindowed, HalfQueued(e.reader, g)); }
    }
  }

  lemma CloseOk(k: Sink, window: u32, peerWindowed: bool)
    requires SinkOk(k, window, peerWindowed, 0)
    ensures SinkOk(CloseSink(k), window, peerWindowed, 0)
  {
    QueueAppend(k.inq, Fin);
  }

  lemma SinksKeptByClose(e: End, id: u32)
    requires SinksOk(e) && e.reader == Hand(Close(id))
    ensures SinksOk(HandleClose(e, id))
  {
    var e' := HandleClose(e, id);
    forall g | g in e'.sinks
      ensures SinkOk(e'.sinks[g], e'.window, e'.peerWindowed, HalfQueued(e'.reader, g))
    {
      assert SinkOk(e.sinks[g], e.window, e.peerWindowed, HalfQueued(e.reader, g));
      CloseOk(e.sinks[g], e.window, e.peerWindowed);
    }
  }

  lemma SinksKeptByHello(e: End, verdict: Verdict)
    requires SinksOk(e) && e.reader.Hand?
    ensures SinksOk(HandleHello(e, verdict))
  {
    SinksKeptByMove(e, HandleHello(e, verdict));
  }

  lemma SinksKeptByData(e: End, id: u32, bytes: Bytes)
    requires SinksOk(e) && MapsOk(e) && e.reader == Hand(Data(id, bytes))
    ensures SinksOk(HandleData(e, id, bytes))
  {
    var e' := HandleData(e, id, bytes);
    if e'.reader.Room? {
      forall h | h in e'.sinks
        ensures SinkOk(e'.sinks[h], e'.window, e'.peerWindowed, HalfQueued(e'.reader, h))
      {
        assert SinkOk(e.sinks[h], e.window, e.peerWindowed, HalfQueued(e.reader, h));
      }
    } else {
      SinksKeptByMove(e, e');
    }
  }

  lemma SinksKeptByInspect(e: End, f: Frame)
    requires SinksOk(e) && MapsOk(e) && e.reader == Hand(f)
    ensures SinksOk(HandleFrame(e, f))
  {
    match f
    case Hello(payload) => SinksKeptByHello(e, HelloVerdict(e.peerWindowed, payload));
    case Close(id) => SinksKeptByClose(e, id);
    case Data(id, bytes) => SinksKeptByData(e, id, bytes);
    case _ => SinksKeptByMove(e, HandleFrame(e, f));
  }

  lemma SinksKeptByOpen(e: End, h: Handle, id: u32, dir: Dir, socket: bool)
    requires SinksOk(e) && Fresh(e, h)
    ensures SinksOk(OpenPumps(e, h, id, dir, socket))
  {
    var e' := OpenPumps(e, h, id, dir, socket);
    assert !ReaderHolds(e, h);
    forall g | g in e'.sinks
      ensures SinkOk(e'.sinks[g], e'.window, e'.peerWindowed, HalfQueued(e'.reader, g))
    {
      if g != h { assert SinkOk(e.sinks[g], e.window, e.peerWindowed, HalfQueued(e.reader, g)); }
    }
  }

  lemma SinksKeptByReader(e: End, r: ReaderStep)
    requires SinksOk(e) && MapsOk(e) && ReaderEnabled(e, r)
    ensures SinksOk(ApplyReader(e, r))
  {
    match r
    case Inspect => SinksKeptByInspect(e, e.reader.frame);
    case Count => SinksKeptByCount(e, e.reader.h, e.reader.id, e.reader.bytes);
    case Deliver =>
      SinksKeptByDeliver(e, e.reader.h, e.sinks[e.reader.h], e.reader.id, e.reader.bytes, e.reader.early);
    case Materialize(h) =>
      var spec := e.reader.rest[0];
      SinksKeptByOpen(e, h, spec.id, spec.dir.Invert(), true);
      SinksKeptByMove(OpenPumps(e, h, spec.id, spec.dir.Invert(), true), ApplyReader(e, r));
    case Owe => SinksKeptByMove(e, DoOwe(e));
    case _ => SinksKeptByMove(e, ApplyReader(e, r));
  }

  lemma SinksKeptByApp(e: End, a: AppStep)
    requires SinksOk(e) && AppEnabled(e, a)
    ensures SinksOk(ApplyApp(e, a))
  {
    if a.StartPump? {
      var spec := e.starting[0];
      SinksKeptByOpen(e, a.h, spec.id, spec.dir, false);
      SinksKeptBySame(OpenPumps(e, a.h, spec.id, spec.dir, false), ApplyApp(e, a));
    } else {
      SinksKeptBySame(e, ApplyApp(e, a));
    }
  }

  // ---- the maps -------------------------------------------------------------------

  /** Replacing a sink under its own id, and removing it from the map if it ends. */
  lemma RoutesKeptByUpdate(sinks: map<Handle, Sink>, routes: map<u32, Handle>, last: map<u32, Handle>,
                           h: Handle, k: Sink, drops: bool)
    requires RoutesOk(sinks, routes, last) && h in sinks && k.id == sinks[h].id
    requires if drops then !Routed(k) else Routed(k) == Routed(sinks[h])
    ensures RoutesOk(sinks[h := k], if drops then Unregister(routes, k.id, h) else routes, last)
  {
  }

  lemma RoutesKeptByOpen(sinks: map<Handle, Sink>, routes: map<u32, Handle>, last: map<u32, Handle>, h: Handle, id: u32)
    requires RoutesOk(sinks, routes, last) && h !in sinks
    ensures RoutesOk(sinks[h := NewSink(id)], routes[id := h], last[id := h])
  {
  }

  lemma RoutesKeptByClose(sinks: map<Handle, Sink>, routes: map<u32, Handle>, last: map<u32, Handle>, id: u32)
    requires RoutesOk(sinks, routes, last)
    ensures RoutesOk(if id in routes && routes[id] in sinks then sinks[routes[id] := CloseSink(sinks[routes[id]])]
      else sinks,
                     routes - {id}, last)
  {
    if id in routes && routes[id] in sinks {
      var h, k := routes[id], CloseSink(sinks[routes[id]]);
      RoutesKeptByUpdate(sinks, routes, last, h, k, true);
      assert Unregister(routes, k.id, h) == routes - {id};
    } else {
      assert routes - {id} == routes;
    }
  }

  lemma ProgressKeptByUpdate(outs: map<Handle, Out>, progress: map<u32, Handle>, last: map<u32, Handle>,
                             h: Handle, o: Out, drops: bool)
    requires ProgressOk(outs, progress, last) && h in outs && o.id == outs[h].id
    requires if drops then o.phase.Dropped? else o.phase.Dropped? == outs[h].phase.Dropped?
    ensures ProgressOk(outs[h := o], if drops then Unregister(progress, o.id, h) else progress, last)
  {
  }

  lemma ProgressKeptByOpen(outs: map<Handle, Out>, progress: map<u32, Handle>, last: map<u32, Handle>, h: Handle,
          o: Out)
    requires ProgressOk(outs, progress, last) && h !in outs && !o.phase.Dropped?
    ensures ProgressOk(outs[h := o], progress[o.id := h], last[o.id := h])
  {
  }

  lemma ProgressKeptByGrants(outs: map<Handle, Out>, progress: map<u32, Handle>, last: map<u32, Handle>,
          outs': map<Handle, Out>)
    requires ProgressOk(outs, progress, last) && outs'.Keys == outs.Keys
    requires forall h :: h in outs ==> outs'[h] == outs[h].(available := outs'[h].available)
    ensures ProgressOk(outs', progress, last)
  {
  }

  ghost predicate SameMaps(e: End, e': End) {
    && e'.sinks == e.sinks && e'.routes == e.routes && e'.lastSink == e.lastSink
    && e'.outs == e.outs && e'.progress == e.progress && e'.lastOut == e.lastOut
  }

  lemma MapsKeptBySame(e: End, e': End)
    requires MapsOk(e) && SameMaps(e, e')
    ensures MapsOk(e')
  {
  }

  lemma MapsKeptBySink(e: End, h: Handle, k: Sink, s: SinkStep)
    requires MapsOk(e) && h in e.sinks && e.sinks[h] == k && SinkEnabled(e, h, k, s)
    ensures MapsOk(ApplySink(e, h, s))
  {
    RoutesKeptByUpdate(e.sinks, e.routes, e.lastSink, h, SinkNext(k, e.window, e.peerWindowed, s), Drops(s));
  }

  lemma MapsKeptByPump(e: End, h: Handle, p: PumpStep)
    requires MapsOk(e) && h in e.outs && PumpEnabled(e, e.outs[h], p)
    ensures MapsOk(ApplyPump(e, h, p))
  {
    ProgressKeptByUpdate(e.outs, e.progress, e.lastOut, h, PumpNext(e.outs[h], p), p.Drop?);
  }

  lemma MapsKeptByOpen(e: End, h: Handle, id: u32, dir: Dir, socket: bool)
    requires MapsOk(e) && Fresh(e, h)
    ensures MapsOk(OpenPumps(e, h, id, dir, socket))
  {
    RoutesKeptByOpen(e.sinks, e.routes, e.lastSink, h, id);
    ProgressKeptByOpen(e.outs, e.progress, e.lastOut, h, NewOut(e, id, socket));
  }

  lemma MapsKeptByHello(e: End, verdict: Verdict)
    requires MapsOk(e)
    ensures MapsOk(HandleHello(e, verdict))
  {
    ProgressKeptByGrants(e.outs, e.progress, e.lastOut, HandleHello(e, verdict).outs);
  }

  lemma MapsKeptByWindow(e: End, id: u32, amount: u32)
    requires MapsOk(e)
    ensures MapsOk(HandleWindow(e, id, amount))
  {
    ProgressKeptByGrants(e.outs, e.progress, e.lastOut, HandleWindow(e, id, amount).outs);
  }

  lemma MapsKeptByInspect(e: End, f: Frame)
    requires MapsOk(e) && e.reader == Hand(f)
    ensures MapsOk(HandleFrame(e, f))
  {
    match f
    case Close(id) => RoutesKeptByClose(e.sinks, e.routes, e.lastSink, id);
    case Hello(payload) => MapsKeptByHello(e, HelloVerdict(e.peerWindowed, payload));
    case Window(id, amount) => MapsKeptByWindow(e, id, amount);
    case Data(id, bytes) => MapsKeptBySame(e, HandleData(e, id, bytes));
    case Fds(payload, after) => MapsKeptBySame(e, HandleFds(e, payload, after));
    case Control(_, _, _) | Unknown => MapsKeptBySame(e, HandleFrame(e, f));
  }

  lemma MapsKeptByCount(e: End, h: Handle, id: u32, bytes: Bytes)
    requires MapsOk(e) && e.reader == Room(h, id, bytes) && ReaderEnabled(e, Count)
    ensures MapsOk(DoCount(e))
  {
    RoutesKeptByUpdate(e.sinks, e.routes, e.lastSink, h, CountSink(e.sinks[h], bytes), false);
  }

  lemma MapsKeptByDeliver(e: End, h: Handle, id: u32, bytes: Bytes, early: bool)
    requires MapsOk(e) && e.reader == Counted(h, id, bytes, early) && ReaderEnabled(e, Deliver)
    ensures MapsOk(DoDeliver(e))
  {
    RoutesKeptByUpdate(e.sinks, e.routes, e.lastSink, h, DeliverSink(e.sinks[h], bytes, early), false);
  }

  lemma MapsKeptByReader(e: End, r: ReaderStep)
    requires MapsOk(e) && ReaderEnabled(e, r)
    ensures MapsOk(ApplyReader(e, r))
  {
    match r
    case Inspect => MapsKeptByInspect(e, e.reader.frame);
    case Materialize(h) =>
      var spec := e.reader.rest[0];
      MapsKeptByOpen(e, h, spec.id, spec.dir.Invert(), true);
      MapsKeptBySame(OpenPumps(e, h, spec.id, spec.dir.Invert(), true), DoMaterialize(e, h));
    case Count => MapsKeptByCount(e, e.reader.h, e.reader.id, e.reader.bytes);
    case Deliver => MapsKeptByDeliver(e, e.reader.h, e.reader.id, e.reader.bytes, e.reader.early);
    case Owe => MapsKeptBySame(e, DoOwe(e));
    case Receive(_) | MaterializeFails | FinishFds | Surface | Shutdown => MapsKeptBySame(e, ApplyReader(e, r));
  }

  lemma MapsKeptByApp(e: End, a: AppStep)
    requires MapsOk(e) && AppEnabled(e, a)
    ensures MapsOk(ApplyApp(e, a))
  {
    if a.StartPump? {
      var spec := e.starting[0];
      MapsKeptByOpen(e, a.h, spec.id, spec.dir, false);
      MapsKeptBySame(OpenPumps(e, a.h, spec.id, spec.dir, false), ApplyApp(e, a));
    } else {
      MapsKeptBySame(e, ApplyApp(e, a));
    }
  }

  // ---- the live-stream count -------------------------------------------------------

  lemma LiveKeptBySame(e: End, e': End)
    requires LiveOk(e) && e'.live == e.live && e'.delegated == e.delegated
    requires forall h :: h in e.delegated ==> RunsPump(e'.outs, e'.sinks, h) == RunsPump(e.outs, e.sinks, h)
    requires e'.reader.Materializing? ==> e.live + |e'.reader.rest| <= MAX_LIVE_STREAMS
    ensures LiveOk(e')
  {
    assert LiveStreams(e') == LiveStreams(e);
  }

  /** The last pump of a delegated stream frees its place, and only the last. */
  lemma LiveKeptByStop(e: End, h: Handle, e': End)
    requires LiveOk(e) && e'.delegated == e.delegated && e'.reader == e.reader
    requires e'.live == LiveAfter(e, h, e'.outs, e'.sinks)
    requires forall g :: g in e.delegated && g != h ==> RunsPump(e'.outs, e'.sinks, g) == RunsPump(e.outs, e.sinks, g)
    requires RunsPump(e'.outs, e'.sinks, h) ==> RunsPump(e.outs, e.sinks, h)
    ensures LiveOk(e')
  {
    if h in LiveStreams(e) && h !in LiveStreams(e') {
      assert LiveStreams(e') == LiveStreams(e) - {h};
    } else {
      assert LiveStreams(e') == LiveStreams(e);
    }
  }

  lemma LiveKeptByPump(e: End, h: Handle, p: PumpStep)
    requires LiveOk(e) && h in e.outs && PumpEnabled(e, e.outs[h], p)
    ensures LiveOk(ApplyPump(e, h, p))
  {
    LiveKeptByStop(e, h, ApplyPump(e, h, p));
  }

  lemma LiveKeptBySink(e: End, h: Handle, k: Sink, s: SinkStep)
    requires LiveOk(e) && h in e.sinks && e.sinks[h] == k && SinkEnabled(e, h, k, s)
    ensures LiveOk(ApplySink(e, h, s))
  {
    assert k.Stopped() ==> SinkNext(k, e.window, e.peerWindowed, s).Stopped();
    LiveKeptByStop(e, h, ApplySink(e, h, s));
  }

  lemma LiveKeptByOpen(e: End, h: Handle)
    requires LiveOk(e) && ReaderEnabled(e, Materialize(h))
    ensures LiveOk(DoMaterialize(e, h))
  {
    var e' := DoMaterialize(e, h);
    forall g | g in e'.delegated
      ensures RunsPump(e'.outs, e'.sinks, g) <==> g == h || RunsPump(e.outs, e.sinks, g)
    {
    }
    assert LiveStreams(e') == LiveStreams(e) + {h};
  }

  lemma LiveKeptByInspect(e: End, f: Frame)
    requires LiveOk(e) && e.reader == Hand(f)
    ensures LiveOk(HandleFrame(e, f))
  {
    match f
    case Close(id) => LiveKeptBySame(e, HandleClose(e, id));
    case Hello(payload) => LiveKeptBySame(e, HandleHello(e, HelloVerdict(e.peerWindowed, payload)));
    case Window(id, amount) => LiveKeptBySame(e, HandleWindow(e, id, amount));
    case Data(id, bytes) => LiveKeptBySame(e, HandleData(e, id, bytes));
    case Fds(payload, after) => LiveKeptBySame(e, HandleFds(e, payload, after));
    case Control(_, _, _) | Unknown => LiveKeptBySame(e, HandleFrame(e, f));
  }

  lemma LiveKeptByReader(e: End, r: ReaderStep)
    requires LiveOk(e) && ReaderEnabled(e, r)
    ensures LiveOk(ApplyReader(e, r))
  {
    match r
    case Inspect => LiveKeptByInspect(e, e.reader.frame);
    case Materialize(h) => LiveKeptByOpen(e, h);
    case Count => LiveKeptBySame(e, DoCount(e));
    case Deliver => LiveKeptBySame(e, DoDeliver(e));
    case Owe => LiveKeptBySame(e, DoOwe(e));
    case Receive(_) | MaterializeFails | FinishFds | Surface | Shutdown => LiveKeptBySame(e, ApplyReader(e, r));
  }

  lemma LiveKeptByApp(e: End, a: AppStep)
    requires LiveOk(e) && AppEnabled(e, a)
    ensures LiveOk(ApplyApp(e, a))
  {
    LiveKeptBySame(e, ApplyApp(e, a));
  }

  // ---- the senders ----------------------------------------------------------------

  lemma OfferOk(o: Out, bytes: Bytes, closed: bool, peerWindowed: bool)
    requires OutOk(o, closed, peerWindowed) && !o.eof
    ensures OutOk(o.(src := o.src + bytes), closed, peerWindowed)
  {
    if o.phase.Holding? {
      var n := |o.phase.bytes|;
      assert (o.src + bytes)[o.taken - n..o.taken] == o.src[o.taken - n..o.taken];
    }
  }

  lemma ReadOk(o: Out, n: nat, closed: bool, peerWindowed: bool)
    requires OutOk(o, closed, peerWindowed) && PumpCan(o, PumpStep.Read(n))
    ensures OutOk(PumpNext(o, PumpStep.Read(n)), closed, peerWindowed)
  {
  }

  lemma OutStepOk(o: Out, p: PumpStep, closed: bool, peerWindowed: bool)
    requires OutOk(o, closed, peerWindowed) && PumpCan(o, p)
    requires (p.Admit? ==> MaySend(peerWindowed, o.available)) && (p.Quit? ==> closed)
    ensures OutOk(PumpNext(o, p), closed, peerWindowed)
  {
    match p
    case Offer(bytes) => OfferOk(o, bytes, closed, peerWindowed);
    case Read(n) => ReadOk(o, n, closed, peerWindowed);
    case OfferEof | Admit | Retry | Queue | Tally | QueueClose | Quit | Drop =>
  }

  /** A stream only ever grows: what a barrier has seen queued stays queued. */
  predicate Grown(o: Out, o': Out) {
    o'.socket == o.socket && |o.src| <= |o'.src| && o.Framed() <= o'.Framed()
  }

  lemma TasksKeptByOuts(e: End, e': End)
    requires SendersOk(e) && e'.tasks == e.tasks && (e.closed ==> e'.closed)
    requires e.outs.Keys <= e'.outs.Keys
    requires forall h :: h in e.outs ==> Grown(e.outs[h], e'.outs[h])
    ensures forall t :: t in e'.tasks ==> TaskOk(e'.tasks[t], e'.outs, e'.closed)
  {
    forall t | t in e'.tasks
      ensures TaskOk(e'.tasks[t], e'.outs, e'.closed)
    {
      assert TaskOk(e.tasks[t], e.outs, e.closed);
      forall h | h in e.tasks[t].promise
        ensures h in e'.outs && e'.outs[h].socket && e.tasks[t].promise[h] <= |e'.outs[h].src|
        ensures h !in e.tasks[t].todo ==> e'.closed || e.tasks[t].promise[h] <= e'.outs[h].Framed()
      {
        assert Grown(e.outs[h], e'.outs[h]);
      }
    }
  }

  lemma SendersKeptByPump(e: End, h: Handle, p: PumpStep)
    requires SendersOk(e) && h in e.outs && PumpEnabled(e, e.outs[h], p)
    ensures SendersOk(ApplyPump(e, h, p))
  {
    var o, o' := e.outs[h], PumpNext(e.outs[h], p);
    var e' := ApplyPump(e, h, p);
    OutStepOk(o, p, e.closed, e.peerWindowed);
    assert Grown(o, o');
    TasksKeptByOuts(e, e');
  }

  /** Steps that leave every pump and every barrier alone. */
  lemma SendersKeptBySame(e: End, e': End)
    requires SendersOk(e) && e'.outs == e.outs && e'.tasks == e.tasks && e'.starting == e.starting
    requires (e.closed ==> e'.closed) && (e'.reader.Stopped? ==> e'.closed) && e'.peerWindowed == e.peerWindowed
    ensures SendersOk(e')
  {
    forall h | h in e'.outs
      ensures OutOk(e'.outs[h], e'.closed, e'.peerWindowed)
    {
      assert OutOk(e.outs[h], e.closed, e.peerWindowed);
    }
    TasksKeptByOuts(e, e');
  }

  lemma SendersKeptByOpen(e: End, h: Handle, id: u32, dir: Dir, socket: bool)
    requires SendersOk(e) && Fresh(e, h)
    ensures SendersOk(OpenPumps(e, h, id, dir, socket))
  {
    var e' := OpenPumps(e, h, id, dir, socket);
    TasksKeptByOuts(e, e');
  }

  lemma SendersKeptByHello(e: End, verdict: Verdict)
    requires SendersOk(e) && e.reader.Hand? && (verdict.Take? ==> !e.peerWindowed)
    ensures SendersOk(HandleHello(e, verdict))
  {
    var e' := HandleHello(e, verdict);
    forall h | h in e'.outs
      ensures OutOk(e'.outs[h], e'.closed, e'.peerWindowed) && Grown(e.outs[h], e'.outs[h])
    {
      assert OutOk(e.outs[h], e.closed, e.peerWindowed);
    }
    TasksKeptByOuts(e, e');
  }

  lemma SendersKeptByWindow(e: End, id: u32, amount: u32)
    requires SendersOk(e) && e.reader.Hand?
    ensures SendersOk(HandleWindow(e, id, amount))
  {
    var e' := HandleWindow(e, id, amount);
    forall h | h in e'.outs
      ensures OutOk(e'.outs[h], e'.closed, e'.peerWindowed) && Grown(e.outs[h], e'.outs[h])
    {
      assert OutOk(e.outs[h], e.closed, e.peerWindowed);
      GrantedOk(e.outs[h], amount, e.closed, e.peerWindowed);
    }
    TasksKeptByOuts(e, e');
  }

  lemma GrantedOk(o: Out, amount: u32, closed: bool, peerWindowed: bool)
    requires OutOk(o, closed, peerWindowed)
    ensures OutOk(GrantOut(o, amount), closed, peerWindowed) && Grown(o, GrantOut(o, amount))
  {
  }

  lemma SendersKeptByInspect(e: End, f: Frame)
    requires SendersOk(e) && e.reader == Hand(f)
    ensures SendersOk(HandleFrame(e, f))
  {
    match f
    case Hello(payload) => SendersKeptByHello(e, HelloVerdict(e.peerWindowed, payload));
    case Window(id, amount) => SendersKeptByWindow(e, id, amount);
    case Close(id) => SendersKeptBySame(e, HandleClose(e, id));
    case Data(id, bytes) => SendersKeptBySame(e, HandleData(e, id, bytes));
    case Fds(payload, after) => SendersKeptBySame(e, HandleFds(e, payload, after));
    case Control(_, _, _) | Unknown => SendersKeptBySame(e, HandleFrame(e, f));
  }

  lemma SendersKeptByReader(e: End, r: ReaderStep)
    requires SendersOk(e) && ReaderEnabled(e, r)
    ensures SendersOk(ApplyReader(e, r))
  {
    match r
    case Inspect => SendersKeptByInspect(e, e.reader.frame);
    case Materialize(h) =>
      var spec := e.reader.rest[0];
      SendersKeptByOpen(e, h, spec.id, spec.dir.Invert(), true);
      SendersKeptBySame(OpenPumps(e, h, spec.id, spec.dir.Invert(), true), DoMaterialize(e, h));
    case Count => SendersKeptBySame(e, DoCount(e));
    case Deliver => SendersKeptBySame(e, DoDeliver(e));
    case Owe => SendersKeptBySame(e, DoOwe(e));
    case Receive(_) | MaterializeFails | FinishFds | Surface | Shutdown => SendersKeptBySame(e, ApplyReader(e, r));
  }

  lemma BarrierStepOk(e: End, t: Task, h: Handle, rest: seq<Handle>)
    requires TaskOk(t, e.outs, e.closed) && t.todo == [h] + rest && h in e.outs
    requires OutOk(e.outs[h], e.closed, e.peerWindowed)
    requires t.target.Some? && BarrierPasses(e, e.outs[h], t.target.value)
    ensures TaskOk(t.(target := None, todo := rest), e.outs, e.closed)
  {
    if h in t.promise && !e.closed {
      assert t.promise[h] <= e.outs[h].Framed();
    }
  }

  lemma SendersKeptByTask(e: End, task: nat, t: Task, e': End)
    requires SendersOk(e) && TaskOk(t, e.outs, e.closed) && e' == e.(tasks := e.tasks[task := t])
    requires (t.what.Delegate? ==> task == MAIN) && (task == MAIN ==> e.starting == [])
    ensures SendersOk(e')
  {
  }

  lemma SendersKeptByQueueing(e: End, task: nat)
    requires SendersOk(e) && AppEnabled(e, QueueMessage(task))
    ensures SendersOk(DoQueueMessage(e, task))
  {
  }

  lemma SendersKeptByStart(e: End, h: Handle)
    requires SendersOk(e) && AppEnabled(e, StartPump(h))
    ensures SendersOk(DoStartPump(e, h))
  {
    var spec := e.starting[0];
    SendersKeptByOpen(e, h, spec.id, spec.dir, false);
    assert MAIN !in e.tasks;
  }

  lemma SendersKeptByApp(e: End, a: AppStep)
    requires SendersOk(e) && AppEnabled(e, a)
    ensures SendersOk(ApplyApp(e, a))
  {
    match a
    case AppReceive => SendersKeptBySame(e, DoAppReceive(e));
    case StartPump(h) => SendersKeptByStart(e, h);
    case CloseFlow => SendersKeptBySame(e, ApplyApp(e, a));
    case BeginSend(task, what, todo) => SendersKeptByTask(e, task, Task(what, todo, None, Offered(e)), ApplyApp(e, a));
    case Aim(task) =>
      assert TaskOk(e.tasks[task], e.outs, e.closed);
      SendersKeptByTask(e, task, ApplyApp(e, a).tasks[task], ApplyApp(e, a));
    case Pass(task) =>
      var t := e.tasks[task];
      assert t.todo == [t.todo[0]] + t.todo[1..];
      BarrierStepOk(e, t, t.todo[0], t.todo[1..]);
      SendersKeptByTask(e, task, ApplyApp(e, a).tasks[task], ApplyApp(e, a));
    case QueueMessage(task) => SendersKeptByQueueing(e, task);
  }

  // ---- every run ------------------------------------------------------------------

  /** The writer touches only what is on its way out. */
  lemma WriterStepOk(e: End, w: WriterStep)
    requires EndOk(e) && WriterEnabled(e, w)
    ensures EndOk(ApplyWriter(e, w))
  {
    SinksKeptByWriter(e, w);
    var e' := ApplyWriter(e, w);
    match w
    case SayHello | TakeOwed | GrantOwed(_) | WriteQueued =>
      MapsKeptBySame(e, e');
      LiveKeptBySame(e, e');
      SendersKeptBySame(e, e');
  }

  lemma StepOk(e: End, s: Step)
    requires EndOk(e) && Enabled(e, s)
    ensures EndOk(Apply(e, s))
  {
    match s
    case Writer(w) => WriterStepOk(e, w);
    case Reads(r) =>
      SinksKeptByReader(e, r);
      MapsKeptByReader(e, r);
      LiveKeptByReader(e, r);
      SendersKeptByReader(e, r);
    case App(a) =>
      SinksKeptByApp(e, a);
      MapsKeptByApp(e, a);
      LiveKeptByApp(e, a);
      SendersKeptByApp(e, a);
    case Pump(h, p) =>
      SinksKeptByPump(e, h, p);
      MapsKeptByPump(e, h, p);
      LiveKeptByPump(e, h, p);
      SendersKeptByPump(e, h, p);
    case Drain(h, k) =>
      SinksKeptBySink(e, h, e.sinks[h], k);
      MapsKeptBySink(e, h, e.sinks[h], k);
      LiveKeptBySink(e, h, e.sinks[h], k);
      SendersKeptBySame(e, ApplySink(e, h, k));
  }

  /** A run of one end: every step enabled in turn. The frames it receives are
      whatever its peer cares to send. */
  predicate Runs(e: End, steps: seq<Step>, last: End)
    decreases |steps|
  {
    if steps == [] then last == e
    else Enabled(e, steps[0]) && Runs(Apply(e, steps[0]), steps[1..], last)
  }

  lemma {:induction false} RunOk(e: End, steps: seq<Step>, last: End)
    requires EndOk(e) && Runs(e, steps, last)
    ensures EndOk(last)
    decreases |steps|
  {
    if steps != [] {
      StepOk(e, steps[0]);
      RunOk(Apply(e, steps[0]), steps[1..], last);
    }
  }

  /** Whatever a peer sends and however the tasks interleave: the backlog of a live
      stream is counted exactly, with the reader's half-finished enqueue, never
      underflows when a frame is consumed, and stays within the queue limit; and at
      most MAX_OWED_STREAMS streams owe credit at once. */
  lemma BoundedBacklog(dialer: bool, window: u32, steps: seq<Step>, e: End, h: Handle)
    requires Runs(NewEnd(dialer, window), steps, e) && h in e.sinks && e.sinks[h].phase.Live?
    ensures e.sinks[h].queued
         == QueueCost(e.sinks[h].inq) + HeldCost(e.sinks[h]) + HalfQueued(e.reader, h) <= QueueLimit(e.window)
    ensures e.sinks[h].held.Some? ==> Cost(e.sinks[h].held.value) <= e.sinks[h].queued
    ensures |e.owed| <= MAX_OWED_STREAMS
  {
    StartsOk(dialer, window);
    RunOk(NewEnd(dialer, window), steps, e);
    assert SinkOk(e.sinks[h], e.window, e.peerWindowed, HalfQueued(e.reader, h));
  }

  /** The two bounded queues: frames for the writer and items for the owner. */
  predicate QueuesBounded(e: End) {
    |e.queue| <= CHANNEL_DEPTH && |e.ctrl| <= CHANNEL_DEPTH
  }

  lemma QueuesKeptByReader(e: End, r: ReaderStep)
    requires QueuesBounded(e) && ReaderEnabled(e, r)
    ensures QueuesBounded(ApplyReader(e, r))
  {
    match r
    case Inspect => QueuesKeptByFrame(e, e.reader.frame);
    case Receive(_) | Count | Deliver | Owe | Materialize(_) | MaterializeFails | FinishFds | Surface | Shutdown =>
  }

  lemma QueuesKeptByFrame(e: End, f: Frame)
    ensures HandleFrame(e, f).queue == e.queue && HandleFrame(e, f).ctrl == e.ctrl
  {
    match f
    case Hello(_) | Control(_, _, _) | Fds(_, _) | Data(_, _) | Close(_) | Window(_, _) | Unknown =>
  }

  lemma QueuesKeptByApp(e: End, a: AppStep)
    requires QueuesBounded(e) && AppEnabled(e, a)
    ensures QueuesBounded(ApplyApp(e, a))
  {
    match a
    case AppReceive | BeginSend(_, _, _) | Aim(_) | Pass(_) | QueueMessage(_) | StartPump(_) | CloseFlow =>
  }

  lemma QueuesKeptByWriter(e: End, w: WriterStep)
    requires QueuesBounded(e) && WriterEnabled(e, w)
    ensures QueuesBounded(ApplyWriter(e, w))
  {
  }

  lemma QueuesKept(e: End, s: Step)
    requires QueuesBounded(e) && Enabled(e, s)
    ensures QueuesBounded(Apply(e, s))
  {
    match s
    case Writer(w) => QueuesKeptByWriter(e, w);
    case Reads(r) => QueuesKeptByReader(e, r);
    case App(a) => QueuesKeptByApp(e, a);
    case Pump(h, p) => assert |ApplyPump(e, h, p).queue| <= CHANNEL_DEPTH && ApplyPump(e, h, p).ctrl == e.ctrl;
    case Drain(h, k) => assert |ApplySink(e, h, k).queue| <= CHANNEL_DEPTH && ApplySink(e, h, k).ctrl == e.ctrl;
  }

  lemma {:induction false} QueuesKeptOnRuns(e: End, steps: seq<Step>, last: End)
    requires QueuesBounded(e) && Runs(e, steps, last)
    ensures QueuesBounded(last)
    decreases |steps|
  {
    if steps != [] {
      QueuesKept(e, steps[0]);
      QueuesKeptOnRuns(Apply(e, steps[0]), steps[1..], last);
    }
  }

  /** Whatever a peer sends, at most 64 frames wait for the writer and at most 64 items
      for the owner. */
  lemma QueuesAreBounded(dialer: bool, window: u32, steps: seq<Step>, e: End)
    requires Runs(NewEnd(dialer, window), steps, e)
    ensures |e.queue| <= 64 && |e.ctrl| <= 64
  {
    QueuesKeptOnRuns(NewEnd(dialer, window), steps, e);
  }

  /** On every run the stream maps hold exactly the most recently opened stream of
      each id, for as long as it lives and is not closed. */
  lemma MapsHoldTheNewest(dialer: bool, window: u32, steps: seq<Step>, e: End, id: u32)
    requires Runs(NewEnd(dialer, window), steps, e)
    ensures id in e.routes <==> id in e.lastSink && e.lastSink[id] in e.sinks && Routed(e.sinks[e.lastSink[id]])
    ensures id in e.routes ==> e.routes[id] == e.lastSink[id]
    ensures id in e.progress <==> id in e.lastOut && e.lastOut[id] in e.outs && !e.outs[e.lastOut[id]].phase.Dropped?
    ensures id in e.progress ==> e.progress[id] == e.lastOut[id]
  {
    StartsOk(dialer, window);
    RunOk(NewEnd(dialer, window), steps, e);
  }

  /** On every run `live` is the number of delegated streams with a pump still
      running, and never passes MAX_LIVE_STREAMS, whatever the Fds payloads say. */
  lemma LiveStreamsCounted(dialer: bool, window: u32, steps: seq<Step>, e: End)
    requires Runs(NewEnd(dialer, window), steps, e)
    ensures e.live == |LiveStreams(e)| <= MAX_LIVE_STREAMS
  {
    StartsOk(dialer, window);
    RunOk(NewEnd(dialer, window), steps, e);
  }

  /** A sender that opened its stream after the peer's Hello overshoots its credit
      by less than one frame, whatever grants the peer makes up. */
  lemma OvershootBounded(dialer: bool, window: u32, steps: seq<Step>, e: End, h: Handle)
    requires Runs(NewEnd(dialer, window), steps, e) && h in e.outs && !e.outs[h].early
    ensures e.outs[h].available >= 1 - MIN_STREAM_FRAME
  {
    StartsOk(dialer, window);
    RunOk(NewEnd(dialer, window), steps, e);
    assert OutOk(e.outs[h], e.closed, e.peerWindowed);
  }

  // ---- what a barrier promises ------------------------------------------------------

  lemma PromiseStays(e: End, s: Step, task: nat)
    requires Enabled(e, s) && task in e.tasks && s != App(QueueMessage(task))
    ensures task in Apply(e, s).tasks && Apply(e, s).tasks[task].promise == e.tasks[task].promise
  {
    match s
    case Writer(w) => TasksKeptByWriter(e, w);
    case Reads(r) => TasksKeptByReader(e, r);
    case App(a) => PromiseStaysByApp(e, a, task);
    case Pump(h, p) => assert Apply(e, s) == ApplyPump(e, h, p); TasksKeptByPump(e, h, p);
    case Drain(h, k) => assert Apply(e, s) == ApplySink(e, h, k); TasksKeptBySink(e, h, k);
  }

  lemma TasksKeptByWriter(e: End, w: WriterStep)
    requires WriterEnabled(e, w)
    ensures ApplyWriter(e, w).tasks == e.tasks
  {
    match w
    case SayHello | TakeOwed | GrantOwed(_) | WriteQueued =>
  }

  lemma TasksKeptByPump(e: End, h: Handle, p: PumpStep)
    requires h in e.outs && PumpEnabled(e, e.outs[h], p)
    ensures ApplyPump(e, h, p).tasks == e.tasks
  {
  }

  lemma TasksKeptBySink(e: End, h: Handle, s: SinkStep)
    requires h in e.sinks && SinkEnabled(e, h, e.sinks[h], s)
    ensures ApplySink(e, h, s).tasks == e.tasks
  {
  }

  lemma TasksKeptByReader(e: End, r: ReaderStep)
    requires ReaderEnabled(e, r)
    ensures ApplyReader(e, r).tasks == e.tasks
  {
    match r
    case Inspect => TasksKeptByFrame(e, e.reader.frame);
    case Receive(_) | Count | Deliver | Owe | Materialize(_) | MaterializeFails | FinishFds | Surface | Shutdown =>
  }

  lemma TasksKeptByFrame(e: End, f: Frame)
    ensures HandleFrame(e, f).tasks == e.tasks
  {
    match f
    case Hello(_) | Control(_, _, _) | Fds(_, _) | Data(_, _) | Close(_) | Window(_, _) | Unknown =>
  }

  lemma PromiseStaysByApp(e: End, a: AppStep, task: nat)
    requires AppEnabled(e, a) && task in e.tasks && a != QueueMessage(task)
    ensures task in ApplyApp(e, a).tasks && ApplyApp(e, a).tasks[task].promise == e.tasks[task].promise
  {
    match a
    case AppReceive | BeginSend(_, _, _) | Aim(_) | Pass(_) | QueueMessage(_) | StartPump(_) | CloseFlow =>
  }

  lemma {:induction false} PromiseHolds(e: End, steps: seq<Step>, last: End, task: nat)
    requires Runs(e, steps, last) && task in e.tasks && App(QueueMessage(task)) !in steps
    ensures task in last.tasks && last.tasks[task].promise == e.tasks[task].promise
    decreases |steps|
  {
    if steps != [] {
      assert steps[0] in steps;
      PromiseStays(e, steps[0], task);
      PromiseHolds(Apply(e, steps[0]), steps[1..], last, task);
    }
  }

  /** The barrier, whatever the peer does and however the tasks interleave: when a
      message that was asked for at `e` is queued at `last` and the flow is not
      closed, every byte that the holder of a socket stream registered at `e` had
      written by then is in a frame that was queued before. */
  lemma BarrierPromises(e: End, task: nat, what: Outgoing, todo: seq<Handle>, steps: seq<Step>, last: End, h: Handle)
    requires EndOk(e) && Enabled(e, App(BeginSend(task, what, todo))) && h in SocketStreams(e)
    requires Runs(Apply(e, App(BeginSend(task, what, todo))), steps, last) && App(QueueMessage(task)) !in steps
    requires Enabled(last, App(QueueMessage(task))) && !last.closed
    ensures h in TaskFrame(last, task).after && TaskFrame(last, task).after[h] == |e.outs[h].src|
    ensures h in last.outs && |e.outs[h].src| <= last.outs[h].Framed()
  {
    var begun := Apply(e, App(BeginSend(task, what, todo)));
    StepOk(e, App(BeginSend(task, what, todo)));
    RunOk(begun, steps, last);
    PromiseHolds(begun, steps, last, task);
    PromiseQueued(last, task, last.tasks[task], Offered(e), h);
  }

  lemma PromiseQueued(e: End, task: nat, t: Task, promise: map<nat, nat>, h: Handle)
    requires SendersOk(e) && AppEnabled(e, QueueMessage(task)) && e.tasks[task] == t && t.promise == promise
      && !e.closed
    requires h in promise
    ensures h in TaskFrame(e, task).after && TaskFrame(e, task).after[h] == promise[h]
    ensures h in e.outs && promise[h] <= e.outs[h].Framed()
  {
    assert TaskOk(t, e.outs, e.closed);
  }
}
