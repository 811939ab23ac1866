/** One end of the multiplexing transport (crates/capsudo-transport/src/mux.rs) as
    a state machine. A step is one action between two points at which another
    task may run; its label names the task and whatever the step is free to
    choose. The frames an end receives are labels too, so a run of one end is a
    run against any peer; system.dfy joins two ends by their channels.

    Fields marked "history" are not in the program. They record what the proofs
    speak about and decide nothing. */
module Endpoint {
  import opened ByteStrings
  import opened Proto
  import opened Credit
  import opened Wire

  /** The identity of a stream object, as `Arc::ptr_eq` sees it. The peer picks
      the ids of the streams it delegates, so two objects may share an id. */
  type Handle = nat

  // ---- a stream this end writes into the channel --------------------------------

  datatype OutPhase =
    | Waiting                // in `ready`, or about to call it
    | Ready                  // may send; waits for bytes
    | Holding(bytes: Bytes)  // read and charged, waits for room in the frame queue
    | Counting(n: nat)       // queued, not yet counted for a barrier
    | Ending                 // the pump is done and about to drop its `Outbound`
    | Dropped

  /** `Progress` and its pump. `src` is every byte the descriptor has offered so
      far and `taken` how many of them the pump has read, so a socket's unread
      bytes are the rest. `early` is history: opened before the peer's Hello. */
  datatype Out = Out(id: u32, socket: bool, early: bool, available: int,
                     src: Bytes, eof: bool, taken: nat, sent: nat, phase: OutPhase)
  {
    function InHand(): Bytes {
      if phase.Holding? then phase.bytes else []
    }

    /** Bytes whose frames are queued, counted yet or not. */
    function Framed(): int {
      taken - |InHand()|
    }
  }

  // ---- a stream this end writes out of the channel --------------------------------

  datatype StreamMsg = Payload(bytes: Bytes) | Fin

  datatype SinkPhase =
    | Live
    | QueueDropped        // `abandon` has dropped its queue
    | Loaded(grant: u32)  // ... and read the counter
    | Gone                // ... and dropped the sink; a grant may wait to be queued
    | Ended               // the pump stopped at a close, or at its queue's end

  /** `StreamSink`, its `QueueDepth`, its queue and its pump. `held[off..]` is what
      is left of the frame being written, `pending` a grant waiting for room in the
      frame queue. The last three are history: the bytes written out, the credit
      granted twice (see `DoDeliver`), and the credit a saturated grant lost. */
  datatype Sink = Sink(id: u32, inq: seq<StreamMsg>, queued: nat, held: Option<Bytes>, off: nat,
                       ungranted: nat, pending: Option<u32>, phase: SinkPhase, closeSeen: bool,
                       written: Bytes, excess: nat, lost: nat)
  {
    predicate Counting() {
      phase.Live? || phase.QueueDropped?
    }

    /** What `wait_for_room` reads as `closed`. */
    predicate Closed() {
      phase.Gone? || phase.Ended?
    }

    predicate Stopped() {
      phase.Ended? || (phase.Gone? && pending.None?)
    }
  }

  // ---- the reader, the senders, the end -------------------------------------------

  datatype Item =
    | Note(msg: Message, after: map<nat, nat>, main: bool)
    | Descriptors(ids: seq<u32>, after: map<nat, nat>)

  datatype Reason = TransportDropped | TooManyStreams | NoDescriptor | FrameTooLarge | BadHello

  /** Where the reader stands with the frame it has read. `early` in Counted is
      history: the frame went into a counter that `abandon` had not read yet. */
  datatype Reader =
    | Idle
    | Hand(frame: Frame)
    | Room(h: Handle, id: u32, bytes: Bytes)
    | Counted(h: Handle, id: u32, bytes: Bytes, early: bool)
    | Refused(id: u32, bytes: Bytes)
    | Materializing(rest: seq<Spec>, done: seq<u32>, after: map<nat, nat>)
    | Surfacing(item: Item)
    | Stopped(why: Reason)

  datatype Outgoing = Plain(msg: Message) | Delegate(dirs: seq<Dir>)

  /** One `send` or `send_control`: the streams its barrier still has to wait for,
      and the target for the first of them once it is known. `promise` is history:
      how much each had been offered when the barrier began. */
  datatype Task = Task(what: Outgoing, todo: seq<Handle>, target: Option<nat>, promise: map<Handle, nat>)

  /** The task that is `Transport::send`, which borrows the transport; any other
      task is a detached control sender. */
  const MAIN: nat := 0

  /** `planned` is the direction of every stream delegated so far: the id counter
      has moved on once for each. Of the history, `lastOut` and `lastSink` are the
      newest stream opened under each id, `forgone` the credit dropped, `spilled`
      the streams of which data was dropped, `unrouted` those of them that had never
      been opened, and `offered` how many descriptors the peer has named. */
  datatype End = End(
    dialer: bool, planned: seq<Dir>,
    // Flow
    window: u32, peerWindowed: bool, peerWindow: u32, closed: bool,
    progress: map<u32, Handle>, owed: map<u32, u32>,
    outs: map<Handle, Out>,
    // the stream map and the live-stream count
    routes: map<u32, Handle>, sinks: map<Handle, Sink>, live: int, delegated: set<Handle>,
    // the reader and what it surfaced
    reader: Reader, ctrl: seq<Item>, announced: set<u32>, usable: set<u32>,
    // the writer
    helloSent: bool, flushing: map<u32, u32>, queue: seq<Frame>,
    // the senders
    starting: seq<Spec>, tasks: map<nat, Task>,
    // history
    lastOut: map<u32, Handle>, lastSink: map<u32, Handle>, forgone: map<u32, nat>,
    spilled: set<u32>, unrouted: set<u32>, offered: nat)

  function NewEnd(dialer: bool, window: u32): End {
    End(dialer, [], window, false, 0, false, map[], map[], map[], map[], map[], 0, {},
        Idle, [], {}, {}, false, map[], [], [], map[], map[], map[], map[], {}, {}, 0)
  }

  /** `alloc_id`: even ids for the dialer, odd for the listener, wrapping. */
  function IdOf(dialer: bool, n: nat): u32 {
    (2 * n + if dialer then 0 else 1) % 0x1_0000_0000
  }

  function Plan(dialer: bool, n: nat, dirs: seq<Dir>): (specs: seq<Spec>)
    ensures |specs| == |dirs|
    decreases |dirs|
  {
    if dirs == [] then [] else [Spec(IdOf(dialer, n), dirs[0])] + Plan(dialer, n + 1, dirs[1..])
  }

  // ---- steps ------------------------------------------------------------------------

  datatype WriterStep =
    | SayHello
    | TakeOwed
    | GrantOwed(id: u32)
    | WriteQueued

  datatype ReaderStep =
    | Receive(frame: Frame)
    | Inspect            // what the frame in hand asks for, up to the first wait
    | Count
    | Deliver
    | Owe
    | Materialize(h: Handle)
    | MaterializeFails
    | FinishFds
    | Surface
    | Shutdown           // the reader is aborted where it waits, or its channel hangs up

  /** Whoever owns the transport, and its detached control senders. */
  datatype AppStep =
    | AppReceive
    | BeginSend(task: nat, what: Outgoing, todo: seq<Handle>)
    | Aim(task: nat)
    | Pass(task: nat)
    | QueueMessage(task: nat)
    | StartPump(h: Handle)
    | CloseFlow          // the transport is dropped

  /** A pump that reads a descriptor, and whoever writes into that descriptor. */
  datatype PumpStep =
    | Offer(bytes: Bytes)
    | OfferEof
    | Admit              // `ready` returns true
    | Retry              // nothing to read after all
    | Read(n: nat)
    | Queue
    | Tally
    | QueueClose
    | Quit               // `ready` returns false
    | Drop

  /** A pump that writes a descriptor. */
  datatype SinkStep =
    | Take
    | Write(n: nat)
    | Consumed(idle: bool)
    | QueueGrant
    | EndAtClose
    | EndUnrouted
    | AbandonClose
    | AbandonLoad
    | AbandonDrop

  datatype Step =
    | Writer(w: WriterStep)
    | Reads(r: ReaderStep)
    | App(a: AppStep)
    | Pump(h: Handle, p: PumpStep)
    | Drain(h: Handle, k: SinkStep)

  predicate Fresh(e: End, h: Handle) {
    h !in e.outs && h !in e.sinks && h !in e.delegated
  }

  predicate IsRegistered(e: End, h: Handle) {
    h in e.outs && e.outs[h].id in e.progress && e.progress[e.outs[h].id] == h
  }

  function SocketStreams(e: End): set<Handle> {
    set h | h in e.outs && IsRegistered(e, h) && e.outs[h].socket
  }

  function OutFor(e: End, id: u32): Option<Handle> {
    if id in e.progress && e.progress[id] in e.outs then Some(e.progress[id]) else None
  }

  function SinkFor(e: End, id: u32): Option<Handle> {
    if id in e.routes && e.routes[id] in e.sinks then Some(e.routes[id]) else None
  }

  predicate HasQueueRoom(e: End) {
    |e.queue| < CHANNEL_DEPTH
  }

  predicate Enabled(e: End, s: Step) {
    match s
    case Writer(w) => WriterEnabled(e, w)
    case Reads(r) => ReaderEnabled(e, r)
    case App(a) => AppEnabled(e, a)
    case Pump(h, p) => h in e.outs && PumpEnabled(e, e.outs[h], p)
    case Drain(h, k) => h in e.sinks && SinkEnabled(e, h, e.sinks[h], k)
  }

  function Apply(e: End, s: Step): End
    requires Enabled(e, s)
  {
    match s
    case Writer(w) => ApplyWriter(e, w)
    case Reads(r) => ApplyReader(e, r)
    case App(a) => ApplyApp(e, a)
    case Pump(h, p) => ApplyPump(e, h, p)
    case Drain(h, k) => ApplySink(e, h, k)
  }

  /** The frame a step writes to the channel, if it writes one. */
  function Emits(e: End, s: Step): seq<Frame>
    requires Enabled(e, s)
  {
    match s
    case Writer(SayHello) => [Hello(HelloPayload(e.window))]
    case Writer(GrantOwed(id)) => [Window(id, e.flushing[id])]
    case Writer(WriteQueued) => [e.queue[0]]
    case _ => []
  }

  // ---- the writer ---------------------------------------------------------------------

  predicate WriterEnabled(e: End, w: WriterStep) {
    match w
    case SayHello => !e.helloSent
    case TakeOwed => e.helloSent && e.flushing == map[] && e.owed != map[]
    case GrantOwed(id) => e.helloSent && id in e.flushing
    case WriteQueued => e.helloSent && e.flushing == map[] && e.queue != []
  }

  function ApplyWriter(e: End, w: WriterStep): End
    requires WriterEnabled(e, w)
  {
    match w
    case SayHello => e.(helloSent := true)
    case TakeOwed => e.(flushing := e.owed, owed := map[])
    case GrantOwed(id) => e.(flushing := e.flushing - {id})
    case WriteQueued => e.(queue := e.queue[1..])
  }

  // ---- the reader ---------------------------------------------------------------------

  predicate ReaderEnabled(e: End, r: ReaderStep) {
    match r
    case Receive(frame) => e.reader.Idle? && (frame.Data? ==> |frame.bytes| <= MAX_FRAME_PAYLOAD)
    case Inspect => e.reader.Hand?
    case Count => e.reader.Room? && e.reader.h in e.sinks && RoomFor(e, e.sinks[e.reader.h], e.reader.bytes)
    case Deliver => e.reader.Counted? && e.reader.h in e.sinks
    case Owe => e.reader.Refused?
    case Materialize(h) => e.reader.Materializing? && e.reader.rest != [] && Fresh(e, h)
    case MaterializeFails => e.reader.Materializing? && e.reader.rest != []
    case FinishFds => e.reader.Materializing? && e.reader.rest == []
    case Surface => e.reader.Surfacing? && |e.ctrl| < CHANNEL_DEPTH
    case Shutdown => e.reader.Idle? || e.reader.Room? || e.reader.Surfacing?
  }

  function ApplyReader(e: End, r: ReaderStep): End
    requires ReaderEnabled(e, r)
  {
    match r
    case Receive(frame) => e.(reader := Hand(frame))
    case Inspect => HandleFrame(e, e.reader.frame)
    case Count => DoCount(e)
    case Deliver => DoDeliver(e)
    case Owe => DoOwe(e)
    case Materialize(h) => DoMaterialize(e, h)
    case MaterializeFails => StopReader(e, NoDescriptor)
    case FinishFds => e.(reader := Surfacing(Descriptors(e.reader.done, e.reader.after)))
    case Surface => e.(ctrl := e.ctrl + [e.reader.item], reader := Idle)
    case Shutdown => DoShutdown(e)
  }

  predicate RoomFor(e: End, k: Sink, bytes: Bytes) {
    HasRoom(k.queued, Cost(bytes), QueueLimit(e.window), k.Closed())
  }

  predicate ReaderHolds(e: End, h: Handle) {
    (e.reader.Room? || e.reader.Counted?) && e.reader.h == h
  }

  // ---- the owner ----------------------------------------------------------------------

  predicate AppEnabled(e: End, a: AppStep) {
    match a
    case AppReceive => e.ctrl != []
    case BeginSend(task, what, todo) =>
      && task !in e.tasks
      && (task == MAIN ==> e.starting == [])
      && (task != MAIN ==> what.Plain?)
      && (set h | h in todo) == SocketStreams(e)
    case Aim(task) =>
      && task in e.tasks && e.tasks[task].target.None?
      && e.tasks[task].todo != [] && e.tasks[task].todo[0] in e.outs
    case Pass(task) =>
      && task in e.tasks && e.tasks[task].target.Some?
      && e.tasks[task].todo != [] && e.tasks[task].todo[0] in e.outs
      && BarrierPasses(e, e.outs[e.tasks[task].todo[0]], e.tasks[task].target.value)
    case QueueMessage(task) =>
      task in e.tasks && e.tasks[task].todo == [] && HasQueueRoom(e)
    case StartPump(h) => e.starting != [] && Fresh(e, h)
    case CloseFlow => true
  }

  predicate BarrierPasses(e: End, o: Out, target: nat) {
    e.closed || o.phase.Dropped? || o.sent >= target
  }

  function ApplyApp(e: End, a: AppStep): End
    requires AppEnabled(e, a)
  {
    match a
    case AppReceive => DoAppReceive(e)
    case BeginSend(task, what, todo) =>
      SetTask(e, task, Task(what, todo, None, Offered(e)))
    case Aim(task) => SetTask(e, task, e.tasks[task].(target := Some(|e.outs[e.tasks[task].todo[0]].src|)))
    case Pass(task) => SetTask(e, task, e.tasks[task].(target := None, todo := e.tasks[task].todo[1..]))
    case QueueMessage(task) => DoQueueMessage(e, task)
    case StartPump(h) => DoStartPump(e, h)
    case CloseFlow => e.(closed := true)
  }

  /** How much each socket stream has been offered when a barrier begins. */
  function Offered(e: End): (promise: map<Handle, nat>)
    ensures promise.Keys == SocketStreams(e)
    ensures forall h :: h in promise ==> promise[h] == |e.outs[h].src|
  {
    map h | h in SocketStreams(e) :: |e.outs[h].src|
  }

  function SetTask(e: End, task: nat, t: Task): End {
    e.(tasks := e.tasks[task := t])
  }

  // ---- the pumps ----------------------------------------------------------------------

  predicate PumpCan(o: Out, p: PumpStep) {
    match p
    case Offer(_) => !o.eof
    case OfferEof => !o.eof
    case Admit => o.phase.Waiting?
    case Retry => o.phase.Ready?
    case Read(n) => o.phase.Ready? && 0 < n <= PUMP_BUF && o.taken + n <= |o.src|
    case Queue => o.phase.Holding?
    case Tally => o.phase.Counting?
    case QueueClose => o.phase.Ready? && o.eof && o.taken == |o.src|
    case Quit => o.phase.Waiting?
    case Drop => o.phase.Ending?
  }

  predicate PumpEnabled(e: End, o: Out, p: PumpStep) {
    && PumpCan(o, p)
    && (p.Admit? ==> !e.closed && MaySend(e.peerWindowed, o.available))
    && (p.Quit? ==> e.closed)
    && (p.Queue? || p.QueueClose? ==> HasQueueRoom(e))
  }

  /** What a pump step does to its own stream. */
  function PumpNext(o: Out, p: PumpStep): (next: Out)
    requires PumpCan(o, p)
    ensures next.id == o.id && next.socket == o.socket && next.early == o.early
  {
    match p
    case Offer(bytes) => o.(src := o.src + bytes)
    case OfferEof => o.(eof := true)
    case Admit => o.(phase := OutPhase.Ready)
    case Retry => o.(phase := Waiting)
    case Read(n) =>
      var bytes := o.src[o.taken..o.taken + n];
      o.(phase := Holding(bytes), taken := o.taken + n, available := o.available - Cost(bytes))
    case Queue => o.(phase := Counting(|o.phase.bytes|))
    case Tally => o.(phase := Waiting, sent := o.sent + o.phase.n)
    case QueueClose => o.(phase := Ending)
    case Quit => o.(phase := Ending)
    case Drop => o.(phase := Dropped)
  }

  /** The frame a pump step puts in the frame queue. */
  function PumpFrames(o: Out, p: PumpStep): seq<Frame>
    requires PumpCan(o, p)
  {
    match p
    case Queue => [Data(o.id, o.phase.bytes)]
    case QueueClose => [Close(o.id)]
    case _ => []
  }

  function ApplyPump(e: End, h: Handle, p: PumpStep): End
    requires h in e.outs && PumpEnabled(e, e.outs[h], p)
  {
    var o := e.outs[h];
    var outs := e.outs[h := PumpNext(o, p)];
    e.(outs := outs, queue := e.queue + PumpFrames(o, p),
       progress := if p.Drop? then Unregister(e.progress, o.id, h) else e.progress,
       live := LiveAfter(e, h, outs, e.sinks))
  }

  // ---- the sinks ----------------------------------------------------------------------

  /** Between two frames, with no grant waiting to be queued. */
  predicate Between(k: Sink) {
    k.phase.Live? && k.pending.None? && k.held.None?
  }

  /** When a sink's own state lets its pump take a step ... */
  predicate SinkCan(k: Sink, s: SinkStep) {
    match s
    case Take => Between(k) && k.inq != [] && k.inq[0].Payload?
    case Write(n) => k.phase.Live? && k.held.Some? && 0 < n && k.off + n <= |k.held.value|
    case Consumed(idle) => k.phase.Live? && k.held.Some? && k.off == |k.held.value| && (k.inq == [] ==> idle)
    case QueueGrant => k.pending.Some?
    case EndAtClose => Between(k) && k.inq != [] && k.inq[0].Fin?
    case EndUnrouted => Between(k) && k.inq == []
    case AbandonClose => k.phase.Live? && k.pending.None?
    case AbandonLoad => k.phase.QueueDropped?
    case AbandonDrop => k.phase.Loaded?
  }

  /** ... and when the rest of the end does too. */
  predicate SinkEnabled(e: End, h: Handle, k: Sink, s: SinkStep) {
    && SinkCan(k, s)
    && (s.QueueGrant? ==> HasQueueRoom(e))
    && (s.EndUnrouted? ==> e.reader.Stopped? || (SinkFor(e, k.id) != Some(h) && !ReaderHolds(e, h)))
  }

  /** What a sink step does to its own stream. `idle` may be true although a frame
      has just arrived: the pump looks at its queue before it counts. */
  function SinkNext(k: Sink, window: u32, peerWindowed: bool, s: SinkStep): (next: Sink)
    requires SinkCan(k, s)
    ensures next.id == k.id && next.closeSeen == k.closeSeen
  {
    match s
    case Take => k.(inq := k.inq[1..], held := Some(k.inq[0].bytes), off := 0)
    case Write(n) => k.(off := k.off + n, written := k.written + k.held.value[k.off..k.off + n])
    case Consumed(idle) =>
      var cost := Cost(k.held.value);
      var (rest, grant) := Consume(k.ungranted, window, peerWindowed, cost, idle);
      k.(held := None, off := 0, queued := if cost <= k.queued then k.queued - cost else 0,
         ungranted := rest, pending := grant)
    case QueueGrant => k.(pending := None)
    case EndAtClose => k.(phase := Ended, inq := [])
    case EndUnrouted => k.(phase := Ended)
    case AbandonClose => k.(phase := QueueDropped, inq := [], held := None, off := 0)
    case AbandonLoad =>
      var grant := AbandonGrant(k.ungranted + k.queued);
      k.(phase := Loaded(grant), lost := k.ungranted + k.queued - grant)
    case AbandonDrop => k.(phase := Gone, pending := if peerWindowed then Some(k.phase.grant) else None)
  }

  /** The frame a sink step puts in the frame queue. */
  function SinkFrames(k: Sink, s: SinkStep): seq<Frame>
    requires SinkCan(k, s)
  {
    if s.QueueGrant? then [Window(k.id, k.pending.value)] else []
  }

  /** Dropping a `StreamSink` removes its stream from the map unless another stream
      has the id by now. */
  function ApplySink(e: End, h: Handle, s: SinkStep): End
    requires h in e.sinks && SinkEnabled(e, h, e.sinks[h], s)
  {
    var k := e.sinks[h];
    var sinks := e.sinks[h := SinkNext(k, e.window, e.peerWindowed, s)];
    e.(sinks := sinks, queue := e.queue + SinkFrames(k, s),
       routes := if Drops(s) then Unregister(e.routes, k.id, h) else e.routes,
       live := LiveAfter(e, h, e.outs, sinks))
  }

  predicate Drops(s: SinkStep) {
    s.EndAtClose? || s.EndUnrouted? || s.AbandonDrop?
  }

  // ---- what the steps do ------------------------------------------------------------

  function Unregister(m: map<u32, Handle>, id: u32, h: Handle): map<u32, Handle> {
    if id in m && m[id] == h then m - {id} else m
  }

  predicate RunsPump(outs: map<Handle, Out>, sinks: map<Handle, Sink>, h: Handle) {
    (h in outs && !outs[h].phase.Dropped?) || (h in sinks && !sinks[h].Stopped())
  }

  /** The two pumps of a delegated stream share one slot, freed by the last. */
  function LiveAfter(e: End, h: Handle, outs: map<Handle, Out>, sinks: map<Handle, Sink>): int {
    if h in e.delegated && RunsPump(e.outs, e.sinks, h) && !RunsPump(outs, sinks, h) then e.live - 1 else e.live
  }

  function StopReader(e: End, why: Reason): End {
    e.(reader := Reader.Stopped(why), closed := true)
  }

  /** A reader that is aborted while it waits for room takes the frame with it. */
  function DoShutdown(e: End): End {
    e.(reader := Reader.Stopped(TransportDropped), closed := true,
       spilled := if e.reader.Room? then e.spilled + {e.reader.id} else e.spilled,
       forgone := if e.reader.Room?
                  then e.forgone[e.reader.id := History(e.forgone, e.reader.id) + Cost(e.reader.bytes)] else e.forgone)
  }

  function HandleFrame(e: End, f: Frame): End {
    match f
    case Control(msg, after, main) => e.(reader := Surfacing(Note(msg, after, main)))
    case Fds(payload, after) => HandleFds(e, payload, after)
    case Data(id, bytes) => HandleData(e, id, bytes)
    case Close(id) => HandleClose(e, id)
    case Hello(payload) => HandleHello(e, HelloVerdict(e.peerWindowed, payload))
    case Window(id, amount) => HandleWindow(e, id, amount)
    case Unknown => e.(reader := Idle)
  }

  function HandleFds(e: End, payload: Bytes, after: map<nat, nat>): End {
    var tooMany := e.live + |payload| / 5 > MAX_LIVE_STREAMS;
    e.(reader := if tooMany then Reader.Stopped(TooManyStreams) else Materializing(DecodeFds(payload), [], after),
       closed := e.closed || tooMany, offered := e.offered + |DecodeFds(payload)|)
  }

  function HandleData(e: End, id: u32, bytes: Bytes): End {
    var tooLarge := Cost(bytes) > QueueLimit(e.window);
    var refused := !tooLarge && SinkFor(e, id).None?;
    e.(reader := if tooLarge then Reader.Stopped(FrameTooLarge)
                 else if refused then Refused(id, bytes)
                 else Room(SinkFor(e, id).value, id, bytes),
       closed := e.closed || tooLarge,
       spilled := if refused then e.spilled + {id} else e.spilled,
       unrouted := if refused && id !in e.lastSink then e.unrouted + {id} else e.unrouted)
  }

  function HandleClose(e: End, id: u32): End {
    var target := SinkFor(e, id);
    e.(reader := Idle, routes := e.routes - {id},
       sinks := if target.Some? then e.sinks[target.value := CloseSink(e.sinks[target.value])] else e.sinks,
       unrouted := if target.None? && id !in e.lastSink then e.unrouted + {id} else e.unrouted)
  }

  function CloseSink(k: Sink): Sink {
    k.(closeSeen := true, inq := if k.phase.Live? then k.inq + [Fin] else k.inq)
  }

  function HandleHello(e: End, verdict: Verdict): End {
    e.(reader := if verdict.Refuse? then Reader.Stopped(BadHello) else Idle,
       closed := e.closed || verdict.Refuse?,
       peerWindowed := e.peerWindowed || verdict.Take?,
       peerWindow := if verdict.Take? then verdict.window else e.peerWindow,
       outs := if verdict.Take? then GrantAll(e, verdict.window) else e.outs)
  }

  /** Every registered stream gets the window on top of what it has been charged. */
  function GrantAll(e: End, window: u32): (outs: map<Handle, Out>)
    ensures outs.Keys == e.outs.Keys
    ensures forall h :: h in outs ==>
              outs[h] == if IsRegistered(e, h) then e.outs[h].(available := e.outs[h].available + window) else e.outs[h]
  {
    map h | h in e.outs ::
      if IsRegistered(e, h) then e.outs[h].(available := e.outs[h].available + window) else e.outs[h]
  }

  function HandleWindow(e: End, id: u32, amount: u32): End {
    var target := OutFor(e, id);
    e.(reader := Idle,
       outs := if target.Some? then e.outs[target.value := GrantOut(e.outs[target.value], amount)] else e.outs)
  }

  function GrantOut(o: Out, amount: u32): Out {
    o.(available := GrantCredit(o.available, amount))
  }

  /** The reader has found room and adds the frame to the counter ... */
  function DoCount(e: End): End
    requires ReaderEnabled(e, Count)
  {
    var h, k := e.reader.h, e.sinks[e.reader.h];
    e.(sinks := e.sinks[h := CountSink(k, e.reader.bytes)],
       reader := Counted(h, e.reader.id, e.reader.bytes, k.Counting()))
  }

  function CountSink(k: Sink, bytes: Bytes): Sink {
    k.(queued := k.queued + Cost(bytes))
  }

  /** ... and only then sends it to the pump's queue. Between the two the pump may
      have dropped its queue, so a frame that `abandon` already counts can still be
      refused here, and its credit is granted twice. */
  function DoDeliver(e: End): End
    requires ReaderEnabled(e, Deliver)
  {
    var h, k := e.reader.h, e.sinks[e.reader.h];
    e.(sinks := e.sinks[h := DeliverSink(k, e.reader.bytes, e.reader.early)],
       reader := if k.phase.Live? then Idle else Refused(e.reader.id, e.reader.bytes),
       spilled := if k.phase.Live? then e.spilled else e.spilled + {e.reader.id})
  }

  function DeliverSink(k: Sink, bytes: Bytes, early: bool): Sink {
    if k.phase.Live? then k.(inq := k.inq + [Payload(bytes)])
    else k.(excess := k.excess + if early then Cost(bytes) else 0)
  }

  function DoOwe(e: End): End
    requires ReaderEnabled(e, Owe)
  {
    var id, cost := e.reader.id, Cost(e.reader.bytes) % 0x1_0000_0000;
    e.(reader := Idle,
       owed := if e.peerWindowed then OweCredit(e.owed, id, cost) else e.owed,
       forgone := if e.peerWindowed
                  then e.forgone[id := History(e.forgone, id) + Forgone(e.owed, id, cost)] else e.forgone)
  }

  function History(m: map<u32, nat>, id: u32): nat {
    if id in m then m[id] else 0
  }

  function NewOut(e: End, id: u32, socket: bool): Out {
    Out(id, socket, !e.peerWindowed, if e.peerWindowed then e.peerWindow else 0, [], false, 0, 0, Waiting)
  }

  function NewSink(id: u32): Sink {
    Sink(id, [], 0, None, 0, 0, None, Live, false, [], 0, 0)
  }

  function OpenPumps(e: End, h: Handle, id: u32, dir: Dir, socket: bool): End {
    e.(sinks := if dir.Writes() then e.sinks[h := NewSink(id)] else e.sinks,
       routes := if dir.Writes() then e.routes[id := h] else e.routes,
       lastSink := if dir.Writes() then e.lastSink[id := h] else e.lastSink,
       outs := if dir.Reads() then e.outs[h := NewOut(e, id, socket)] else e.outs,
       progress := if dir.Reads() then e.progress[id := h] else e.progress,
       lastOut := if dir.Reads() then e.lastOut[id := h] else e.lastOut)
  }

  function DoMaterialize(e: End, h: Handle): End
    requires ReaderEnabled(e, Materialize(h))
  {
    var spec := e.reader.rest[0];
    OpenPumps(e, h, spec.id, spec.dir.Invert(), true)
      .(live := e.live + 1, delegated := e.delegated + {h},
        reader := Materializing(e.reader.rest[1..], e.reader.done + [spec.id], e.reader.after))
  }

  function DoStartPump(e: End, h: Handle): End
    requires AppEnabled(e, StartPump(h))
  {
    var spec := e.starting[0];
    OpenPumps(e, h, spec.id, spec.dir, false).(starting := e.starting[1..])
  }

  function DoAppReceive(e: End): End
    requires AppEnabled(e, AppReceive)
  {
    var item := e.ctrl[0];
    e.(ctrl := e.ctrl[1..],
       announced := if item.Descriptors? then e.announced + set id | id in item.ids else e.announced,
       usable := if item.Note? && item.main then e.usable + e.announced else e.usable)
  }

  /** The frame a finished barrier puts in the queue. Once the flow is closed a
      barrier waits for nothing, so it promises nothing. */
  function TaskFrame(e: End, task: nat): Frame
    requires task in e.tasks
  {
    var after := if e.closed then map[] else e.tasks[task].promise;
    match e.tasks[task].what
    case Plain(msg) => Control(msg, after, task == MAIN)
    case Delegate(dirs) => Fds(EncodeFds(Plan(e.dialer, |e.planned|, dirs)), after)
  }

  function DoQueueMessage(e: End, task: nat): End
    requires AppEnabled(e, QueueMessage(task))
  {
    var what := e.tasks[task].what;
    e.(tasks := e.tasks - {task}, queue := e.queue + [TaskFrame(e, task)],
       planned := if what.Delegate? then e.planned + what.dirs else e.planned,
       starting := if what.Delegate? then Plan(e.dialer, |e.planned|, what.dirs) else e.starting)
  }
}
