/** The shared channel refines independent pipes. Seen from one stream, every step
    of a session is a step of the single-stream machine of pipe.dfy, or no step at
    all, whichever end takes it and whatever the other streams do. */
module Refinement {
  import opened ByteStrings
  import opened Proto
  import opened Credit
  import opened Wire
  import opened Endpoint
  import opened EndpointLaws
  import opened PipeMachine
  import opened Session
  import opened SessionLaws

  // ---- one stream's share of what travels --------------------------------------------

  function MarkOf(after: map<nat, nat>, x: u32): seq<Token> {
    if x in after then [Mark(after[x])] else []
  }

  function TokensOf(f: Frame, x: u32): seq<Token> {
    match f
    case Data(id, bytes) => if id == x then [Chunk(bytes)] else []
    case Close(id) => if id == x then [Finish] else []
    case Control(_, after, _) => MarkOf(after, x)
    case Fds(_, after) => MarkOf(after, x)
    case _ => []
  }

  function Tokens(fs: seq<Frame>, x: u32): seq<Token> {
    if fs == [] then [] else TokensOf(fs[0], x) + Tokens(fs[1..], x)
  }

  function GrantIn(f: Frame, x: u32): nat {
    if f.Window? && f.id == x then f.amount else 0
  }

  function Grants(fs: seq<Frame>, x: u32): nat {
    if fs == [] then 0 else GrantIn(fs[0], x) + Grants(fs[1..], x)
  }

  lemma {:induction false} ShareAppend(fs: seq<Frame>, f: Frame, x: u32)
    ensures Tokens(fs + [f], x) == Tokens(fs, x) + TokensOf(f, x)
    ensures Grants(fs + [f], x) == Grants(fs, x) + GrantIn(f, x)
  {
    if fs == [] {
      assert fs + [f] == [f];
    } else {
      assert (fs + [f])[1..] == fs[1..] + [f];
      ShareAppend(fs[1..], f, x);
    }
  }

  lemma ShareHead(f: Frame, rest: seq<Frame>, x: u32)
    ensures Tokens([f] + rest, x) == TokensOf(f, x) + Tokens(rest, x)
    ensures Grants([f] + rest, x) == GrantIn(f, x) + Grants(rest, x)
  {
    assert ([f] + rest)[0] == f && ([f] + rest)[1..] == rest;
  }

  // ---- the view ------------------------------------------------------------------------

  /** What the sender's end knows of a stream: `waiting` are its tokens in the frame
      queue, `inHand` the grant in the reader's hand. */
  datatype Near = Near(sw: bool, pw: u32, cut: bool, out: Option<Out>, waiting: seq<Token>, inHand: nat)

  /** What the receiver's end knows of it: `hand` is the token in the reader's hand,
      `waiting` the grants in the frame queue. */
  datatype Far = Far(window: u32, rw: bool, hand: seq<Token>, stage: Stage, sink: Option<Sink>,
                     owed: nat, waiting: nat, forgone: nat, spilled: bool, shown: nat, unopened: bool)

  function HandTokens(r: Reader, x: u32): seq<Token> {
    if r.Hand? then TokensOf(r.frame, x) else []
  }

  function HandGrants(r: Reader, x: u32): nat {
    if r.Hand? then GrantIn(r.frame, x) else 0
  }

  function StageOf(r: Reader, x: u32): Stage {
    match r
    case Room(h, _, bytes) => if h == x then AtDoor(bytes) else Nowhere
    case Counted(h, _, bytes, early) => if h == x then InCounter(bytes, early) else Nowhere
    case Refused(id, bytes) => if id == x then Turned(bytes) else Nowhere
    case _ => Nowhere
  }

  function MarkIn(after: map<nat, nat>, x: u32): nat {
    if x in after then after[x] else 0
  }

  function ShownOf(r: Reader, x: u32): nat {
    match r
    case Materializing(_, _, after) => MarkIn(after, x)
    case Surfacing(item) => MarkIn(item.after, x)
    case _ => 0
  }

  function OutOf(e: End, x: u32): Option<Out> {
    if x in e.outs then Some(e.outs[x]) else None
  }

  function SinkOf(e: End, x: u32): Option<Sink> {
    if x in e.sinks then Some(e.sinks[x]) else None
  }

  function NearOf(e: End, x: u32): Near {
    Near(e.peerWindowed, e.peerWindow, e.closed, OutOf(e, x), Tokens(e.queue, x), HandGrants(e.reader, x))
  }

  function FarOf(e: End, x: u32): Far {
    Far(e.window, e.peerWindowed, HandTokens(e.reader, x), StageOf(e.reader, x), SinkOf(e, x),
        Owed(e.owed, x) + Owed(e.flushing, x), Grants(e.queue, x),
        History(e.forgone, x), x in e.spilled, ShownOf(e.reader, x), x in e.unrouted)
  }

  /** The two halves with what travels between them. */
  function Join(x: u32, n: Near, line: seq<Token>, f: Far, back: nat): Pipe {
    Pipe(x, f.window, n.sw, n.pw, f.rw, n.cut, n.out, f.hand + line + n.waiting, f.stage, f.sink,
         f.owed, n.inHand + back + f.waiting, f.forgone, f.spilled, f.shown, f.unopened)
  }

  /** Stream `x` as it flows from the first end of the session to the second. */
  function View(s: Sys, x: u32): Pipe {
    Join(x, NearOf(s.a, x), Tokens(s.ab, x), FarOf(s.b, x), Grants(s.ba, x))
  }

  /** One step of the machine, or none. */
  predicate Moves(p: Pipe, m: Option<PipeStep>, p': Pipe) {
    match m
    case None => p' == p
    case Some(s) => PipeEnabled(p, s) && p' == PipeApply(p, s)
  }

  // ---- which step it is -------------------------------------------------------------------

  /** What a step of the sender's end is for stream `x`. */
  function AsSender(e: End, step: Step, x: u32): Option<PipeStep>
    requires Enabled(e, step)
  {
    match step
    case Reads(r) => ReaderAsSender(e, r, x)
    case App(StartPump(h)) => if h == x && e.starting[0].dir.Reads() then Some(OpenOut(false)) else None
    case App(QueueMessage(task)) =>
      if !e.closed && x in e.tasks[task].promise then Some(Promise(e.tasks[task].promise[x])) else None
    case App(CloseFlow) => Some(Cut)
    case Pump(h, p) => if h == x then Some(Push(p)) else None
    case _ => None
  }

  function ReaderAsSender(e: End, r: ReaderStep, x: u32): Option<PipeStep>
    requires ReaderEnabled(e, r)
  {
    match r
    case Inspect => FrameAsSender(e, e.reader.frame, x)
    case Materialize(h) => if h == x && e.reader.rest[0].dir.Invert().Reads() then Some(OpenOut(true)) else None
    case MaterializeFails => Some(Cut)
    case Shutdown => Some(Cut)
    case _ => None
  }

  function FrameAsSender(e: End, f: Frame, x: u32): Option<PipeStep> {
    match f
    case Hello(payload) => if HelloVerdict(e.peerWindowed, payload).Take? then Some(PipeStep.SenderHello) else None
    case Window(id, amount) => if id == x then Some(TakeGrant(amount)) else None
    case Fds(payload, _) => if e.live + |payload| / 5 > MAX_LIVE_STREAMS then Some(Cut) else None
    case _ => None
  }

  /** What a step of the receiver's end is for stream `x`. */
  function AsReceiver(e: End, step: Step, x: u32): Option<PipeStep>
    requires Enabled(e, step)
  {
    match step
    case Writer(GrantOwed(id)) => if id == x then Some(Repay(e.flushing[x])) else None
    case Reads(r) => ReaderAsReceiver(e, r, x)
    case App(StartPump(h)) => if h == x && e.starting[0].dir.Writes() then Some(OpenSink) else None
    case Drain(h, k) => if h == x then Some(Pull(k)) else None
    case _ => None
  }

  function ReaderAsReceiver(e: End, r: ReaderStep, x: u32): Option<PipeStep>
    requires ReaderEnabled(e, r)
  {
    match r
    case Inspect => FrameAsReceiver(e, e.reader.frame, x)
    case Count => if e.reader.h == x then Some(Enter) else None
    case Deliver => if e.reader.h == x then Some(PipeStep.Hand) else None
    case Owe => if e.reader.id == x then Some(Charge(Forgone(e.owed, x, Cost(e.reader.bytes) % 0x1_0000_0000)))
      else None
    case Materialize(h) => if h == x && e.reader.rest[0].dir.Invert().Writes() then Some(OpenSink) else None
    case MaterializeFails => Some(Shown)
    case Surface => Some(Shown)
    case Shutdown =>
      if e.reader.Room? then if e.reader.h == x then Some(Abort) else None else Some(Shown)
    case _ => None
  }

  function FrameAsReceiver(e: End, f: Frame, x: u32): Option<PipeStep> {
    match f
    case Hello(payload) => if HelloVerdict(e.peerWindowed, payload).Take? then Some(PipeStep.ReceiverHello) else None
    case Data(id, _) => if id == x then Some(Arrive) else None
    case Close(id) => if id == x then Some(ArriveFinish) else None
    case Control(_, after, _) => if x in after then Some(ArriveMark) else None
    case Fds(payload, after) =>
      if x in after then Some(if e.live + |payload| / 5 > MAX_LIVE_STREAMS then DropMark else ArriveMark) else None
    case _ => None
  }

  // ---- streams and their names ----------------------------------------------------------

  /** In a composed run an id names one stream, so the maps answer for it. */
  lemma IdsAnswer(e: End, x: u32)
    requires MapsOk(e) && Tidy(e)
    ensures IsRegistered(e, x) <==> x in e.outs && !e.outs[x].phase.Dropped?
    ensures OutFor(e, x) == if x in e.outs && !e.outs[x].phase.Dropped? then Some(x as nat) else None
    ensures SinkFor(e, x) == if x in e.sinks && Routed(e.sinks[x]) then Some(x as nat) else None
  {
  }

  // ---- the sender's end -----------------------------------------------------------------

  predicate SenderMoves(e: End, m: Option<PipeStep>, e': End, x: u32, line: seq<Token>, f: Far, back: nat) {
    Moves(Join(x, NearOf(e, x), line, f, back), m, Join(x, NearOf(e', x), line, f, back))
  }

  lemma SenderSame(e: End, e': End, x: u32, line: seq<Token>, f: Far, back: nat)
    requires e'.peerWindowed == e.peerWindowed && e'.peerWindow == e.peerWindow && e'.closed == e.closed
    requires OutOf(e', x) == OutOf(e, x) && Tokens(e'.queue, x) == Tokens(e.queue, x)
    requires HandGrants(e'.reader, x) == HandGrants(e.reader, x)
    ensures SenderMoves(e, None, e', x, line, f, back)
  {
  }

  lemma SenderCut(e: End, e': End, x: u32, line: seq<Token>, f: Far, back: nat)
    requires e'.peerWindowed == e.peerWindowed && e'.peerWindow == e.peerWindow && e'.closed
    requires OutOf(e', x) == OutOf(e, x) && e'.queue == e.queue
    requires HandGrants(e'.reader, x) == HandGrants(e.reader, x)
    ensures SenderMoves(e, Some(Cut), e', x, line, f, back)
  {
  }

  lemma HelloGrants(e: End, window: u32, x: u32)
    requires MapsOk(e) && Tidy(e)
    ensures OutOf(HandleHello(e, Verdict.Take(window)), x) == WithWindow(OutOf(e, x), window)
  {
    IdsAnswer(e, x);
  }

  lemma NearByHello(e: End, payload: Bytes, window: u32, x: u32)
    requires MapsOk(e) && Tidy(e) && e.reader == Reader.Hand(Hello(payload))
    ensures NearOf(HandleHello(e, Verdict.Take(window)), x)
         == var n := NearOf(e, x); n.(sw := true, pw := window, out := WithWindow(n.out, window))
  {
    HelloGrants(e, window, x);
  }

  lemma HelloJoins(x: u32, n: Near, line: seq<Token>, f: Far, back: nat)
    requires !n.sw
    ensures Moves(Join(x, n, line, f, back), Some(PipeStep.SenderHello),
                  Join(x, n.(sw := true, pw := f.window, out := WithWindow(n.out, f.window)), line, f, back))
  {
  }

  lemma SenderByTaking(e: End, payload: Bytes, x: u32, line: seq<Token>, f: Far, back: nat)
    requires MapsOk(e) && Tidy(e) && e.reader == Reader.Hand(Hello(payload)) && !e.peerWindowed
    ensures SenderMoves(e, Some(PipeStep.SenderHello), HandleHello(e, Verdict.Take(f.window)), x, line, f, back)
  {
    NearByHello(e, payload, f.window, x);
    HelloJoins(x, NearOf(e, x), line, f, back);
  }

  lemma SenderByHello(e: End, payload: Bytes, x: u32, line: seq<Token>, f: Far, back: nat)
    requires MapsOk(e) && Tidy(e) && e.reader == Reader.Hand(Hello(payload))
    requires !e.peerWindowed ==> HelloVerdict(false, payload) == Verdict.Take(f.window)
    ensures SenderMoves(e, FrameAsSender(e, Hello(payload), x), HandleHello(e, HelloVerdict(e.peerWindowed, payload)),
                        x, line, f, back)
  {
    if e.peerWindowed {
      SenderSame(e, HandleHello(e, Verdict.Ignore), x, line, f, back);
    } else {
      SenderByTaking(e, payload, x, line, f, back);
    }
  }

  lemma NearByWindow(e: End, id: u32, amount: u32, x: u32)
    requires MapsOk(e) && Tidy(e) && e.reader == Reader.Hand(Window(id, amount))
    ensures NearOf(HandleWindow(e, id, amount), x)
         == var n := NearOf(e, x); if id == x then n.(out := WithGrant(n.out, amount), inHand := 0) else n
  {
    IdsAnswer(e, id);
  }

  lemma WindowJoins(x: u32, n: Near, line: seq<Token>, f: Far, back: nat)
    requires n.inHand < 0x1_0000_0000
    ensures Moves(Join(x, n, line, f, back), Some(TakeGrant(n.inHand)),
                  Join(x, n.(out := WithGrant(n.out, n.inHand), inHand := 0), line, f, back))
  {
  }

  lemma SenderByWindow(e: End, id: u32, amount: u32, x: u32, line: seq<Token>, f: Far, back: nat)
    requires MapsOk(e) && Tidy(e) && e.reader == Reader.Hand(Window(id, amount))
    ensures SenderMoves(e, FrameAsSender(e, Window(id, amount), x), HandleWindow(e, id, amount), x, line, f, back)
  {
    NearByWindow(e, id, amount, x);
    if id == x { WindowJoins(x, NearOf(e, x), line, f, back); }
  }

  lemma SenderByFds(e: End, payload: Bytes, after: map<nat, nat>, x: u32, line: seq<Token>, f: Far, back: nat)
    requires e.reader == Reader.Hand(Fds(payload, after))
    ensures SenderMoves(e, FrameAsSender(e, Fds(payload, after), x), HandleFds(e, payload, after), x, line, f, back)
  {
  }

  lemma SenderByFrame(e: End, fr: Frame, x: u32, line: seq<Token>, f: Far, back: nat)
    requires MapsOk(e) && Tidy(e) && e.reader == Reader.Hand(fr)
    requires !e.peerWindowed ==> fr.Hello? && HelloVerdict(false, fr.payload) == Verdict.Take(f.window)
    requires fr.Data? ==> Cost(fr.bytes) <= QueueLimit(e.window)
    ensures SenderMoves(e, FrameAsSender(e, fr, x), HandleFrame(e, fr), x, line, f, back)
  {
    match fr
    case Hello(payload) => SenderByHello(e, payload, x, line, f, back);
    case Window(id, amount) => SenderByWindow(e, id, amount, x, line, f, back);
    case Fds(payload, after) => SenderByFds(e, payload, after, x, line, f, back);
    case Control(_, _, _) | Data(_, _) | Close(_) | Unknown => SenderSame(e, HandleFrame(e, fr), x, line, f, back);
  }

  lemma SenderByOpen(e: End, h: Handle, id: u32, dir: Dir, socket: bool, x: u32, line: seq<Token>, f: Far, back: nat)
    requires Fresh(e, h) && h == id
    ensures SenderMoves(e, if h == x && dir.Reads() then Some(OpenOut(socket)) else None,
                        OpenPumps(e, h, id, dir, socket), x, line, f, back)
  {
    assert OutOf(OpenPumps(e, h, id, dir, socket), x)
        == if h == x && dir.Reads() then Some(NewOut(e, id, socket)) else OutOf(e, x);
  }

  lemma SenderByMaterialize(e: End, h: Handle, spec: Spec, rest: seq<Spec>, done: seq<u32>, after: map<nat, nat>,
                            x: u32, line: seq<Token>, f: Far, back: nat)
    requires e.reader == Materializing([spec] + rest, done, after) && Fresh(e, h) && h == spec.id
    ensures SenderMoves(e, ReaderAsSender(e, Materialize(h), x), DoMaterialize(e, h), x, line, f, back)
  {
    SenderByOpen(e, h, spec.id, spec.dir.Invert(), true, x, line, f, back);
    SenderSame(OpenPumps(e, h, spec.id, spec.dir.Invert(), true), DoMaterialize(e, h), x, line, f, back);
  }

  lemma SenderByReader(e: End, r: ReaderStep, x: u32, line: seq<Token>, f: Far, back: nat)
    requires MapsOk(e) && Tidy(e) && ReaderEnabled(e, r) && !r.Receive?
    requires r.Materialize? ==> r.h == e.reader.rest[0].id
    requires r.Inspect? && !e.peerWindowed ==>
      e.reader.frame.Hello? && HelloVerdict(false, e.reader.frame.payload) == Verdict.Take(f.window)
    requires r.Inspect? && e.reader.frame.Data? ==> Cost(e.reader.frame.bytes) <= QueueLimit(e.window)
    ensures SenderMoves(e, ReaderAsSender(e, r, x), ApplyReader(e, r), x, line, f, back)
  {
    match r
    case Inspect => SenderByFrame(e, e.reader.frame, x, line, f, back);
    case Materialize(h) =>
      assert e.reader.rest == [e.reader.rest[0]] + e.reader.rest[1..];
      SenderByMaterialize(e, h, e.reader.rest[0], e.reader.rest[1..], e.reader.done, e.reader.after, x, line, f, back);
    case MaterializeFails => SenderCut(e, StopReader(e, NoDescriptor), x, line, f, back);
    case Shutdown => SenderCut(e, DoShutdown(e), x, line, f, back);
    case Count => SenderSame(e, DoCount(e), x, line, f, back);
    case Deliver => SenderSame(e, DoDeliver(e), x, line, f, back);
    case Owe => SenderSame(e, DoOwe(e), x, line, f, back);
    case FinishFds => SenderSame(e, ApplyReader(e, FinishFds), x, line, f, back);
    case Surface => SenderSame(e, ApplyReader(e, Surface), x, line, f, back);
  }

  lemma PumpShare(q: seq<Frame>, o: Out, p: PumpStep, x: u32)
    requires PumpCan(o, p)
    ensures Tokens(q + PumpFrames(o, p), x) == Tokens(q, x) + if o.id == x then PumpTokens(o, p) else []
    ensures Grants(q + PumpFrames(o, p), x) == Grants(q, x)
  {
    match p
    case Queue => ShareAppend(q, Data(o.id, o.phase.bytes), x);
    case QueueClose => ShareAppend(q, Close(o.id), x);
    case Offer(_) | OfferEof | Admit | Retry | Read(_) | Tally | Quit | Drop =>
      assert q + [] == q;
      assert Tokens(q, x) + [] == Tokens(q, x);
  }

  lemma JoinAppends(x: u32, n: Near, line: seq<Token>, f: Far, back: nat, more: seq<Token>)
    ensures Join(x, n.(waiting := n.waiting + more), line, f, back)
         == var p := Join(x, n, line, f, back); p.(line := p.line + more)
  {
    assert f.hand + line + (n.waiting + more) == f.hand + line + n.waiting + more;
  }

  lemma NearByPump(e: End, h: Handle, o: Out, p: PumpStep, x: u32)
    requires Tidy(e) && h in e.outs && e.outs[h] == o && PumpEnabled(e, o, p)
    ensures NearOf(ApplyPump(e, h, p), x)
         == var n := NearOf(e, x);
            if h == x then n.(out := Some(PumpNext(o, p)), waiting := n.waiting + PumpTokens(o, p)) else n
  {
    PumpShare(e.queue, o, p, x);
    assert Tokens(e.queue, x) + [] == Tokens(e.queue, x);
  }

  lemma SenderByPump(e: End, h: Handle, o: Out, p: PumpStep, x: u32, line: seq<Token>, f: Far, back: nat)
    requires Tidy(e) && h in e.outs && e.outs[h] == o && PumpEnabled(e, o, p)
    ensures SenderMoves(e, if h == x then Some(Push(p)) else None, ApplyPump(e, h, p), x, line, f, back)
  {
    NearByPump(e, h, o, p, x);
    if h == x { JoinAppends(x, NearOf(e, x).(out := Some(PumpNext(o, p))), line, f, back, PumpTokens(o, p)); }
  }

  lemma SenderBySink(e: End, h: Handle, k: Sink, s: SinkStep, x: u32, line: seq<Token>, f: Far, back: nat)
    requires h in e.sinks && e.sinks[h] == k && SinkEnabled(e, h, k, s)
    ensures SenderMoves(e, None, ApplySink(e, h, s), x, line, f, back)
  {
    if s.QueueGrant? {
      ShareAppend(e.queue, Window(k.id, k.pending.value), x);
    } else {
      assert e.queue + [] == e.queue;
    }
    SenderSame(e, ApplySink(e, h, s), x, line, f, back);
  }

  lemma NearByMessage(e: End, task: nat, t: Task, x: u32)
    requires AppEnabled(e, QueueMessage(task)) && e.tasks[task] == t
    ensures NearOf(DoQueueMessage(e, task), x)
         == var n := NearOf(e, x); n.(waiting := n.waiting + if e.closed then [] else MarkOf(t.promise, x))
  {
    ShareAppend(e.queue, TaskFrame(e, task), x);
    assert TokensOf(TaskFrame(e, task), x) == if e.closed then [] else MarkOf(t.promise, x);
  }

  lemma SenderByMessage(e: End, task: nat, t: Task, x: u32, line: seq<Token>, f: Far, back: nat)
    requires AppEnabled(e, QueueMessage(task)) && e.tasks[task] == t && TaskOk(t, e.outs, e.closed)
    ensures SenderMoves(e, if !e.closed && x in t.promise then Some(Promise(t.promise[x])) else None,
                        DoQueueMessage(e, task), x, line, f, back)
  {
    NearByMessage(e, task, t, x);
    if !e.closed && x in t.promise {
      JoinAppends(x, NearOf(e, x), line, f, back, MarkOf(t.promise, x));
    } else {
      assert Tokens(e.queue, x) + [] == Tokens(e.queue, x);
    }
  }

  lemma SenderByStart(e: End, h: Handle, spec: Spec, rest: seq<Spec>, x: u32, line: seq<Token>, f: Far, back: nat)
    requires e.starting == [spec] + rest && Fresh(e, h) && h == spec.id
    ensures SenderMoves(e, if h == x && spec.dir.Reads() then Some(OpenOut(false)) else None,
                        DoStartPump(e, h), x, line, f, back)
  {
    SenderByOpen(e, h, spec.id, spec.dir, false, x, line, f, back);
    SenderSame(OpenPumps(e, h, spec.id, spec.dir, false), DoStartPump(e, h), x, line, f, back);
  }

  lemma SenderByApp(e: End, m: AppStep, x: u32, line: seq<Token>, f: Far, back: nat)
    requires AppEnabled(e, m) && (m.StartPump? ==> m.h == e.starting[0].id)
    requires m.QueueMessage? ==> TaskOk(e.tasks[m.task], e.outs, e.closed)
    ensures SenderMoves(e, AsSender(e, App(m), x), ApplyApp(e, m), x, line, f, back)
  {
    match m
    case QueueMessage(task) => SenderByMessage(e, task, e.tasks[task], x, line, f, back);
    case StartPump(h) =>
      assert e.starting == [e.starting[0]] + e.starting[1..];
      SenderByStart(e, h, e.starting[0], e.starting[1..], x, line, f, back);
    case CloseFlow => SenderCut(e, e.(closed := true), x, line, f, back);
    case AppReceive => SenderSame(e, DoAppReceive(e), x, line, f, back);
    case BeginSend(task, what, todo) =>
      SenderSame(e, SetTask(e, task, Task(what, todo, None, Offered(e))), x, line, f, back);
    case Aim(task) => SenderSame(e, SetTask(e, task, ApplyApp(e, m).tasks[task]), x, line, f, back);
    case Pass(task) => SenderSame(e, SetTask(e, task, ApplyApp(e, m).tasks[task]), x, line, f, back);
  }

  // ---- the receiver's end ---------------------------------------------------------------

  predicate ReceiverMoves(e: End, m: Option<PipeStep>, e': End, x: u32, n: Near, line: seq<Token>, back: nat) {
    Moves(Join(x, n, line, FarOf(e, x), back), m, Join(x, n, line, FarOf(e', x), back))
  }

  /** What must be the same for a stream not to notice the receiver's step. */
  predicate FarAlike(e: End, e': End, x: u32) {
    && e'.window == e.window && e'.peerWindowed == e.peerWindowed
    && HandTokens(e'.reader, x) == HandTokens(e.reader, x) && StageOf(e'.reader, x) == StageOf(e.reader, x)
    && SinkOf(e', x) == SinkOf(e, x) && ShownOf(e'.reader, x) == ShownOf(e.reader, x)
    && Owed(e'.owed, x) + Owed(e'.flushing, x) == Owed(e.owed, x) + Owed(e.flushing, x)
    && Grants(e'.queue, x) == Grants(e.queue, x)
    && History(e'.forgone, x) == History(e.forgone, x) && (x in e'.spilled <==> x in e.spilled)
    && (x in e'.unrouted <==> x in e.unrouted)
  }

  lemma ReceiverSame(e: End, e': End, x: u32, n: Near, line: seq<Token>, back: nat)
    requires FarAlike(e, e', x)
    ensures ReceiverMoves(e, None, e', x, n, line, back)
  {
  }

  /** A frame in hand is the first thing on the line. */
  lemma HandIsFirst(x: u32, n: Near, line: seq<Token>, f: Far, back: nat, t: Token)
    requires f.hand == [t]
    ensures var p := Join(x, n, line, f, back);
            p.line != [] && p.line[0] == t && Join(x, n, line, f.(hand := []), back) == p.(line := p.line[1..])
  {
    var p := Join(x, n, line, f, back);
    assert p.line == [t] + (line + n.waiting);
    assert [] + line + n.waiting == line + n.waiting;
  }

  lemma FarByData(e: End, id: u32, bytes: Bytes, x: u32)
    requires MapsOk(e) && Tidy(e) && e.reader == Reader.Hand(Data(id, bytes)) && Cost(bytes) <= QueueLimit(e.window)
    ensures FarOf(HandleData(e, id, bytes), x)
         == var f := FarOf(e, x);
            var routed := f.sink.Some? && Routed(f.sink.value);
            if id == x then f.(hand := [], stage := if routed then AtDoor(bytes) else Turned(bytes),
                               spilled := f.spilled || !routed, unopened := f.unopened || f.sink.None?)
            else f
  {
    IdsAnswer(e, id);
  }

  lemma ArriveJoins(x: u32, n: Near, line: seq<Token>, f: Far, back: nat, bytes: Bytes)
    requires f.hand == [Chunk(bytes)] && f.rw && f.stage.Nowhere? && Cost(bytes) <= QueueLimit(f.window)
    ensures var routed := f.sink.Some? && Routed(f.sink.value);
            Moves(Join(x, n, line, f, back), Some(Arrive),
                  Join(x, n, line, f.(hand := [], stage := if routed then AtDoor(bytes) else Turned(bytes),
                                      spilled := f.spilled || !routed, unopened := f.unopened || f.sink.None?),
                       back))
  {
    HandIsFirst(x, n, line, f, back, Chunk(bytes));
  }

  lemma ReceiverByData(e: End, id: u32, bytes: Bytes, x: u32, n: Near, line: seq<Token>, back: nat)
    requires MapsOk(e) && Tidy(e) && e.reader == Reader.Hand(Data(id, bytes)) && Cost(bytes) <= QueueLimit(e.window)
    requires e.peerWindowed
    ensures ReceiverMoves(e, FrameAsReceiver(e, Data(id, bytes), x), HandleData(e, id, bytes), x, n, line, back)
  {
    FarByData(e, id, bytes, x);
    if id == x { ArriveJoins(x, n, line, FarOf(e, x), back, bytes); }
  }

  lemma FarByClose(e: End, id: u32, x: u32)
    requires MapsOk(e) && Tidy(e) && e.reader == Reader.Hand(Close(id))
    ensures FarOf(HandleClose(e, id), x)
         == var f := FarOf(e, x);
            if id == x then f.(hand := [], sink := WithClose(f.sink), unopened := f.unopened || f.sink.None?) else f
  {
    SinkByClose(e, id, x);
    UnopenedByClose(e, id, x);
  }

  lemma UnopenedByClose(e: End, id: u32, x: u32)
    requires MapsOk(e) && Tidy(e)
    ensures x in HandleClose(e, id).unrouted <==> x in e.unrouted || (x == id && x !in e.sinks)
  {
    IdsAnswer(e, id);
  }

  lemma SinkByClose(e: End, id: u32, x: u32)
    requires MapsOk(e) && Tidy(e)
    ensures SinkOf(HandleClose(e, id), x) == if id == x then WithClose(SinkOf(e, x)) else SinkOf(e, x)
  {
    IdsAnswer(e, id);
  }

  lemma ReceiverByClose(e: End, id: u32, x: u32, n: Near, line: seq<Token>, back: nat)
    requires MapsOk(e) && Tidy(e) && e.reader == Reader.Hand(Close(id)) && e.peerWindowed
    ensures ReceiverMoves(e, FrameAsReceiver(e, Close(id), x), HandleClose(e, id), x, n, line, back)
  {
    FarByClose(e, id, x);
    if id == x { HandIsFirst(x, n, line, FarOf(e, x), back, Finish); }
  }

  lemma ReceiverByMark(e: End, e': End, after: map<nat, nat>, dropped: bool, x: u32, n: Near, line: seq<Token>,
          back: nat)
    requires e.reader.Hand? && HandTokens(e.reader, x) == MarkOf(after, x) && e.peerWindowed
    requires FarOf(e', x) == FarOf(e, x).(hand := [], shown := if dropped then 0 else MarkIn(after, x))
    ensures ReceiverMoves(e, if x in after then Some(if dropped then DropMark else ArriveMark) else None, e', x, n,
      line, back)
  {
    if x in after { HandIsFirst(x, n, line, FarOf(e, x), back, Mark(after[x])); }
  }

  lemma ReceiverByControl(e: End, msg: Message, after: map<nat, nat>, main: bool, x: u32, n: Near, line: seq<Token>,
          back: nat)
    requires e.reader == Reader.Hand(Control(msg, after, main)) && e.peerWindowed
    ensures ReceiverMoves(e, FrameAsReceiver(e, Control(msg, after, main), x),
      HandleFrame(e, Control(msg, after, main)),
                          x, n, line, back)
  {
    ReceiverByMark(e, HandleFrame(e, Control(msg, after, main)), after, false, x, n, line, back);
  }

  lemma ReceiverByFds(e: End, payload: Bytes, after: map<nat, nat>, x: u32, n: Near, line: seq<Token>, back: nat)
    requires e.reader == Reader.Hand(Fds(payload, after)) && e.peerWindowed
    ensures ReceiverMoves(e, FrameAsReceiver(e, Fds(payload, after), x), HandleFds(e, payload, after), x, n, line, back)
  {
    ReceiverByMark(e, HandleFds(e, payload, after), after, e.live + |payload| / 5 > MAX_LIVE_STREAMS, x, n, line, back);
  }

  lemma ReceiverByHello(e: End, payload: Bytes, x: u32, n: Near, line: seq<Token>, back: nat)
    requires e.reader == Reader.Hand(Hello(payload))
    ensures ReceiverMoves(e, FrameAsReceiver(e, Hello(payload), x),
      HandleHello(e, HelloVerdict(e.peerWindowed, payload)),
                          x, n, line, back)
  {
  }

  lemma ReceiverByFrame(e: End, fr: Frame, x: u32, n: Near, line: seq<Token>, back: nat)
    requires MapsOk(e) && Tidy(e) && e.reader == Reader.Hand(fr) && (e.peerWindowed || fr.Hello?)
    requires fr.Data? ==> Cost(fr.bytes) <= QueueLimit(e.window)
    ensures ReceiverMoves(e, FrameAsReceiver(e, fr, x), HandleFrame(e, fr), x, n, line, back)
  {
    match fr
    case Hello(payload) => ReceiverByHello(e, payload, x, n, line, back);
    case Control(msg, after, main) => ReceiverByControl(e, msg, after, main, x, n, line, back);
    case Fds(payload, after) => ReceiverByFds(e, payload, after, x, n, line, back);
    case Data(id, bytes) => ReceiverByData(e, id, bytes, x, n, line, back);
    case Close(id) => ReceiverByClose(e, id, x, n, line, back);
    case Window(_, _) | Unknown => ReceiverSame(e, HandleFrame(e, fr), x, n, line, back);
  }

  lemma ReceiverByCount(e: End, h: Handle, id: u32, bytes: Bytes, x: u32, n: Near, line: seq<Token>, back: nat)
    requires e.reader == Room(h, id, bytes) && ReaderEnabled(e, Count)
    ensures ReceiverMoves(e, if h == x then Some(Enter) else None, DoCount(e), x, n, line, back)
  {
  }

  lemma FarByDeliver(e: End, h: Handle, id: u32, bytes: Bytes, early: bool, x: u32)
    requires e.reader == Counted(h, id, bytes, early) && ReaderEnabled(e, Deliver) && id == h
    ensures FarOf(DoDeliver(e), x)
         == var f := FarOf(e, x);
            if h != x then f
            else f.(stage := if e.sinks[h].phase.Live? then Nowhere else Turned(bytes),
                    spilled := f.spilled || !e.sinks[h].phase.Live?,
                    sink := Some(DeliverSink(e.sinks[h], bytes, early)))
  {
  }

  lemma HandJoins(x: u32, n: Near, line: seq<Token>, f: Far, back: nat, bytes: Bytes, early: bool, k: Sink)
    requires f.stage == InCounter(bytes, early) && f.sink == Some(k)
    ensures Moves(Join(x, n, line, f, back), Some(PipeStep.Hand),
                  Join(x, n, line, f.(stage := if k.phase.Live? then Nowhere else Turned(bytes),
                                      spilled := f.spilled || !k.phase.Live?,
                                      sink := Some(DeliverSink(k, bytes, early))), back))
  {
  }

  lemma ReceiverByDeliver(e: End, h: Handle, id: u32, bytes: Bytes, early: bool, x: u32, n: Near, line: seq<Token>,
          back: nat)
    requires e.reader == Counted(h, id, bytes, early) && ReaderEnabled(e, Deliver) && id == h
    ensures ReceiverMoves(e, if h == x then Some(PipeStep.Hand) else None, DoDeliver(e), x, n, line, back)
  {
    FarByDeliver(e, h, id, bytes, early, x);
    if h == x { HandJoins(x, n, line, FarOf(e, x), back, bytes, early, e.sinks[h]); }
  }

  lemma FarByOwe(e: End, id: u32, bytes: Bytes, x: u32)
    requires e.reader == Refused(id, bytes) && WireSized(bytes) && e.peerWindowed
    ensures FarOf(DoOwe(e), x)
         == var f := FarOf(e, x);
            var lost := Forgone(e.owed, id, Cost(bytes));
            if id == x then f.(stage := Nowhere, owed := f.owed + Cost(bytes) - lost, forgone := f.forgone + lost)
              else f
    ensures Forgone(e.owed, id, Cost(bytes)) <= Cost(bytes)
  {
    assert Cost(bytes) % 0x1_0000_0000 == Cost(bytes);
  }

  lemma ChargeJoins(x: u32, n: Near, line: seq<Token>, f: Far, back: nat, lost: nat)
    requires f.rw && f.stage.Turned? && lost <= Cost(f.stage.bytes)
    ensures Moves(Join(x, n, line, f, back), Some(Charge(lost)),
                  Join(x, n, line, f.(stage := Nowhere, owed := f.owed + Cost(f.stage.bytes) - lost,
                    forgone := f.forgone + lost), back))
  {
  }

  lemma ReceiverByOwe(e: End, id: u32, bytes: Bytes, x: u32, n: Near, line: seq<Token>, back: nat)
    requires e.reader == Refused(id, bytes) && WireSized(bytes) && e.peerWindowed
    ensures ReceiverMoves(e, if id == x then Some(Charge(Forgone(e.owed, x, Cost(bytes) % 0x1_0000_0000))) else None,
                          DoOwe(e), x, n, line, back)
  {
    FarByOwe(e, id, bytes, x);
    assert Cost(bytes) % 0x1_0000_0000 == Cost(bytes);
    if id == x { ChargeJoins(x, n, line, FarOf(e, x), back, Forgone(e.owed, x, Cost(bytes))); }
  }

  lemma ReceiverByOpen(e: End, h: Handle, id: u32, dir: Dir, socket: bool, x: u32, n: Near, line: seq<Token>, back: nat)
    requires Fresh(e, h) && h == id
    ensures ReceiverMoves(e, if h == x && dir.Writes() then Some(OpenSink) else None,
                          OpenPumps(e, h, id, dir, socket), x, n, line, back)
  {
    FarByOpen(e, h, id, dir, socket, x);
    if h == x && dir.Writes() { OpenJoins(x, n, line, FarOf(e, x), back); }
  }

  lemma FarByOpen(e: End, h: Handle, id: u32, dir: Dir, socket: bool, x: u32)
    requires Fresh(e, h) && h == id
    ensures FarOf(OpenPumps(e, h, id, dir, socket), x)
         == var f := FarOf(e, x); if h == x && dir.Writes() then f.(sink := Some(NewSink(x))) else f
  {
  }

  lemma OpenJoins(x: u32, n: Near, line: seq<Token>, f: Far, back: nat)
    requires f.sink.None?
    ensures Moves(Join(x, n, line, f, back), Some(OpenSink),
                  Join(x, n, line, f.(sink := Some(NewSink(x))), back))
  {
  }

  lemma ReceiverByMaterialize(e: End, h: Handle, spec: Spec, rest: seq<Spec>, done: seq<u32>, after: map<nat, nat>,
                              x: u32, n: Near, line: seq<Token>, back: nat)
    requires e.reader == Materializing([spec] + rest, done, after) && Fresh(e, h) && h == spec.id
    ensures ReceiverMoves(e, ReaderAsReceiver(e, Materialize(h), x), DoMaterialize(e, h), x, n, line, back)
  {
    ReceiverByOpen(e, h, spec.id, spec.dir.Invert(), true, x, n, line, back);
    ReceiverSame(OpenPumps(e, h, spec.id, spec.dir.Invert(), true), DoMaterialize(e, h), x, n, line, back);
  }

  lemma ReceiverByStart(e: End, h: Handle, spec: Spec, rest: seq<Spec>, x: u32, n: Near, line: seq<Token>, back: nat)
    requires e.starting == [spec] + rest && Fresh(e, h) && h == spec.id
    ensures ReceiverMoves(e, if h == x && spec.dir.Writes() then Some(OpenSink) else None,
                          DoStartPump(e, h), x, n, line, back)
  {
    ReceiverByOpen(e, h, spec.id, spec.dir, false, x, n, line, back);
    ReceiverSame(OpenPumps(e, h, spec.id, spec.dir, false), DoStartPump(e, h), x, n, line, back);
  }

  lemma ReceiverByAbort(e: End, h: Handle, id: u32, bytes: Bytes, x: u32, n: Near, line: seq<Token>, back: nat)
    requires e.reader == Room(h, id, bytes) && id == h
    ensures ReceiverMoves(e, if h == x then Some(Abort) else None, DoShutdown(e), x, n, line, back)
  {
    FarByAbort(e, h, id, bytes, x);
    if h == x { AbortJoins(x, n, line, FarOf(e, x), back, bytes); }
  }

  lemma FarByAbort(e: End, h: Handle, id: u32, bytes: Bytes, x: u32)
    requires e.reader == Room(h, id, bytes) && id == h
    ensures FarOf(DoShutdown(e), x)
         == var f := FarOf(e, x);
            if h == x then f.(stage := Nowhere, forgone := f.forgone + Cost(bytes), spilled := true) else f
  {
  }

  lemma AbortJoins(x: u32, n: Near, line: seq<Token>, f: Far, back: nat, bytes: Bytes)
    requires f.stage == AtDoor(bytes)
    ensures Moves(Join(x, n, line, f, back), Some(Abort),
                  Join(x, n, line, f.(stage := Nowhere, forgone := f.forgone + Cost(bytes), spilled := true), back))
  {
  }

  lemma ReceiverByShown(e: End, e': End, x: u32, n: Near, line: seq<Token>, back: nat)
    requires FarOf(e', x) == FarOf(e, x).(shown := 0)
    ensures ReceiverMoves(e, Some(Shown), e', x, n, line, back)
  {
  }

  lemma FarByPull(e: End, h: Handle, k: Sink, s: SinkStep, x: u32)
    requires Tidy(e) && h in e.sinks && e.sinks[h] == k && SinkEnabled(e, h, k, s)
    ensures FarOf(ApplySink(e, h, s), x)
         == var f := FarOf(e, x);
            if h == x then f.(sink := Some(SinkNext(k, e.window, e.peerWindowed, s)),
                              waiting := f.waiting + if s.QueueGrant? then k.pending.value else 0)
            else f
  {
    if s.QueueGrant? {
      ShareAppend(e.queue, Window(k.id, k.pending.value), x);
    } else {
      assert e.queue + [] == e.queue;
    }
  }

  /** A pump ends its sink only when the reader is done with it. */
  lemma EndsBetweenFrames(e: End, h: Handle, k: Sink, s: SinkStep)
    requires SinksOk(e) && h in e.sinks && e.sinks[h] == k && SinkEnabled(e, h, k, s) && Drops(s) && !s.AbandonDrop?
    ensures !ReaderHolds(e, h)
  {
    assert SinkOk(k, e.window, e.peerWindowed, HalfQueued(e.reader, h));
  }

  lemma PullJoins(x: u32, n: Near, line: seq<Token>, f: Far, back: nat, k: Sink, s: SinkStep)
    requires f.sink == Some(k) && SinkCan(k, s) && (Drops(s) && !s.AbandonDrop? ==> !InStream(f.stage))
    ensures Moves(Join(x, n, line, f, back), Some(Pull(s)),
                  Join(x, n, line, f.(sink := Some(SinkNext(k, f.window, f.rw, s)),
                                      waiting := f.waiting + if s.QueueGrant? then k.pending.value else 0), back))
  {
  }

  lemma ReceiverByPull(e: End, h: Handle, k: Sink, s: SinkStep, x: u32, n: Near, line: seq<Token>, back: nat)
    requires SinksOk(e) && Tidy(e) && h in e.sinks && e.sinks[h] == k && SinkEnabled(e, h, k, s)
    ensures ReceiverMoves(e, if h == x then Some(Pull(s)) else None, ApplySink(e, h, s), x, n, line, back)
  {
    FarByPull(e, h, k, s, x);
    if Drops(s) && !s.AbandonDrop? { EndsBetweenFrames(e, h, k, s); }
    if h == x { PullJoins(x, n, line, FarOf(e, x), back, k, s); }
  }

  lemma ReceiverByPump(e: End, h: Handle, o: Out, p: PumpStep, x: u32, n: Near, line: seq<Token>, back: nat)
    requires h in e.outs && e.outs[h] == o && PumpEnabled(e, o, p)
    ensures ReceiverMoves(e, None, ApplyPump(e, h, p), x, n, line, back)
  {
    PumpShare(e.queue, o, p, x);
    ReceiverSame(e, ApplyPump(e, h, p), x, n, line, back);
  }

  lemma ReceiverByApp(e: End, m: AppStep, x: u32, n: Near, line: seq<Token>, back: nat)
    requires AppEnabled(e, m) && (m.StartPump? ==> m.h == e.starting[0].id)
    ensures ReceiverMoves(e, AsReceiver(e, App(m), x), ApplyApp(e, m), x, n, line, back)
  {
    match m
    case QueueMessage(task) =>
      ShareAppend(e.queue, TaskFrame(e, task), x);
      ReceiverSame(e, ApplyApp(e, m), x, n, line, back);
    case StartPump(h) =>
      assert e.starting == [e.starting[0]] + e.starting[1..];
      ReceiverByStart(e, h, e.starting[0], e.starting[1..], x, n, line, back);
    case CloseFlow | AppReceive | BeginSend(_, _, _) | Aim(_) | Pass(_) =>
      ReceiverSame(e, ApplyApp(e, m), x, n, line, back);
  }

  lemma ReceiverByShutdown(e: End, x: u32, n: Near, line: seq<Token>, back: nat)
    requires e.reader.Idle? || e.reader.Room? || e.reader.Surfacing?
    requires e.reader.Room? ==> e.reader.id == e.reader.h
    ensures ReceiverMoves(e, ReaderAsReceiver(e, Shutdown, x), DoShutdown(e), x, n, line, back)
  {
    if e.reader.Room? {
      ReceiverByAbort(e, e.reader.h, e.reader.id, e.reader.bytes, x, n, line, back);
    } else {
      ReceiverByShown(e, DoShutdown(e), x, n, line, back);
    }
  }

  lemma ReceiverByFailing(e: End, rest: seq<Spec>, done: seq<u32>, after: map<nat, nat>, x: u32, n: Near,
          line: seq<Token>, back: nat)
    requires e.reader == Materializing(rest, done, after)
    ensures ReceiverMoves(e, Some(Shown), StopReader(e, NoDescriptor), x, n, line, back)
  {
  }

  lemma ReceiverBySurfacing(e: End, item: Item, x: u32, n: Near, line: seq<Token>, back: nat)
    requires e.reader == Surfacing(item)
    ensures ReceiverMoves(e, Some(Shown), e.(ctrl := e.ctrl + [item], reader := Idle), x, n, line, back)
  {
  }

  lemma ReceiverByFinishing(e: End, done: seq<u32>, after: map<nat, nat>, x: u32, n: Near, line: seq<Token>, back: nat)
    requires e.reader == Materializing([], done, after)
    ensures ReceiverMoves(e, None, e.(reader := Surfacing(Descriptors(done, after))), x, n, line, back)
  {
  }

  lemma ReaderNames(e: End)
    requires SinksOk(e) && Tidy(e)
    ensures ReaderInStream(e.reader) ==> e.reader.id == e.reader.h
    ensures e.reader.Refused? ==> WireSized(e.reader.bytes)
  {
  }

  lemma ReceiverByReader(e: End, r: ReaderStep, x: u32, n: Near, line: seq<Token>, back: nat)
    requires MapsOk(e) && Tidy(e) && ReaderEnabled(e, r) && !r.Receive?
    requires ReaderInStream(e.reader) ==> e.reader.id == e.reader.h
    requires e.reader.Refused? ==> WireSized(e.reader.bytes)
    requires r.Materialize? ==> r.h == e.reader.rest[0].id
    requires e.peerWindowed || (r.Inspect? && e.reader.frame.Hello?) || r.Shutdown?
    requires r.Inspect? && e.reader.frame.Data? ==> Cost(e.reader.frame.bytes) <= QueueLimit(e.window)
    ensures ReceiverMoves(e, ReaderAsReceiver(e, r, x), ApplyReader(e, r), x, n, line, back)
  {
    match r
    case Inspect => ReceiverByFrame(e, e.reader.frame, x, n, line, back);
    case Count => ReceiverByCount(e, e.reader.h, e.reader.id, e.reader.bytes, x, n, line, back);
    case Deliver => ReceiverByDeliver(e, e.reader.h, e.reader.id, e.reader.bytes, e.reader.early, x, n, line, back);
    case Owe => ReceiverByOwe(e, e.reader.id, e.reader.bytes, x, n, line, back);
    case Materialize(h) =>
      assert e.reader.rest == [e.reader.rest[0]] + e.reader.rest[1..];
      ReceiverByMaterialize(e, h, e.reader.rest[0], e.reader.rest[1..], e.reader.done, e.reader.after, x, n, line,
        back);
    case MaterializeFails => ReceiverByFailing(e, e.reader.rest, e.reader.done, e.reader.after, x, n, line, back);
    case Surface => ReceiverBySurfacing(e, e.reader.item, x, n, line, back);
    case FinishFds => ReceiverByFinishing(e, e.reader.done, e.reader.after, x, n, line, back);
    case Shutdown => ReceiverByShutdown(e, x, n, line, back);
  }

  // ---- the channel between them -----------------------------------------------------------

  /** The writer moves tokens from the frame queue to the channel, where the stream
      does not see a difference. */
  lemma SenderWrites(e: End, ab: seq<Frame>, w: WriterStep, x: u32, f: Far, back: nat)
    requires WriterEnabled(e, w)
    ensures Join(x, NearOf(ApplyWriter(e, w), x), Tokens(ab + Emits(e, Writer(w)), x), f, back)
         == Join(x, NearOf(e, x), Tokens(ab, x), f, back)
  {
    match w
    case SayHello => ShareAppend(ab, Greeting(e), x); assert Tokens(ab, x) + [] == Tokens(ab, x);
    case TakeOwed => assert ab + [] == ab;
    case GrantOwed(id) => ShareAppend(ab, Window(id, e.flushing[id]), x); assert Tokens(ab, x) + [] == Tokens(ab, x);
    case WriteQueued =>
      var fr, rest := e.queue[0], e.queue[1..];
      assert e.queue == [fr] + rest;
      ShareAppend(ab, fr, x);
      ShareHead(fr, rest, x);
      MoveAcross(f.hand, Tokens(ab, x), TokensOf(fr, x), Tokens(rest, x));
  }

  lemma MoveAcross(a: seq<Token>, b: seq<Token>, c: seq<Token>, d: seq<Token>)
    ensures a + (b + c) + d == a + b + (c + d)
  {
  }

  /** The same for grants, where flushing a debt starts one on its way. */
  lemma ReceiverWrites(e: End, ab: seq<Frame>, w: WriterStep, x: u32, n: Near, line: seq<Token>)
    requires WriterEnabled(e, w)
    ensures Moves(Join(x, n, line, FarOf(e, x), Grants(ab, x)), AsReceiver(e, Writer(w), x),
                  Join(x, n, line, FarOf(ApplyWriter(e, w), x), Grants(ab + Emits(e, Writer(w)), x)))
  {
    match w
    case SayHello => ShareAppend(ab, Greeting(e), x);
    case TakeOwed => assert ab + [] == ab;
    case GrantOwed(id) =>
      ShareAppend(ab, Window(id, e.flushing[id]), x);
      ReceiverFlushes(e, id, Grants(ab, x), x, n, line);
    case WriteQueued =>
      assert e.queue == [e.queue[0]] + e.queue[1..];
      ShareAppend(ab, e.queue[0], x);
      ReceiverWritesFrame(e, e.queue[0], e.queue[1..], Grants(ab, x), x, n, line);
  }

  lemma ReceiverFlushes(e: End, id: u32, back: nat, x: u32, n: Near, line: seq<Token>)
    requires id in e.flushing
    ensures Moves(Join(x, n, line, FarOf(e, x), back), if id == x then Some(Repay(e.flushing[x])) else None,
                  Join(x, n, line, FarOf(e.(flushing := e.flushing - {id}), x), back + if id == x then e.flushing[x]
                    else 0))
  {
  }

  lemma ReceiverWritesFrame(e: End, fr: Frame, rest: seq<Frame>, back: nat, x: u32, n: Near, line: seq<Token>)
    requires e.queue == [fr] + rest
    ensures Join(x, n, line, FarOf(e.(queue := rest), x), back + GrantIn(fr, x)) == Join(x, n, line, FarOf(e, x), back)
  {
    ShareHead(fr, rest, x);
  }

  lemma SenderReceives(e: End, fr: Frame, rest: seq<Frame>, x: u32, line: seq<Token>, f: Far)
    requires e.reader.Idle?
    ensures Join(x, NearOf(e.(reader := Reader.Hand(fr)), x), line, f, Grants(rest, x))
         == Join(x, NearOf(e, x), line, f, Grants([fr] + rest, x))
  {
    ShareHead(fr, rest, x);
  }

  lemma ReceiverReceives(e: End, fr: Frame, rest: seq<Frame>, x: u32, n: Near, back: nat)
    requires e.reader.Idle?
    ensures Join(x, n, Tokens(rest, x), FarOf(e.(reader := Reader.Hand(fr)), x), back)
         == Join(x, n, Tokens([fr] + rest, x), FarOf(e, x), back)
  {
    ShareHead(fr, rest, x);
    assert [] + (TokensOf(fr, x) + Tokens(rest, x)) == TokensOf(fr, x) + Tokens(rest, x);
  }

  // ---- every step ------------------------------------------------------------------------

  /** The reader of a conforming pair only ever holds frames it will take. */
  lemma HandIsFair(s: Sys)
    requires Sound(s) && s.a.reader.Hand?
    ensures !s.a.peerWindowed ==>
      s.a.reader.frame.Hello? && HelloVerdict(false, s.a.reader.frame.payload) == Verdict.Take(s.b.window)
    ensures s.a.reader.frame.Data? ==> Cost(s.a.reader.frame.bytes) <= QueueLimit(s.a.window)
  {
    HelloIsTaken(s.b.window, []);
    assert HelloPayload(s.b.window) + [] == HelloPayload(s.b.window);
  }

  lemma SenderRefinesReading(s: Sys, r: ReaderStep, x: u32)
    requires Sound(s) && EnabledA(s, Reads(r)) && !r.Receive?
    ensures Moves(View(s, x), ReaderAsSender(s.a, r, x), View(StepA(s, Reads(r)), x))
  {
    QuietStep(s, Reads(r));
    if r.Inspect? { HandIsFair(s); }
    SenderByReader(s.a, r, x, Tokens(s.ab, x), FarOf(s.b, x), Grants(s.ba, x));
  }

  lemma SenderRefinesReceiving(s: Sys, fr: Frame, rest: seq<Frame>, x: u32)
    requires EnabledA(s, Reads(Receive(fr))) && s.ba == [fr] + rest
    ensures View(StepA(s, Reads(Receive(fr))), x) == View(s, x)
  {
    assert s.ab + [] == s.ab && s.ba[1..] == rest;
    SenderReceives(s.a, fr, rest, x, Tokens(s.ab, x), FarOf(s.b, x));
  }

  lemma SenderRefinesReads(s: Sys, r: ReaderStep, x: u32)
    requires Sound(s) && EnabledA(s, Reads(r))
    ensures Moves(View(s, x), ReaderAsSender(s.a, r, x), View(StepA(s, Reads(r)), x))
  {
    if r.Receive? {
      assert s.ba == [r.frame] + s.ba[1..];
      SenderRefinesReceiving(s, r.frame, s.ba[1..], x);
    } else {
      SenderRefinesReading(s, r, x);
    }
  }

  /** Every step of a stream's sender, whatever it does for others, is one step of
      the stream's own pipe or none. */
  lemma SenderRefines(s: Sys, step: Step, x: u32)
    requires Sound(s) && EnabledA(s, step)
    ensures Moves(View(s, x), AsSender(s.a, step, x), View(StepA(s, step), x))
  {
    var line, f, back := Tokens(s.ab, x), FarOf(s.b, x), Grants(s.ba, x);
    match step
    case Writer(w) => SenderWrites(s.a, s.ab, w, x, f, back);
    case Reads(r) => SenderRefinesReads(s, r, x);
    case App(m) => QuietStep(s, App(m)); SenderByApp(s.a, m, x, line, f, back);
    case Pump(h, p) => QuietStep(s, Pump(h, p)); SenderByPump(s.a, h, s.a.outs[h], p, x, line, f, back);
    case Drain(h, k) => QuietStep(s, Drain(h, k)); SenderBySink(s.a, h, s.a.sinks[h], k, x, line, f, back);
  }

  lemma ReceiverRefinesReading(s: Sys, r: ReaderStep, x: u32)
    requires Sound(s) && EnabledA(s, Reads(r)) && !r.Receive?
    ensures Moves(View(Swap(s), x), ReaderAsReceiver(s.a, r, x), View(Swap(StepA(s, Reads(r))), x))
  {
    QuietStep(s, Reads(r));
    if r.Inspect? { HandIsFair(s); }
    ReaderNames(s.a);
    ReceiverByReader(s.a, r, x, NearOf(s.b, x), Tokens(s.ba, x), Grants(s.ab, x));
  }

  lemma ReceiverRefinesReceiving(s: Sys, fr: Frame, rest: seq<Frame>, x: u32)
    requires EnabledA(s, Reads(Receive(fr))) && s.ba == [fr] + rest
    ensures View(Swap(StepA(s, Reads(Receive(fr)))), x) == View(Swap(s), x)
  {
    assert s.ab + [] == s.ab && s.ba[1..] == rest;
    ReceiverReceives(s.a, fr, rest, x, NearOf(s.b, x), Grants(s.ab, x));
  }

  lemma ReceiverRefinesReads(s: Sys, r: ReaderStep, x: u32)
    requires Sound(s) && EnabledA(s, Reads(r))
    ensures Moves(View(Swap(s), x), ReaderAsReceiver(s.a, r, x), View(Swap(StepA(s, Reads(r))), x))
  {
    if r.Receive? {
      assert s.ba == [r.frame] + s.ba[1..];
      ReceiverRefinesReceiving(s, r.frame, s.ba[1..], x);
    } else {
      ReceiverRefinesReading(s, r, x);
    }
  }

  /** And so is every step of its receiver. */
  lemma ReceiverRefines(s: Sys, step: Step, x: u32)
    requires Sound(s) && EnabledA(s, step)
    ensures Moves(View(Swap(s), x), AsReceiver(s.a, step, x), View(Swap(StepA(s, step)), x))
  {
    var line, n, back := Tokens(s.ba, x), NearOf(s.b, x), Grants(s.ab, x);
    match step
    case Writer(w) => ReceiverWrites(s.a, s.ab, w, x, n, line);
    case Reads(r) => ReceiverRefinesReads(s, r, x);
    case App(m) => QuietStep(s, App(m)); ReceiverByApp(s.a, m, x, n, line, back);
    case Pump(h, p) => QuietStep(s, Pump(h, p)); ReceiverByPump(s.a, h, s.a.outs[h], p, x, n, line, back);
    case Drain(h, k) => QuietStep(s, Drain(h, k)); ReceiverByPull(s.a, h, s.a.sinks[h], k, x, n, line, back);
  }

  /** What the laws of the two ends say of one stream. */
  lemma ViewIsLocal(s: Sys, x: u32)
    requires Sound(s)
    ensures Local(View(s, x))
  {
    if x in s.a.outs { assert OutOk(s.a.outs[x], s.a.closed, s.a.peerWindowed); }
    SinkIsLocal(s.b, x);
  }

  lemma SinkIsLocal(e: End, x: u32)
    requires SinksOk(e)
    ensures x in e.sinks ==> SinkOk(e.sinks[x], e.window, e.peerWindowed, StageHalf(StageOf(e.reader, x)))
    ensures InStream(StageOf(e.reader, x)) ==> x in e.sinks && !e.sinks[x].closeSeen && !e.sinks[x].phase.Ended?
    ensures !StageOf(e.reader, x).Nowhere? ==> WireSized(StageOf(e.reader, x).bytes)
    ensures var stage := StageOf(e.reader, x); stage.InCounter? && !stage.early ==> !e.sinks[x].Counting()
  {
    assert HalfQueued(e.reader, x) == StageHalf(StageOf(e.reader, x));
  }
}
