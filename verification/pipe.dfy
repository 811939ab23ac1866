/** What one stream would be if nothing shared its channel: an independent FIFO
    pipe with a credit window, from the descriptor one end reads to the descriptor
    the other end writes. refinement.dfy shows that every run of the two ends is,
    for each stream, a run of this machine; here are the laws of the machine. */
module PipeMachine {
  import opened ByteStrings
  import opened Credit
  import opened Endpoint
  import opened EndpointLaws

  /** What is on its way: stream data, the close, and the places where a control
      frame was queued behind a barrier that waited for `n` bytes of this stream. */
  datatype Token = Chunk(bytes: Bytes) | Finish | Mark(n: nat)

  /** Where the receiving reader stands with a frame of this stream. */
  datatype Stage = Nowhere | AtDoor(bytes: Bytes) | InCounter(bytes: Bytes, early: bool) | Turned(bytes: Bytes)

  /** `sw` and `rw`: the sender, the receiver has seen the other's Hello. `pw` is
      the window the sender was told, `cut` whether its flow is closed. `back` is
      credit travelling to the sender, `forgone` credit the receiver dropped,
      `spilled` whether it dropped data, `shown` the mark of the control frame it is
      surfacing, if any, and `unopened` whether anything arrived before the sink was
      opened. */
  datatype Pipe = Pipe(
    id: u32, window: u32, sw: bool, pw: u32, rw: bool, cut: bool,
    out: Option<Out>, line: seq<Token>, stage: Stage, sink: Option<Sink>,
    owed: nat, back: nat, forgone: nat, spilled: bool, shown: nat, unopened: bool)

  datatype PipeStep =
    | OpenOut(socket: bool)
    | OpenSink
    | SenderHello
    | ReceiverHello
    | Cut
    | Push(p: PumpStep)
    | Promise(n: nat)
    | TakeGrant(amount: u32)
    | Arrive
    | ArriveFinish
    | ArriveMark
    | DropMark
    | Shown
    | Enter
    | Hand
    | Charge(lost: nat)
    | Abort
    | Pull(k: SinkStep)
    | Repay(amount: u32)

  predicate PipeEnabled(p: Pipe, s: PipeStep) {
    match s
    case OpenOut(_) => p.out.None?
    case OpenSink => p.sink.None?
    case SenderHello => !p.sw
    case ReceiverHello => true
    case Cut => true
    case Push(m) =>
      && p.out.Some? && PumpCan(p.out.value, m)
      && (m.Admit? ==> MaySend(p.sw, p.out.value.available)) && (m.Quit? ==> p.cut)
    case Promise(n) => p.out.Some? && n <= p.out.value.Framed()
    case TakeGrant(n) => n <= p.back
    case Arrive =>
      p.rw && p.stage.Nowhere? && p.line != [] && p.line[0].Chunk? && Cost(p.line[0].bytes) <= QueueLimit(p.window)
    case ArriveFinish => p.rw && p.stage.Nowhere? && p.line != [] && p.line[0].Finish?
    case ArriveMark | DropMark => p.rw && p.stage.Nowhere? && p.line != [] && p.line[0].Mark?
    case Shown => true
    case Enter =>
      && p.stage.AtDoor? && p.sink.Some?
      && HasRoom(p.sink.value.queued, Cost(p.stage.bytes), QueueLimit(p.window), p.sink.value.Closed())
    case Hand => p.stage.InCounter? && p.sink.Some?
    case Charge(lost) => p.rw && p.stage.Turned? && lost <= Cost(p.stage.bytes)
    case Abort => p.stage.AtDoor?
    case Pull(k) => p.sink.Some? && SinkCan(p.sink.value, k) && (Drops(k) && !k.AbandonDrop? ==> !InStream(p.stage))
    case Repay(n) => n <= p.owed
  }

  predicate InStream(s: Stage) {
    s.AtDoor? || s.InCounter?
  }

  function PipeApply(p: Pipe, s: PipeStep): Pipe
    requires PipeEnabled(p, s)
  {
    match s
    case OpenOut(socket) => p.(out := Some(OpenedOut(p, socket)))
    case OpenSink => p.(sink := Some(NewSink(p.id)))
    case SenderHello => p.(sw := true, pw := p.window, out := WithWindow(p.out, p.window))
    case ReceiverHello => p.(rw := true)
    case Cut => p.(cut := true)
    case Push(m) => p.(out := Some(PumpNext(p.out.value, m)), line := p.line + PumpTokens(p.out.value, m))
    case Promise(n) => p.(line := p.line + [Mark(n)])
    case TakeGrant(n) => p.(back := p.back - n, out := WithGrant(p.out, n))
    case Arrive => DoArrive(p, p.line[0].bytes, p.line[1..])
    case ArriveFinish =>
      p.(line := p.line[1..], sink := WithClose(p.sink), unopened := p.unopened || p.sink.None?)
    case ArriveMark => p.(line := p.line[1..], shown := p.line[0].n)
    case DropMark => p.(line := p.line[1..])
    case Shown => p.(shown := 0)
    case Enter => DoEnter(p, p.stage.bytes, p.sink.value)
    case Hand => DoHand(p, p.stage.bytes, p.stage.early, p.sink.value)
    case Charge(lost) =>
      p.(stage := Nowhere, owed := p.owed + Cost(p.stage.bytes) - lost, forgone := p.forgone + lost)
    case Abort => p.(stage := Nowhere, forgone := p.forgone + Cost(p.stage.bytes), spilled := true)
    case Pull(k) =>
      p.(sink := Some(SinkNext(p.sink.value, p.window, p.rw, k)),
         back := p.back + if k.QueueGrant? then p.sink.value.pending.value else 0)
    case Repay(n) => p.(owed := p.owed - n, back := p.back + n)
  }

  function OpenedOut(p: Pipe, socket: bool): Out {
    Out(p.id, socket, !p.sw, if p.sw then p.pw else 0, [], false, 0, 0, Waiting)
  }

  function WithWindow(o: Option<Out>, window: u32): Option<Out> {
    if o.Some? && !o.value.phase.Dropped? then Some(o.value.(available := o.value.available + window)) else o
  }

  function WithGrant(o: Option<Out>, n: u32): Option<Out> {
    if o.Some? && !o.value.phase.Dropped? then Some(GrantOut(o.value, n)) else o
  }

  function WithClose(k: Option<Sink>): Option<Sink> {
    if k.Some? && Routed(k.value) then Some(CloseSink(k.value)) else k
  }

  function PumpTokens(o: Out, m: PumpStep): seq<Token>
    requires PumpCan(o, m)
  {
    match m
    case Queue => [Chunk(o.phase.bytes)]
    case QueueClose => [Finish]
    case _ => []
  }

  function DoArrive(p: Pipe, bytes: Bytes, rest: seq<Token>): Pipe {
    var routed := p.sink.Some? && Routed(p.sink.value);
    p.(line := rest, stage := if routed then AtDoor(bytes) else Turned(bytes), spilled := p.spilled || !routed,
       unopened := p.unopened || p.sink.None?)
  }

  function DoEnter(p: Pipe, bytes: Bytes, k: Sink): Pipe {
    p.(stage := InCounter(bytes, k.Counting()), sink := Some(CountSink(k, bytes)))
  }

  function DoHand(p: Pipe, bytes: Bytes, early: bool, k: Sink): Pipe {
    p.(stage := if k.phase.Live? then Nowhere else Turned(bytes), spilled := p.spilled || !k.phase.Live?,
       sink := Some(DeliverSink(k, bytes, early)))
  }

  // ---- sums and concatenations over what is on its way -----------------------------

  function LineCost(line: seq<Token>): nat {
    if line == [] then 0 else (if line[0].Chunk? then Cost(line[0].bytes) else 0) + LineCost(line[1..])
  }

  function LineBytes(line: seq<Token>): Bytes {
    if line == [] then [] else (if line[0].Chunk? then line[0].bytes else []) + LineBytes(line[1..])
  }

  predicate Silent(line: seq<Token>) {
    line == [] || (line[0].Mark? && Silent(line[1..]))
  }

  /** Nothing but marks follows a close. */
  predicate CloseIsLast(line: seq<Token>) {
    line == [] || (if line[0].Finish? then Silent(line[1..]) else CloseIsLast(line[1..]))
  }

  predicate HasFinish(line: seq<Token>) {
    line != [] && (line[0].Finish? || HasFinish(line[1..]))
  }

  /** Every mark's bytes were queued before it: what follows it is not needed to
      reach the mark out of the `framed` bytes queued so far. */
  predicate MarksHold(line: seq<Token>, framed: int) {
    line == [] || ((line[0].Mark? ==> line[0].n + |LineBytes(line[1..])| <= framed) && MarksHold(line[1..], framed))
  }

  lemma {:induction false} LineAppend(line: seq<Token>, t: Token)
    ensures LineCost(line + [t]) == LineCost(line) + if t.Chunk? then Cost(t.bytes) else 0
    ensures LineBytes(line + [t]) == LineBytes(line) + if t.Chunk? then t.bytes else []
    ensures Silent(line + [t]) <==> Silent(line) && t.Mark?
    ensures HasFinish(line + [t]) <==> HasFinish(line) || t.Finish?
    ensures CloseIsLast(line) && (t.Mark? || !HasFinish(line)) ==> CloseIsLast(line + [t])
  {
    if line == [] {
      assert line + [t] == [t];
    } else {
      assert (line + [t])[1..] == line[1..] + [t];
      LineAppend(line[1..], t);
      SilentMeans(line[1..]);
    }
  }

  lemma LineHead(t: Token, rest: seq<Token>)
    ensures LineCost([t] + rest) == (if t.Chunk? then Cost(t.bytes) else 0) + LineCost(rest)
    ensures LineBytes([t] + rest) == (if t.Chunk? then t.bytes else []) + LineBytes(rest)
    ensures Silent([t] + rest) <==> t.Mark? && Silent(rest)
    ensures HasFinish([t] + rest) <==> t.Finish? || HasFinish(rest)
    ensures CloseIsLast([t] + rest) <==> if t.Finish? then Silent(rest) else CloseIsLast(rest)
  {
    assert ([t] + rest)[0] == t && ([t] + rest)[1..] == rest;
  }

  lemma {:induction false} MarksAppend(line: seq<Token>, t: Token, framed: int, more: nat)
    requires MarksHold(line, framed)
    requires if t.Chunk? then more == |t.bytes| else more == 0
    requires t.Mark? ==> t.n <= framed
    ensures MarksHold(line + [t], framed + more)
  {
    if line == [] {
      assert line + [t] == [t];
    } else {
      assert (line + [t])[1..] == line[1..] + [t];
      LineAppend(line[1..], t);
      MarksAppend(line[1..], t, framed, more);
    }
  }

  lemma {:induction false} SilentMeans(line: seq<Token>)
    ensures Silent(line) ==> LineCost(line) == 0 && LineBytes(line) == [] && !HasFinish(line) && CloseIsLast(line)
  {
    if line != [] { SilentMeans(line[1..]); }
  }

  function QueueBytes(q: seq<StreamMsg>): Bytes {
    if q == [] then [] else (if q[0].Payload? then q[0].bytes else []) + QueueBytes(q[1..])
  }

  lemma {:induction false} QueueBytesAppend(q: seq<StreamMsg>, m: StreamMsg)
    ensures QueueBytes(q + [m]) == QueueBytes(q) + if m.Payload? then m.bytes else []
  {
    if q == [] {
      assert q + [m] == [m];
    } else {
      assert (q + [m])[1..] == q[1..] + [m];
      QueueBytesAppend(q[1..], m);
    }
  }

  /** A close is the last message of a sink's queue. */
  predicate FinIsLast(q: seq<StreamMsg>) {
    q == [] || (if q[0].Fin? then q[1..] == [] else FinIsLast(q[1..]))
  }

  lemma {:induction false} FinAppend(q: seq<StreamMsg>, m: StreamMsg)
    requires FinIsLast(q) && !HasFin(q)
    ensures FinIsLast(q + [m])
  {
    if q == [] {
      assert q + [m] == [m];
    } else {
      assert (q + [m])[1..] == q[1..] + [m];
      FinAppend(q[1..], m);
    }
  }

  // ---- the credit ledger -------------------------------------------------------------

  function StageCost(s: Stage): nat {
    match s
    case Nowhere => 0
    case AtDoor(bytes) => Cost(bytes)
    case InCounter(bytes, early) => if early then 0 else Cost(bytes)
    case Turned(bytes) => Cost(bytes)
  }

  /** The credit a sink still has to give back. */
  function SinkHolds(k: Sink): nat {
    match k.phase
    case Live => k.ungranted + k.queued + GrantOf(k.pending)
    case QueueDropped => k.ungranted + k.queued
    case Loaded(grant) => grant
    case Gone => GrantOf(k.pending)
    case Ended => k.ungranted + k.queued
  }

  function HandCost(o: Out): nat {
    if o.phase.Holding? then Cost(o.phase.bytes) else 0
  }

  /** All credit that is neither the sender's to spend nor dropped. */
  function Outstanding(p: Pipe): nat {
    (if p.out.Some? then HandCost(p.out.value) else 0) + LineCost(p.line) + StageCost(p.stage)
    + (if p.sink.Some? then SinkHolds(p.sink.value) else 0) + p.owed + p.back
  }

  function Excess(p: Pipe): nat {
    if p.sink.Some? then p.sink.value.excess else 0
  }

  function Lost(p: Pipe): nat {
    p.forgone + if p.sink.Some? then p.sink.value.lost else 0
  }

  function Granted(p: Pipe): int {
    if p.sw then p.pw else 0
  }

  /** Every byte of the window is somewhere. Once the pump has dropped its stream,
      grants find nobody and credit only leaves. */
  predicate Ledger(p: Pipe) {
    && (p.out.None? ==> p.stage.Nowhere? && Outstanding(p) == 0 && Excess(p) == 0 && Lost(p) == 0)
    && (p.out.Some? ==>
          var sum := p.out.value.available + Outstanding(p) + Lost(p);
          if p.out.value.phase.Dropped? then sum <= Granted(p) + Excess(p) else sum == Granted(p) + Excess(p))
  }

  // ---- the data --------------------------------------------------------------------

  predicate OffsetIn(k: Sink) {
    k.off <= if k.held.Some? then |k.held.value| else 0
  }

  function SinkBytes(k: Sink): Bytes
    requires OffsetIn(k)
  {
    k.written + (if k.held.Some? then k.held.value[k.off..] else []) + QueueBytes(k.inq)
  }

  function StageBytes(s: Stage): Bytes {
    match s
    case Nowhere => []
    case AtDoor(bytes) => bytes
    case InCounter(bytes, _) => bytes
    case Turned(bytes) => bytes
  }

  /** Nothing of the stream was dropped, and its holder stays. */
  predicate Whole(p: Pipe) {
    !p.spilled && (p.sink.Some? ==> p.sink.value.phase.Live? || p.sink.value.phase.Ended?)
  }

  predicate OffsetOk(p: Pipe) {
    p.sink.Some? ==> OffsetIn(p.sink.value)
  }

  function Received(p: Pipe): Bytes
    requires OffsetOk(p)
  {
    if p.sink.Some? then SinkBytes(p.sink.value) else []
  }

  function Sent(o: Out): Bytes
    requires o.taken <= |o.src|
  {
    o.src[..o.taken]
  }

  predicate TakenOk(p: Pipe) {
    p.out.Some? ==> p.out.value.taken <= |p.out.value.src|
  }

  /** What was written out, then what waits at the receiver, then what is on its
      way, then what the pump holds, is exactly what was read, in order. */
  predicate Fifo(p: Pipe) {
    && OffsetOk(p) && TakenOk(p) && (p.stage.Turned? ==> p.spilled)
    && (Whole(p) ==>
          Received(p) + StageBytes(p.stage) + LineBytes(p.line)
          + (if p.out.Some? then p.out.value.InHand() else []) == if p.out.Some? then Sent(p.out.value) else [])
  }

  /** A close is queued once, after everything, by a pump that has read its source
      to the end. */
  predicate Closing(p: Pipe) {
    && CloseIsLast(p.line)
    && (p.out.None? ==> Silent(p.line))
    && (p.sink.Some? && p.sink.value.closeSeen ==> Silent(p.line) && !HasFinish(p.line))
    && (p.sink.Some? ==> FinIsLast(p.sink.value.inq))
    && (HasFinish(p.line) || (p.sink.Some? && p.sink.value.closeSeen) ==>
          && p.out.Some? && (p.out.value.phase.Ending? || p.out.value.phase.Dropped?)
          && p.out.value.eof && p.out.value.taken == |p.out.value.src|)
  }

  // ---- the marks -------------------------------------------------------------------

  predicate Marks(p: Pipe) {
    && (p.out.Some? ==> MarksHold(p.line, p.out.value.Framed())
                        && p.shown + |LineBytes(p.line)| <= p.out.value.Framed())
    && (p.out.None? ==> p.line == [] && p.shown == 0)
  }

  /** Before the receiver has seen the sender's Hello it has seen nothing else. */
  predicate Quiet(p: Pipe) {
    p.rw
    || (p.stage.Nowhere? && p.owed == 0 && !p.spilled
        && (p.sink.Some? ==> !p.sink.value.closeSeen && p.sink.value.inq == [] && p.sink.value.held.None?
                             && p.sink.value.queued == 0
                             && (p.sink.value.phase.Loaded? ==> p.sink.value.phase.grant == 0)))
  }

  predicate PipeInv(p: Pipe) {
    Ledger(p) && Fifo(p) && Closing(p) && Marks(p) && Quiet(p) && (p.sw ==> p.pw == p.window)
  }

  /** What endpoint_laws.dfy says of the two ends, seen from one stream. */
  predicate Local(p: Pipe) {
    && (p.out.Some? ==> OutOk(p.out.value, p.cut, p.sw))
    && (p.sink.Some? ==> SinkOk(p.sink.value, p.window, p.rw, StageHalf(p.stage)))
    && (InStream(p.stage) ==>
          p.sink.Some? && !p.sink.value.closeSeen && !p.sink.value.phase.Ended?)
    && (p.stage.InCounter? && !p.stage.early ==> !p.sink.value.Counting())
    && (!p.stage.Nowhere? ==> WireSized(p.stage.bytes))
  }

  function StageHalf(s: Stage): nat {
    if s.InCounter? && s.early then Cost(s.bytes) else 0
  }
}
