/** What holds on every run of two conforming ends, for every stream. */
module Theorems {
  import opened ByteStrings
  import opened Credit
  import opened Wire
  import opened Endpoint
  import opened EndpointLaws
  import opened PipeMachine
  import opened PipeLaws
  import opened Session
  import opened SessionLaws
  import opened Refinement
  import opened Handoff
  import opened HandoffLaws
  import opened Spills

  /** Every stream, in either direction, is a pipe in order, and descriptors are
      handed over in order. */
  ghost predicate Good(s: Sys) {
    && Sound(s) && Handed(s) && SpilledOk(s.a) && SpilledOk(s.b)
    && (forall x: u32 :: PipeGood(View(s, x)) && PipeGood(View(Swap(s), x)))
  }

  predicate PipeGood(p: Pipe) {
    PipeInv(p) && NoLateLoss(p) && Arrivals(p)
  }

  lemma MoveKeeps(p: Pipe, m: Option<PipeStep>, p': Pipe)
    requires PipeGood(p) && Local(p) && p.window <= MAX_WINDOW && Moves(p, m, p')
    ensures PipeGood(p')
  {
    if m.Some? {
      PipeStepKeeps(p, m.value);
      NoLateLossKept(p, m.value);
      ArrivalsKept(p, m.value);
    }
  }

  lemma StepKeepsPipe(s: Sys, step: Step, x: u32)
    requires Good(s) && EnabledA(s, step)
    ensures PipeGood(View(StepA(s, step), x)) && PipeGood(View(Swap(StepA(s, step)), x))
  {
    ViewIsLocal(s, x);
    SenderRefines(s, step, x);
    MoveKeeps(View(s, x), AsSender(s.a, step, x), View(StepA(s, step), x));
    ViewIsLocal(Swap(s), x);
    ReceiverRefines(s, step, x);
    MoveKeeps(View(Swap(s), x), AsReceiver(s.a, step, x), View(Swap(StepA(s, step)), x));
  }

  lemma NoDataAfterClose(s: Sys)
    requires Good(s) && s.a.reader.Hand?
    ensures var f := s.a.reader.frame; f.Data? && f.id in s.a.sinks ==> !s.a.sinks[f.id].closeSeen
  {
    var f := s.a.reader.frame;
    if f.Data? { DataIsNotClosed(s, f.id, f.bytes); }
  }

  lemma DataIsNotClosed(s: Sys, x: u32, bytes: Bytes)
    requires Good(s) && s.a.reader == Reader.Hand(Data(x, bytes))
    ensures x in s.a.sinks ==> !s.a.sinks[x].closeSeen
  {
    HandComesFirst(s, x, bytes);
    assert PipeGood(View(Swap(s), x));
    NothingAfterClose(View(Swap(s), x), bytes, Tokens(s.ba, x) + Tokens(s.b.queue, x));
  }

  lemma HandComesFirst(s: Sys, x: u32, bytes: Bytes)
    requires s.a.reader == Reader.Hand(Data(x, bytes))
    ensures View(Swap(s), x).line == [Chunk(bytes)] + (Tokens(s.ba, x) + Tokens(s.b.queue, x))
  {
    assert HandTokens(s.a.reader, x) == [Chunk(bytes)];
  }

  lemma NothingAfterClose(p: Pipe, bytes: Bytes, rest: seq<Token>)
    requires Closing(p) && p.line == [Chunk(bytes)] + rest
    ensures p.sink.Some? ==> !p.sink.value.closeSeen
  {
    assert p.line[0] == Chunk(bytes);
  }

  lemma StepKeepsGood(s: Sys, step: Step)
    requires Good(s) && EnabledA(s, step)
    ensures Good(StepA(s, step)) && Good(Swap(StepA(s, step)))
  {
    StepKeepsSound(s, step);
    StepHands(s, step);
    if s.a.reader.Hand? { NoDataAfterClose(s); }
    SpilledByStep(s.a, step);
    forall x: u32
      ensures PipeGood(View(StepA(s, step), x)) && PipeGood(View(Swap(StepA(s, step)), x))
    {
      StepKeepsPipe(s, step, x);
    }
    GoodBothWays(StepA(s, step));
  }

  lemma GoodBothWays(s: Sys)
    requires Good(s)
    ensures Good(Swap(s))
  {
    assert Swap(Swap(s)) == s;
    HandedBothWays(s);
  }

  lemma NextKeepsGood(s: Sys, l: Label)
    requires Good(s) && EnabledIn(s, l)
    ensures Good(Next(s, l))
  {
    if l.atA {
      StepKeepsGood(s, l.step);
    } else {
      GoodBothWays(s);
      StepKeepsGood(Swap(s), l.step);
    }
  }

  lemma FollowsKeepsGood(r: Run, i: nat, s: Sys, t: Sys)
    requires i < |r.labels| && |r.states| == |r.labels| + 1 && Follows(r, i)
    requires r.states[i] == s && r.states[i + 1] == t && Good(s)
    ensures Good(t)
  {
    NextKeepsGood(s, r.labels[i]);
  }

  lemma StartIsGood(dialer: bool, wa: u32, wb: u32, cap: nat, orderly: bool)
    requires ValidStart(wa, wb, cap)
    ensures Good(Start(dialer, wa, wb, cap, orderly))
  {
    StartIsSound(dialer, wa, wb, cap, orderly);
    StartsHanded(dialer, wa, wb, cap, orderly);
    var s := Start(dialer, wa, wb, cap, orderly);
    assert SpilledOk(s.a) && SpilledOk(s.b);
    forall x: u32
      ensures PipeGood(View(s, x)) && PipeGood(View(Swap(s), x))
    {
      NewPipeIsInOrder(dialer, wa, wb, x);
      NewPipeIsInOrder(!dialer, wb, wa, x);
    }
  }

  lemma NewPipeIsInOrder(dialer: bool, w: u32, w': u32, x: u32)
    ensures PipeGood(Join(x, NearOf(NewEnd(dialer, w), x), [], FarOf(NewEnd(!dialer, w'), x), 0))
  {
    var a, b := NewEnd(dialer, w), NewEnd(!dialer, w');
    assert FarOf(b, x).hand + [] + NearOf(a, x).waiting == [];
  }

  lemma {:induction false} RunKeepsGood(r: Run, i: nat, s: Sys)
    requires IsRun(r) && IsStart(r.states[0]) && i <= |r.labels| && r.states[i] == s
    ensures Good(s)
    decreases i
  {
    if i == 0 {
      StartIsGood(s.a.dialer, s.a.window, s.b.window, s.cap, s.orderly);
    } else {
      RunKeepsGood(r, i - 1, r.states[i - 1]);
      FollowsKeepsGood(r, i - 1, r.states[i - 1], s);
    }
  }

  lemma ReachableIsGood(s: Sys)
    requires Reachable(s)
    ensures Good(s)
  {
    var r :| IsRun(r) && IsStart(r.states[0]) && r.states[|r.labels|] == s;
    RunKeepsGood(r, |r.labels|, s);
  }

  // ---- the shared channel refines independent pipes ----------------------------------------

  predicate PipeLeads(p: Pipe, steps: seq<PipeStep>, q: Pipe)
    decreases |steps|
  {
    if steps == [] then q == p
    else PipeEnabled(p, steps[0]) && PipeLeads(PipeApply(p, steps[0]), steps[1..], q)
  }

  /** Every label is one step of a stream's own machine, or none, whoever takes it. */
  function AsPipeStep(s: Sys, l: Label, x: u32): Option<PipeStep>
    requires EnabledIn(s, l)
  {
    if l.atA then AsSender(s.a, l.step, x) else AsReceiver(s.b, l.step, x)
  }

  lemma NextRefines(s: Sys, l: Label, x: u32)
    requires Good(s) && EnabledIn(s, l)
    ensures Moves(View(s, x), AsPipeStep(s, l, x), View(Next(s, l), x))
  {
    if l.atA {
      SenderRefines(s, l.step, x);
    } else {
      GoodBothWays(s);
      ReceiverRefines(Swap(s), l.step, x);
    }
  }

  lemma {:induction false} PipeLeadsOn(p: Pipe, steps: seq<PipeStep>, q: Pipe, m: PipeStep)
    requires PipeLeads(p, steps, q) && PipeEnabled(q, m)
    ensures PipeLeads(p, steps + [m], PipeApply(q, m))
    decreases |steps|
  {
    if steps == [] {
      assert steps + [m] == [m] && [m][1..] == [];
    } else {
      assert (steps + [m])[0] == steps[0] && (steps + [m])[1..] == steps[1..] + [m];
      PipeLeadsOn(PipeApply(p, steps[0]), steps[1..], q, m);
    }
  }

  /** Whatever the other streams do, every run of the session is for each stream a
      run of its own pipe, no longer than the session's. */
  lemma {:induction false} RunsRefinePipes(r: Run, i: nat, t: Sys, x: u32) returns (steps: seq<PipeStep>)
    requires IsRun(r) && IsStart(r.states[0]) && i <= |r.labels| && r.states[i] == t
    ensures PipeLeads(View(r.states[0], x), steps, View(t, x)) && |steps| <= i
    decreases i
  {
    if i == 0 {
      steps := [];
    } else {
      var s := r.states[i - 1];
      steps := RunsRefinePipes(r, i - 1, s, x);
      RunKeepsGood(r, i - 1, s);
      var m := FollowsRefines(r, i - 1, x, s, t);
      steps := Extend(View(r.states[0], x), steps, View(s, x), m, View(t, x));
    }
  }

  lemma Extend(p: Pipe, steps: seq<PipeStep>, q: Pipe, m: Option<PipeStep>, q': Pipe) returns (more: seq<PipeStep>)
    requires PipeLeads(p, steps, q) && Moves(q, m, q')
    ensures PipeLeads(p, more, q') && |more| <= |steps| + 1
  {
    more := steps;
    if m.Some? {
      PipeLeadsOn(p, steps, q, m.value);
      more := steps + [m.value];
    }
  }

  lemma FollowsRefines(r: Run, i: nat, x: u32, s: Sys, t: Sys) returns (m: Option<PipeStep>)
    requires i < |r.labels| && |r.states| == |r.labels| + 1 && Follows(r, i)
    requires r.states[i] == s && r.states[i + 1] == t && Good(s)
    ensures Moves(View(s, x), m, View(t, x))
  {
    NextRefines(s, r.labels[i], x);
    m := AsPipeStep(s, r.labels[i], x);
  }

  // ---- in the session's own terms ------------------------------------------------------------

  function DataCost(fs: seq<Frame>, x: u32): nat {
    if fs == [] then 0 else (if fs[0].Data? && fs[0].id == x then Cost(fs[0].bytes) else 0) + DataCost(fs[1..], x)
  }

  function DataBytes(fs: seq<Frame>, x: u32): Bytes {
    if fs == [] then [] else (if fs[0].Data? && fs[0].id == x then fs[0].bytes else []) + DataBytes(fs[1..], x)
  }

  lemma {:induction false} LineJoin(a: seq<Token>, b: seq<Token>)
    ensures LineCost(a + b) == LineCost(a) + LineCost(b) && LineBytes(a + b) == LineBytes(a) + LineBytes(b)
  {
    if a == [] {
      assert a + b == b;
    } else {
      assert (a + b)[1..] == a[1..] + b;
      LineJoin(a[1..], b);
    }
  }

  lemma {:induction false} TokensJoin(a: seq<Frame>, b: seq<Frame>, x: u32)
    ensures Tokens(a + b, x) == Tokens(a, x) + Tokens(b, x)
  {
    if a == [] {
      assert a + b == b;
    } else {
      assert (a + b)[1..] == a[1..] + b;
      TokensJoin(a[1..], b, x);
    }
  }

  lemma {:induction false} TokensMean(fs: seq<Frame>, x: u32)
    ensures LineCost(Tokens(fs, x)) == DataCost(fs, x) && LineBytes(Tokens(fs, x)) == DataBytes(fs, x)
  {
    if fs != [] {
      TokensMean(fs[1..], x);
      LineJoin(TokensOf(fs[0], x), Tokens(fs[1..], x));
      TokensOfMean(fs[0], x);
    }
  }

  lemma TokensOfMean(f: Frame, x: u32)
    ensures LineCost(TokensOf(f, x)) == if f.Data? && f.id == x then Cost(f.bytes) else 0
    ensures LineBytes(TokensOf(f, x)) == if f.Data? && f.id == x then f.bytes else []
  {
    var ts := TokensOf(f, x);
    if ts != [] {
      assert ts == [ts[0]] + [];
      LineHead(ts[0], []);
    }
  }

  lemma LineMeans(s: Sys, x: u32)
    ensures View(s, x).line == Tokens(OnTheWay(s), x)
    ensures LineCost(View(s, x).line) == DataCost(OnTheWay(s), x)
    ensures LineBytes(View(s, x).line) == DataBytes(OnTheWay(s), x)
  {
    var hand := InHand(s.b.reader);
    TokensJoin(hand + s.ab, s.a.queue, x);
    TokensJoin(hand, s.ab, x);
    if s.b.reader.Hand? { ShareHead(s.b.reader.frame, [], x); }
    assert Tokens(hand, x) == HandTokens(s.b.reader, x);
    TokensMean(OnTheWay(s), x);
  }

  /** What the reader holds of a stream it has taken from the channel: nothing yet
      counted, or counted too late for `abandon`, or refused and not yet owed. */
  function ReaderCost(e: End, x: u32): nat {
    StageCost(StageOf(e.reader, x))
  }

  /** The credit of stream `x` that waits at the receiver or travels back. */
  function Returning(s: Sys, x: u32): nat {
    ReaderCost(s.b, x) + (if x in s.b.sinks then SinkHolds(s.b.sinks[x]) else 0)
    + Owed(s.b.owed, x) + Owed(s.b.flushing, x)
    + Grants(s.b.queue, x) + Grants(s.ba, x) + HandGrants(s.a.reader, x)
  }

  /** Credit conservation. Until its pump drops it, a stream's credit is exactly
      nothing before the sender handles the peer's Hello and exactly the peer's
      window after: what may be spent, what is in the pump's hand, in frames, at the
      receiver, in grants and debts, and what the receiver has thrown away. Only a
      frame counted while its sink is being abandoned is granted twice (`excess`),
      never beyond one queue limit. */
  lemma CreditIsConserved(s: Sys, x: u32)
    requires Reachable(s) && x in s.a.outs && !s.a.outs[x].phase.Dropped?
    ensures var o := s.a.outs[x];
            var (lost, excess) := if x in s.b.sinks then (s.b.sinks[x].lost, s.b.sinks[x].excess) else (0, 0);
            && o.available + HandCost(o) + DataCost(OnTheWay(s), x) + Returning(s, x) + History(s.b.forgone, x) + lost
               == (if s.a.peerWindowed then s.b.window else 0) + excess
            && excess <= QueueLimit(s.b.window)
            && (x in s.b.sinks && (s.b.sinks[x].phase.Live? || s.b.sinks[x].phase.Ended?) ==> excess == 0 && lost == 0)
            && ((!o.early && excess == 0) || s.b.window <= MAX_EXACT_WINDOW ==> lost == 0)
  {
    PipeFacts(s, x);
    LineMeans(s, x);
    PipeCredit(View(s, x), s.a.outs[x]);
  }

  lemma PipeCredit(p: Pipe, o: Out)
    requires PipeGood(p) && Local(p) && p.out == Some(o) && !o.phase.Dropped?
    ensures var (lost, excess) := if p.sink.Some? then (p.sink.value.lost, p.sink.value.excess) else (0, 0);
            && o.available + HandCost(o) + LineCost(p.line) + StageCost(p.stage)
               + (if p.sink.Some? then SinkHolds(p.sink.value) else 0) + p.owed + p.back + p.forgone + lost
               == (if p.sw then p.window else 0) + excess
            && excess <= QueueLimit(p.window)
            && (p.sink.Some? && (p.sink.value.phase.Live? || p.sink.value.phase.Ended?) ==> excess == 0 && lost == 0)
            && ((!o.early && excess == 0) || p.window <= MAX_EXACT_WINDOW ==> lost == 0)
  {
  }

  /** The bytes of stream `x` the receiver has taken, written out or not yet. */
  function Arrived(e: End, x: u32): Bytes
    requires x in e.sinks ==> OffsetIn(e.sinks[x])
  {
    (if x in e.sinks then SinkBytes(e.sinks[x]) else []) + StageBytes(StageOf(e.reader, x))
  }

  /** The holder of the descriptor stays and nothing has been thrown away. */
  predicate Kept(e: End, x: u32) {
    x !in e.spilled && (x in e.sinks ==> e.sinks[x].phase.Live? || e.sinks[x].phase.Ended?)
  }

  lemma PipeFacts(s: Sys, x: u32)
    requires Reachable(s)
    ensures PipeGood(View(s, x)) && Local(View(s, x))
    ensures x in s.b.sinks ==> OffsetIn(s.b.sinks[x])
    ensures x in s.a.outs ==> s.a.outs[x].taken <= |s.a.outs[x].src|
  {
    ReachableIsGood(s);
    ViewIsLocal(s, x);
    assert PipeGood(View(s, x));
  }

  /** Independent FIFO pipes: what the receiver has, then what is on its way, then
      what the pump holds is, byte for byte and in order, what was read from the
      source, under any interleaving with other streams. */
  lemma StreamsArePipes(s: Sys, x: u32)
    requires Reachable(s) && x in s.a.outs && Kept(s.b, x)
    ensures (x in s.b.sinks ==> OffsetIn(s.b.sinks[x])) && s.a.outs[x].taken <= |s.a.outs[x].src|
    ensures Arrived(s.b, x) + DataBytes(OnTheWay(s), x) + s.a.outs[x].InHand() == s.a.outs[x].src[..s.a.outs[x].taken]
  {
    PipeFacts(s, x);
    LineMeans(s, x);
  }

  /** A pump that is about to stop at a close has written its source to the end. */
  lemma ClosesComeLast(s: Sys, x: u32)
    requires Reachable(s) && x in s.b.sinks && SinkCan(s.b.sinks[x], EndAtClose) && x !in s.b.spilled
    ensures x in s.a.outs && s.a.outs[x].eof && s.b.sinks[x].written == s.a.outs[x].src
  {
    PipeFacts(s, x);
    CloseIsAfterAll(View(s, x), s.b.sinks[x]);
  }

  lemma CloseIsAfterAll(p: Pipe, k: Sink)
    requires PipeInv(p) && Local(p) && p.sink == Some(k) && SinkCan(k, EndAtClose) && !p.spilled
    ensures p.out.Some? && p.out.value.eof && k.written == p.out.value.src
  {
    SilentMeans(p.line);
    assert k.inq == [Fin];
    assert QueueBytes(k.inq) == [];
    CloseMeansAllRead(p);
    FifoAtTheEnd(p, k, p.out.value);
  }

  lemma CloseMeansAllRead(p: Pipe)
    requires Closing(p) && p.sink.Some? && p.sink.value.closeSeen
    ensures Silent(p.line) && p.out.Some? && p.out.value.eof && p.out.value.taken == |p.out.value.src|
    ensures !p.out.value.phase.Holding?
  {
  }

  lemma FifoAtTheEnd(p: Pipe, k: Sink, o: Out)
    requires Fifo(p) && Whole(p) && p.sink == Some(k) && p.out == Some(o) && o.taken == |o.src| && o.InHand() == []
    requires StageBytes(p.stage) == [] && LineBytes(p.line) == [] && k.held.None? && QueueBytes(k.inq) == []
    ensures k.written == o.src
  {
    assert o.src[..|o.src|] == o.src;
    assert k.written + [] + [] + [] + [] + [] == k.written;
  }

  // ---- the barrier ---------------------------------------------------------------------------

  function AfterOf(r: Reader): map<nat, nat> {
    match r
    case Materializing(_, _, after) => after
    case Surfacing(item) => item.after
    case _ => map[]
  }

  /** A control frame follows the bytes its barrier waited for: when the peer acts
      on it, all of them have been handled, and unless it threw data away they are
      in its queue or written out. */
  lemma ControlFollowsData(s: Sys, x: u32, after: map<nat, nat>)
    requires Reachable(s) && AfterOf(s.b.reader) == after && x in after
    ensures x in s.b.sinks ==> OffsetIn(s.b.sinks[x])
    ensures if x in s.a.outs then after[x] + |DataBytes(OnTheWay(s), x)| <= s.a.outs[x].Framed() else after[x] == 0
    ensures Kept(s.b, x) ==> after[x] <= |Arrived(s.b, x)|
  {
    PipeFacts(s, x);
    LineMeans(s, x);
    assert ShownOf(s.b.reader, x) == after[x] && StageOf(s.b.reader, x).Nowhere?;
    if x in s.a.outs { MarkIsReached(View(s, x), s.a.outs[x]); }
  }

  lemma MarkIsReached(p: Pipe, o: Out)
    requires PipeInv(p) && p.out == Some(o) && p.stage.Nowhere? && Local(p)
    ensures p.shown + |LineBytes(p.line)| <= o.Framed()
    ensures Whole(p) ==> p.shown <= |Received(p)|
  {
  }

  // ---- descriptors --------------------------------------------------------------------------

  /** Data never arrives for a stream its receiver has not opened: not for one the
      other end allocated, and if descriptors are used in order for none at all. */
  lemma NothingArrivesUnannounced(s: Sys)
    requires Reachable(s)
    ensures forall x :: x in s.a.unrouted ==> Own(s.a.dialer, x) && !s.orderly
    ensures forall x :: x in s.b.unrouted ==> Own(s.b.dialer, x) && !s.orderly
    ensures s.orderly ==> s.a.unrouted == {} && s.b.unrouted == {}
  {
    ReachableIsGood(s);
    OnlyOwnUnrouted(s.a, s.b, s.orderly);
    OnlyOwnUnrouted(s.b, s.a, s.orderly);
  }

  lemma OnlyOwnUnrouted(e: End, other: End, orderly: bool)
    requires SideOk(e, other, orderly) && other.dialer == !e.dialer
    ensures forall x :: x in e.unrouted ==> Own(e.dialer, x) && !orderly
    ensures orderly ==> e.unrouted == {}
  {
  }

  /** A stream of the end's own whose pump it has not started yet. */
  predicate NotStarted(e: End, x: u32) {
    Own(e.dialer, x) && x / 2 >= Started(e)
  }

  /** Exactly when data is thrown away on arrival: it is for a stream that the
      receiver allocated and has not started, or its pump has gone. */
  lemma DataIsRefusedExactly(s: Sys, x: u32, bytes: Bytes)
    requires Reachable(s) && s.b.reader == Reader.Hand(Data(x, bytes))
    ensures x in s.b.sinks <==> !NotStarted(s.b, x)
    ensures HandleFrame(s.b, s.b.reader.frame).reader.Refused? <==>
              NotStarted(s.b, x) || (x in s.b.sinks && s.b.sinks[x].phase.Gone?)
  {
    ReachableIsGood(s);
    GoodBothWays(s);
    OpenExactlyWhenStarted(Swap(s), x, bytes);
    NoDataAfterClose(Swap(s));
    assert PlainFrame(Data(x, bytes));
    RefusedMeans(s.b, x, bytes);
  }

  lemma RefusedMeans(e: End, x: u32, bytes: Bytes)
    requires MapsOk(e) && Tidy(e) && SpilledOk(e) && e.reader == Reader.Hand(Data(x, bytes)) && |bytes| <= PUMP_BUF
    requires x in e.sinks ==> !e.sinks[x].closeSeen
    ensures HandleFrame(e, e.reader.frame).reader.Refused? <==> x !in e.sinks || e.sinks[x].phase.Gone?
  {
    IdsAnswer(e, x);
  }

  lemma OpenExactlyWhenStarted(s: Sys, x: u32, bytes: Bytes)
    requires Good(s) && s.a.reader == Reader.Hand(Data(x, bytes))
    ensures x in s.a.sinks <==> !NotStarted(s.a, x)
  {
    FrameIsNext(s, Data(x, bytes));
    if !NotStarted(s.a, x) {
      StartedIsKnown(s.a, s.b, Data(x, bytes), s.orderly);
      assert s.a.sinks[s.a.lastSink[x]].id == x;
    }
  }

  lemma StartedIsKnown(e: End, other: End, f: Frame, orderly: bool)
    requires SideOk(e, other, orderly) && other.dialer == !e.dialer && e.reader == Reader.Hand(f) && f.Data?
    requires FrameSays(e, other, f, orderly) && !NotStarted(e, f.id)
    ensures f.id in e.lastSink
  {
    var n := f.id / 2;
    if Own(other.dialer, f.id) {
      IdIs(other.dialer, n);
      assert f.id == IdOf(other.dialer, n);
    } else {
      IdIs(e.dialer, n);
      assert f.id == IdOf(e.dialer, n);
    }
  }

  /** So the only data ever thrown away is that of an abandoned sink: while the
      receiver's reader runs and the holder of the descriptor stays, the stream is a
      pipe from end to end. Only a stream of the receiver's own needs the session
      rule. */
  lemma StreamsAreDelivered(s: Sys, x: u32)
    requires Reachable(s) && (s.orderly || Own(s.a.dialer, x)) && !s.b.reader.Stopped? && x in s.a.outs
    requires x in s.b.sinks ==> !Abandoned(s.b.sinks[x])
    ensures Kept(s.b, x)
    ensures (x in s.b.sinks ==> OffsetIn(s.b.sinks[x])) && s.a.outs[x].taken <= |s.a.outs[x].src|
    ensures Arrived(s.b, x) + DataBytes(OnTheWay(s), x) + s.a.outs[x].InHand() == s.a.outs[x].src[..s.a.outs[x].taken]
  {
    ReachableIsGood(s);
    GoodBothWays(s);
    StreamsArePipes(s, x);
  }

  /** Barriers wait for the streams whose descriptors the mux made itself, which are
      those the other end delegated, and never for a caller's own. */
  lemma SocketsAreThePeers(s: Sys, x: u32)
    requires Reachable(s)
    ensures x in s.a.outs ==> (s.a.outs[x].socket <==> Own(s.b.dialer, x))
    ensures x in s.b.outs ==> (s.b.outs[x].socket <==> Own(s.a.dialer, x))
  {
    ReachableIsGood(s);
    SocketsAre(s.a, s.b, x);
    SocketsAre(s.b, s.a, x);
  }

  lemma SocketsAre(e: End, other: End, x: u32)
    requires OwnerOk(e) && PeerOk(e, other.dialer, other.planned) && other.dialer == !e.dialer
    ensures x in e.outs ==> (e.outs[x].socket <==> Own(other.dialer, x))
  {
    assert Own(e.dialer, x) || Own(other.dialer, x);
  }

  /** Naming streams by their ids excludes no run: the id of the next stream to open
      is always free, on both ends. */
  lemma NamesAreFree(s: Sys)
    requires Reachable(s)
    ensures NextNameIsFree(s) && NextNameIsFree(Swap(s))
  {
    ReachableIsGood(s);
    GoodBothWays(s);
    GoodNamesAreFree(s);
    GoodNamesAreFree(Swap(s));
  }

  predicate NextNameIsFree(s: Sys) {
    && (s.a.reader.Materializing? && s.a.reader.rest != [] ==>
          EnabledA(s, Reads(Materialize(s.a.reader.rest[0].id))))
    && (s.a.starting != [] ==> EnabledA(s, App(StartPump(s.a.starting[0].id))))
  }

  lemma MayOpen(s: Sys, h: Handle)
    requires s.a.reader.Materializing? && s.a.reader.rest != [] && h == s.a.reader.rest[0].id && Fresh(s.a, h)
    ensures EnabledA(s, Reads(Materialize(h)))
  {
  }

  lemma MayStart(s: Sys, h: Handle)
    requires s.a.starting != [] && h == s.a.starting[0].id && Fresh(s.a, h)
    ensures EnabledA(s, App(StartPump(h)))
  {
  }

  lemma GoodNamesAreFree(s: Sys)
    requires Good(s)
    ensures NextNameIsFree(s)
  {
    if s.a.reader.Materializing? && s.a.reader.rest != [] {
      NextOfferIsFree(s.a, s.b, s.orderly);
      MayOpen(s, s.a.reader.rest[0].id);
    }
    if s.a.starting != [] {
      NextStartIsFree(s.a, s.b, s.orderly);
      MayStart(s, s.a.starting[0].id);
    }
  }

  lemma NextOfferIsFree(e: End, other: End, orderly: bool)
    requires SideOk(e, other, orderly) && other.dialer == !e.dialer && e.reader.Materializing? && e.reader.rest != []
    ensures Fresh(e, e.reader.rest[0].id)
  {
    var m := Taken(e);
    PlanHead(other.dialer, m, other.planned[m..e.offered]);
    IdIs(other.dialer, m);
  }

  lemma NextStartIsFree(e: End, other: End, orderly: bool)
    requires SideOk(e, other, orderly) && e.starting != []
    ensures Fresh(e, e.starting[0].id)
  {
    var k := Started(e);
    PlanHead(e.dialer, k, e.planned[k..]);
    IdIs(e.dialer, k);
  }

  // ---- waiting ---------------------------------------------------------------------------------

  /** No head-of-line blocking: the reader never waits for room on behalf of a
      stream opened after the peer's Hello. It finds room at once, or the sink is
      being abandoned and its own pump opens the way with its next two steps. */
  lemma NoHeadOfLineBlocking(s: Sys, x: u32)
    requires Reachable(s) && s.b.reader.Room? && s.b.reader.h == x && x in s.a.outs && !s.a.outs[x].early
    ensures Enabled(s.b, Reads(Count)) || Enabled(s.b, Drain(x, AbandonLoad)) || Enabled(s.b, Drain(x, AbandonDrop))
    ensures x in s.b.sinks && s.b.sinks[x].phase.Live? ==> Enabled(s.b, Reads(Count))
  {
    PipeFacts(s, x);
    var k := s.b.sinks[x];
    if k.phase.Live? {
      LateFramesFindRoom(View(s, x), s.b.reader.bytes);
    }
  }

  /** Two conforming ends never end a session by their own checks: whatever frames
      they exchange, a reader stops only because the transport goes away, because
      its end already runs MAX_LIVE_STREAMS, or because the system has no
      descriptor to give. */
  lemma NoEndStopsTheOther(s: Sys)
    requires Reachable(s)
    ensures StoppedFairly(s.a) && StoppedFairly(s.b)
    ensures s.a.reader.Hand? ==> var e' := HandleFrame(s.a, s.a.reader.frame);
              e'.reader.Stopped? ==>
                s.a.reader.frame.Fds? && s.a.live + |s.a.reader.frame.payload| / 5 > MAX_LIVE_STREAMS
  {
    ReachableIsGood(s);
    if s.a.reader.Hand? {
      HandIsFair(s);
      OnlyFdsStop(s.a, s.a.reader.frame);
    }
  }

  lemma OnlyFdsStop(e: End, f: Frame)
    requires e.reader == Reader.Hand(f)
    requires f.Data? ==> Cost(f.bytes) <= QueueLimit(e.window)
    requires f.Hello? ==> !HelloVerdict(e.peerWindowed, f.payload).Refuse?
    ensures HandleFrame(e, f).reader.Stopped? ==> f.Fds? && e.live + |f.payload| / 5 > MAX_LIVE_STREAMS
  {
    match f
    case Hello(_) | Control(_, _, _) | Fds(_, _) | Data(_, _) | Close(_) | Window(_, _) | Unknown =>
  }
}
