/** What is under way comes to rest. A measure on a whole session falls with every
    step that the two programs take of themselves, whatever the schedule; what it
    leaves out is the world around them. */
module Settling {
  import opened ByteStrings
  import opened Proto
  import opened Credit
  import opened Wire
  import opened Endpoint
  import opened EndpointLaws
  import opened Session

  /** Every step but those of the world outside: a holder that writes into its
      descriptor or closes it, a pump woken for nothing, an owner that asks for
      something new or gives the transport up, a system that has no descriptor to
      give or a channel that goes away. */
  predicate Moving(s: Step) {
    match s
    case Writer(_) => true
    case Reads(r) => !r.MaterializeFails? && !r.Shutdown?
    case App(a) => !a.BeginSend? && !a.CloseFlow?
    case Pump(_, p) => !p.Offer? && !p.OfferEof? && !p.Retry?
    case Drain(_, k) => !k.AbandonClose?
  }

  // ---- totals over a map -----------------------------------------------------------------

  ghost function Total(m: map<nat, nat>): nat
    decreases |m|
  {
    if m == map[] then 0
    else
      var k :| k in m;
      m[k] + Total(m - {k})
  }

  lemma {:induction false} TotalAt(m: map<nat, nat>, k: nat)
    requires k in m
    ensures Total(m) == m[k] + Total(m - {k})
    decreases |m|
  {
    var g :| g in m && Total(m) == m[g] + Total(m - {g});
    if g != k {
      TotalAt(m - {g}, k);
      TotalAt(m - {k}, g);
      assert m - {g} - {k} == m - {k} - {g};
    }
  }

  lemma TotalUpdate(m: map<nat, nat>, k: nat, v: nat)
    ensures Total(m[k := v]) == Total(m) + v - if k in m then m[k] else 0
  {
    TotalAt(m[k := v], k);
    if k in m {
      TotalAt(m, k);
      assert m[k := v] - {k} == m - {k};
    } else {
      assert m[k := v] - {k} == m;
    }
  }

  // ---- the load ----------------------------------------------------------------------------

  /** What a frame in the reader's hand can still cause. */
  function FrameLoad(f: Frame): nat {
    match f
    case Data(_, bytes) => |bytes| + 10
    case Fds(payload, _) => 9 * |DecodeFds(payload)| + 4
    case Control(_, _, _) => 3
    case Close(_) => 2
    case _ => 1
  }

  /** Frames further away, `extra` steps from the hand. */
  function RowLoad(fs: seq<Frame>, extra: nat): nat {
    if fs == [] then 0 else FrameLoad(fs[0]) + extra + RowLoad(fs[1..], extra)
  }

  lemma {:induction false} RowAppend(fs: seq<Frame>, f: Frame, extra: nat)
    ensures RowLoad(fs + [f], extra) == RowLoad(fs, extra) + FrameLoad(f) + extra
  {
    if fs == [] {
      assert fs + [f] == [f];
    } else {
      assert (fs + [f])[1..] == fs[1..] + [f];
      RowAppend(fs[1..], f, extra);
    }
  }

  lemma RowHead(f: Frame, rest: seq<Frame>, extra: nat)
    ensures RowLoad([f] + rest, extra) == FrameLoad(f) + extra + RowLoad(rest, extra)
  {
    assert ([f] + rest)[1..] == rest;
  }

  function ReaderLoad(r: Reader): nat {
    match r
    case Hand(f) => FrameLoad(f)
    case Room(_, _, bytes) => |bytes| + 9
    case Counted(_, _, bytes, _) => |bytes| + 8
    case Refused(_, _) => 5
    case Materializing(rest, _, _) => 9 * |rest| + 3
    case Surfacing(_) => 2
    case _ => 0
  }

  function QueueLoad(q: seq<StreamMsg>): nat {
    if q == [] then 0 else (if q[0].Payload? then |q[0].bytes| + 7 else 1) + QueueLoad(q[1..])
  }

  lemma {:induction false} QueueLoadAppend(q: seq<StreamMsg>, m: StreamMsg)
    ensures QueueLoad(q + [m]) == QueueLoad(q) + if m.Payload? then |m.bytes| + 7 else 1
  {
    if q == [] {
      assert q + [m] == [m];
    } else {
      assert (q + [m])[1..] == q[1..] + [m];
      QueueLoadAppend(q[1..], m);
    }
  }

  function HeldLoad(k: Sink): nat {
    if k.held.Some? then (if k.off <= |k.held.value| then |k.held.value| - k.off else 0) + 6 else 0
  }

  function SinkLoad(k: Sink): nat {
    QueueLoad(k.inq) + HeldLoad(k) + (if k.pending.Some? then 5 else 0)
    + if k.phase.Live? then 1 else if k.phase.QueueDropped? then 7 else if k.phase.Loaded? then 6 else 0
  }

  /** Every byte that waits in a source has a frame of its own to go through, at the
      worst. */
  function OutLoad(o: Out): nat {
    20 * (if o.taken <= |o.src| then |o.src| - o.taken else 0)
    + match o.phase
      case Waiting => 7
      case Ready => 6
      case Holding(bytes) => |bytes| + 21
      case Counting(_) => 8
      case Ending => 1
      case Dropped => 0
  }

  function TaskLoad(t: Task): nat {
    2 * |t.todo| + (if t.target.None? then 1 else 0)
    + match t.what
      case Plain(_) => 6
      case Delegate(dirs) => 18 * |dirs| + 7
  }

  function TaskLoads(tasks: map<nat, Task>): (loads: map<nat, nat>)
    ensures loads.Keys == tasks.Keys && forall t :: t in tasks ==> loads[t] == TaskLoad(tasks[t])
  {
    map t | t in tasks :: TaskLoad(tasks[t])
  }

  function SinkLoads(sinks: map<Handle, Sink>): (loads: map<nat, nat>)
    ensures loads.Keys == sinks.Keys && forall h :: h in sinks ==> loads[h] == SinkLoad(sinks[h])
  {
    map h | h in sinks :: SinkLoad(sinks[h])
  }

  function OutLoads(outs: map<Handle, Out>): (loads: map<nat, nat>)
    ensures loads.Keys == outs.Keys && forall h :: h in outs ==> loads[h] == OutLoad(outs[h])
  {
    map h | h in outs :: OutLoad(outs[h])
  }

  ghost function EndLoad(e: End): nat {
    (if e.helloSent then 0 else 3) + 3 * |e.flushing| + 4 * |e.owed| + RowLoad(e.queue, 2) + ReaderLoad(e.reader)
    + |e.ctrl| + Total(SinkLoads(e.sinks)) + Total(OutLoads(e.outs)) + 9 * |e.starting| + Total(TaskLoads(e.tasks))
  }

  ghost function Load(s: Sys): nat {
    EndLoad(s.a) + EndLoad(s.b) + RowLoad(s.ab, 1) + RowLoad(s.ba, 1)
  }

  lemma SinksLoadUpdate(sinks: map<Handle, Sink>, h: Handle, k: Sink)
    ensures Total(SinkLoads(sinks[h := k])) ==
      Total(SinkLoads(sinks)) + SinkLoad(k) - if h in sinks then SinkLoad(sinks[h]) else 0
  {
    assert SinkLoads(sinks[h := k]) == SinkLoads(sinks)[h := SinkLoad(k)];
    TotalUpdate(SinkLoads(sinks), h, SinkLoad(k));
  }

  lemma OutsLoadUpdate(outs: map<Handle, Out>, h: Handle, o: Out)
    ensures Total(OutLoads(outs[h := o])) ==
      Total(OutLoads(outs)) + OutLoad(o) - if h in outs then OutLoad(outs[h]) else 0
  {
    assert OutLoads(outs[h := o]) == OutLoads(outs)[h := OutLoad(o)];
    TotalUpdate(OutLoads(outs), h, OutLoad(o));
  }

  lemma OutsLoadSame(outs: map<Handle, Out>, outs': map<Handle, Out>)
    requires outs'.Keys == outs.Keys
    requires forall h :: h in outs ==> outs'[h] == outs[h].(available := outs'[h].available)
    ensures Total(OutLoads(outs')) == Total(OutLoads(outs))
  {
    assert OutLoads(outs') == OutLoads(outs);
  }

  lemma TaskLoadUpdate(tasks: map<nat, Task>, task: nat, t: Task)
    requires task in tasks
    ensures Total(TaskLoads(tasks[task := t])) == Total(TaskLoads(tasks)) + TaskLoad(t) - TaskLoad(tasks[task])
  {
    assert TaskLoads(tasks[task := t]) == TaskLoads(tasks)[task := TaskLoad(t)];
    TotalUpdate(TaskLoads(tasks), task, TaskLoad(t));
  }

  lemma TaskLoadRemove(tasks: map<nat, Task>, task: nat)
    requires task in tasks
    ensures Total(TaskLoads(tasks - {task})) == Total(TaskLoads(tasks)) - TaskLoad(tasks[task])
  {
    assert TaskLoads(tasks - {task}) == TaskLoads(tasks) - {task};
    TotalAt(TaskLoads(tasks), task);
  }

  // ---- every moving step lowers it -------------------------------------------------------------

  /** What a step costs its own end, with the frames it writes. */
  ghost predicate Lowers(e: End, e': End, emits: seq<Frame>) {
    EndLoad(e') + RowLoad(emits, 1) < EndLoad(e)
  }

  lemma WriterLowers(e: End, w: WriterStep)
    requires WriterEnabled(e, w)
    ensures Lowers(e, ApplyWriter(e, w), Emits(e, Writer(w)))
  {
    match w
    case SayHello => assert [Hello(HelloPayload(e.window))][1..] == [];
    case TakeOwed => assert |e.owed| > 0;
    case GrantOwed(id) =>
      assert (e.flushing - {id}).Keys == e.flushing.Keys - {id};
      assert |e.flushing - {id}| == |e.flushing| - 1;
      assert [Window(id, e.flushing[id])][1..] == [];
    case WriteQueued =>
      RowHead(e.queue[0], e.queue[1..], 2);
      assert e.queue == [e.queue[0]] + e.queue[1..];
      assert [e.queue[0]][1..] == [];
  }

  lemma LoadWithSink(e: End, e': End, h: Handle, k: Sink)
    requires h in e.sinks && e'.sinks == e.sinks[h := k] && e'.outs == e.outs
    requires e'.helloSent == e.helloSent && e'.flushing == e.flushing && e'.owed == e.owed && e'.ctrl == e.ctrl
    requires e'.starting == e.starting && e'.tasks == e.tasks
    ensures EndLoad(e') - RowLoad(e'.queue, 2) - ReaderLoad(e'.reader) - SinkLoad(k)
         == EndLoad(e) - RowLoad(e.queue, 2) - ReaderLoad(e.reader) - SinkLoad(e.sinks[h])
  {
    SinksLoadUpdate(e.sinks, h, k);
  }

  lemma DataLowers(e: End, id: u32, bytes: Bytes)
    requires e.reader == Reader.Hand(Data(id, bytes))
    ensures EndLoad(HandleData(e, id, bytes)) < EndLoad(e)
  {
  }

  lemma CloseLowers(e: End, id: u32)
    requires e.reader == Reader.Hand(Close(id))
    ensures EndLoad(HandleClose(e, id)) < EndLoad(e)
  {
    var target := SinkFor(e, id);
    if target.Some? {
      var k := e.sinks[target.value];
      QueueLoadAppend(k.inq, Fin);
      assert SinkLoad(CloseSink(k)) <= SinkLoad(k) + 1;
      LoadWithSink(e, HandleClose(e, id), target.value, CloseSink(k));
    }
  }

  lemma HelloLowers(e: End, payload: Bytes, verdict: Verdict)
    requires e.reader == Reader.Hand(Hello(payload))
    ensures EndLoad(HandleHello(e, verdict)) < EndLoad(e)
  {
    OutsLoadSame(e.outs, HandleHello(e, verdict).outs);
  }

  lemma WindowLowers(e: End, id: u32, amount: u32)
    requires e.reader == Reader.Hand(Window(id, amount))
    ensures EndLoad(HandleWindow(e, id, amount)) < EndLoad(e)
  {
    OutsLoadSame(e.outs, HandleWindow(e, id, amount).outs);
  }

  lemma {:induction false} FrameLowers(e: End, f: Frame)
    requires e.reader == Reader.Hand(f)
    ensures EndLoad(HandleFrame(e, f)) < EndLoad(e)
  {
    match f
    case Data(id, bytes) => DataLowers(e, id, bytes);
    case Close(id) => CloseLowers(e, id);
    case Hello(payload) => HelloLowers(e, payload, HelloVerdict(e.peerWindowed, payload));
    case Window(id, amount) => WindowLowers(e, id, amount);
    case Control(_, _, _) | Fds(_, _) | Unknown =>
  }

  lemma CountLowers(e: End, h: Handle, id: u32, bytes: Bytes)
    requires e.reader == Room(h, id, bytes) && ReaderEnabled(e, Count)
    ensures EndLoad(DoCount(e)) < EndLoad(e)
  {
    LoadWithSink(e, DoCount(e), h, CountSink(e.sinks[h], bytes));
  }

  lemma DeliverLoad(k: Sink, bytes: Bytes, early: bool)
    ensures SinkLoad(DeliverSink(k, bytes, early)) == SinkLoad(k) + if k.phase.Live? then |bytes| + 7 else 0
  {
    QueueLoadAppend(k.inq, Payload(bytes));
  }

  lemma DeliverLowers(e: End, h: Handle, id: u32, bytes: Bytes, early: bool)
    requires e.reader == Counted(h, id, bytes, early) && ReaderEnabled(e, Deliver)
    ensures EndLoad(DoDeliver(e)) < EndLoad(e)
  {
    var k := e.sinks[h];
    DeliverLoad(k, bytes, early);
    LoadWithSink(e, DoDeliver(e), h, DeliverSink(k, bytes, early));
  }

  lemma OweLowers(e: End, id: u32, bytes: Bytes)
    requires e.reader == Refused(id, bytes)
    ensures EndLoad(DoOwe(e)) < EndLoad(e)
  {
    var e' := DoOwe(e);
    assert e'.owed.Keys <= e.owed.Keys + {id};
    assert |e'.owed.Keys| <= |e.owed.Keys + {id}| by { SubsetSize(e'.owed.Keys, e.owed.Keys + {id}); }
  }

  lemma {:induction false} SubsetSize(a: set<u32>, b: set<u32>)
    requires a <= b
    ensures |a| <= |b|
  {
    if a != {} {
      var x :| x in a;
      SubsetSize(a - {x}, b - {x});
    }
  }

  lemma OpenLowers(e: End, h: Handle, spec: Spec, rest: seq<Spec>, done: seq<u32>, after: map<nat, nat>)
    requires e.reader == Materializing([spec] + rest, done, after) && Fresh(e, h)
    ensures EndLoad(DoMaterialize(e, h)) < EndLoad(e)
  {
    NewStreamsWeighLittle(e, DoMaterialize(e, h), h, NewSink(spec.id), NewOut(e, spec.id, true));
  }

  lemma NewStreamsWeighLittle(e: End, e': End, h: Handle, k: Sink, o: Out)
    requires Fresh(e, h) && SinkLoad(k) == 1 && OutLoad(o) == 7
    requires e'.sinks == e.sinks || e'.sinks == e.sinks[h := k]
    requires e'.outs == e.outs || e'.outs == e.outs[h := o]
    ensures Total(SinkLoads(e'.sinks)) + Total(OutLoads(e'.outs))
         <= Total(SinkLoads(e.sinks)) + Total(OutLoads(e.outs)) + 8
  {
    SinksLoadUpdate(e.sinks, h, k);
    OutsLoadUpdate(e.outs, h, o);
  }

  lemma ReaderLowers(e: End, r: ReaderStep)
    requires ReaderEnabled(e, r) && Moving(Reads(r)) && !r.Receive?
    ensures EndLoad(ApplyReader(e, r)) < EndLoad(e)
  {
    match r
    case Inspect => FrameLowers(e, e.reader.frame);
    case Count => CountLowers(e, e.reader.h, e.reader.id, e.reader.bytes);
    case Deliver => DeliverLowers(e, e.reader.h, e.reader.id, e.reader.bytes, e.reader.early);
    case Owe => OweLowers(e, e.reader.id, e.reader.bytes);
    case Materialize(h) =>
      var m := e.reader;
      assert m.rest == [m.rest[0]] + m.rest[1..];
      OpenLowers(e, h, m.rest[0], m.rest[1..], m.done, m.after);
    case FinishFds | Surface =>
  }

  lemma SinkStepLowers(k: Sink, s: SinkStep, window: u32, peerWindowed: bool)
    requires SinkCan(k, s) && !s.AbandonClose?
    ensures SinkLoad(SinkNext(k, window, peerWindowed, s)) + (if s.QueueGrant? then 3 else 0) < SinkLoad(k)
  {
    match s
    case Take | Write(_) | Consumed(_) | QueueGrant | EndAtClose | EndUnrouted | AbandonLoad | AbandonDrop =>
  }

  lemma SinkLowers(e: End, h: Handle, k: Sink, s: SinkStep)
    requires h in e.sinks && e.sinks[h] == k && SinkEnabled(e, h, k, s) && Moving(Drain(h, s))
    ensures EndLoad(ApplySink(e, h, s)) < EndLoad(e)
  {
    SinkStepLowers(k, s, e.window, e.peerWindowed);
    LoadWithSink(e, ApplySink(e, h, s), h, SinkNext(k, e.window, e.peerWindowed, s));
    assert ApplySink(e, h, s).queue == e.queue + SinkFrames(k, s);
    if s.QueueGrant? {
      RowAppend(e.queue, Window(k.id, k.pending.value), 2);
    } else {
      assert e.queue + [] == e.queue;
    }
  }

  /** What a pump's step costs its stream, with the frame it queues. */
  lemma PumpStepLowers(o: Out, p: PumpStep)
    requires PumpCan(o, p) && !p.Offer? && !p.OfferEof? && !p.Retry?
    ensures OutLoad(PumpNext(o, p)) + (if p.Queue? then |o.phase.bytes| + 12 else if p.QueueClose? then 4 else 0)
         < OutLoad(o)
  {
    match p
    case Admit | Read(_) | Queue | Tally | QueueClose | Quit | Drop =>
  }

  lemma PumpLowers(e: End, h: Handle, o: Out, p: PumpStep)
    requires h in e.outs && e.outs[h] == o && PumpEnabled(e, o, p) && Moving(Pump(h, p))
    ensures EndLoad(ApplyPump(e, h, p)) < EndLoad(e)
  {
    PumpStepLowers(o, p);
    OutsLoadUpdate(e.outs, h, PumpNext(o, p));
    PumpQueueLoad(e.queue, o, p);
    assert ApplyPump(e, h, p).queue == e.queue + PumpFrames(o, p);
  }

  lemma PumpQueueLoad(queue: seq<Frame>, o: Out, p: PumpStep)
    requires PumpCan(o, p)
    ensures RowLoad(queue + PumpFrames(o, p), 2)
         == RowLoad(queue, 2) + if p.Queue? then |o.phase.bytes| + 12 else if p.QueueClose? then 4 else 0
  {
    if p.Queue? {
      RowAppend(queue, Data(o.id, o.phase.bytes), 2);
    } else if p.QueueClose? {
      RowAppend(queue, Close(o.id), 2);
    } else {
      assert queue + [] == queue;
    }
  }

  // ---- the owner's and the senders' ---------------------------------------------------------------

  lemma TaskStepLowers(e: End, task: nat, t: Task)
    requires task in e.tasks && TaskLoad(t) < TaskLoad(e.tasks[task])
    ensures EndLoad(SetTask(e, task, t)) < EndLoad(e)
  {
    TaskLoadUpdate(e.tasks, task, t);
  }

  lemma QueueingLowers(e: End, task: nat, t: Task, f: Frame)
    requires AppEnabled(e, QueueMessage(task)) && e.tasks[task] == t && f == TaskFrame(e, task)
    ensures EndLoad(DoQueueMessage(e, task)) < EndLoad(e)
  {
    TaskLoadRemove(e.tasks, task);
    RowAppend(e.queue, f, 2);
    MessageLoad(e, task, t);
  }

  lemma MessageLoad(e: End, task: nat, t: Task)
    requires task in e.tasks && e.tasks[task] == t
    ensures FrameLoad(TaskFrame(e, task)) + 2 + (if t.what.Delegate? then 9 * |t.what.dirs| else 0) < TaskLoad(t)
  {
    if t.what.Delegate? { FdsRoundTrip(Plan(e.dialer, |e.planned|, t.what.dirs)); }
  }

  lemma StartLowers(e: End, h: Handle, spec: Spec)
    requires AppEnabled(e, StartPump(h)) && e.starting[0] == spec
    ensures EndLoad(DoStartPump(e, h)) < EndLoad(e)
  {
    NewStreamsWeighLittle(e, DoStartPump(e, h), h, NewSink(spec.id), NewOut(e, spec.id, false));
  }

  lemma AppLowers(e: End, a: AppStep)
    requires AppEnabled(e, a) && Moving(App(a))
    ensures EndLoad(ApplyApp(e, a)) < EndLoad(e)
  {
    match a
    case AppReceive =>
    case Aim(task) => TaskStepLowers(e, task, ApplyApp(e, a).tasks[task]);
    case Pass(task) => TaskStepLowers(e, task, ApplyApp(e, a).tasks[task]);
    case QueueMessage(task) => QueueingLowers(e, task, e.tasks[task], TaskFrame(e, task));
    case StartPump(h) => StartLowers(e, h, e.starting[0]);
  }

  lemma StepLowers(e: End, s: Step)
    requires Enabled(e, s) && Moving(s) && !Receives(s)
    ensures Lowers(e, Apply(e, s), Emits(e, s))
  {
    match s
    case Writer(w) => WriterLowers(e, w);
    case Reads(r) => ReaderLowers(e, r);
    case App(a) => AppLowers(e, a);
    case Pump(h, p) => PumpLowers(e, h, e.outs[h], p);
    case Drain(h, k) => SinkLowers(e, h, e.sinks[h], k);
  }

  lemma {:induction false} RowJoin(a: seq<Frame>, b: seq<Frame>, extra: nat)
    ensures RowLoad(a + b, extra) == RowLoad(a, extra) + RowLoad(b, extra)
  {
    if a == [] {
      assert a + b == b;
    } else {
      assert (a + b)[1..] == a[1..] + b;
      RowJoin(a[1..], b, extra);
    }
  }

  lemma StepAtALowers(s: Sys, step: Step)
    requires EnabledA(s, step) && Moving(step)
    ensures Load(StepA(s, step)) < Load(s)
  {
    RowJoin(s.ab, Emits(s.a, step), 1);
    if Receives(step) {
      assert s.ba == [step.r.frame] + s.ba[1..];
      RowHead(step.r.frame, s.ba[1..], 1);
    } else {
      StepLowers(s.a, step);
    }
  }

  /** Every moving step of either end lowers the load. */
  lemma MovingLowersTheLoad(s: Sys, l: Label)
    requires EnabledIn(s, l) && Moving(l.step)
    ensures Load(Next(s, l)) < Load(s)
  {
    StepAtALowers(if l.atA then s else Swap(s), l.step);
  }

  /** However the tasks are scheduled, what is under way comes to rest within as
      many steps as the load says, unless something new is asked for. */
  lemma {:induction false} MovementEnds(r: Run, i: nat, t: Sys)
    requires IsRun(r) && i <= |r.labels| && r.states[i] == t
    requires forall k :: 0 <= k < i ==> Moving(r.labels[k].step)
    ensures i + Load(t) <= Load(r.states[0])
    decreases i
  {
    if i > 0 {
      var s := r.states[i - 1];
      MovementEnds(r, i - 1, s);
      FollowsLowers(r, i - 1, s, t);
    }
  }

  lemma FollowsLowers(r: Run, i: nat, s: Sys, t: Sys)
    requires i < |r.labels| && |r.states| == |r.labels| + 1 && Follows(r, i) && Moving(r.labels[i].step)
    requires r.states[i] == s && r.states[i + 1] == t
    ensures Load(t) < Load(s)
  {
    MovingLowersTheLoad(s, r.labels[i]);
  }
}
