/** Every step of a session keeps it sound: the Hello comes first and once, the
    frames are ones the other end takes, and streams go by their ids. */
module SessionLaws {
  import opened ByteStrings
  import opened Proto
  import opened Credit
  import opened Wire
  import opened Endpoint
  import opened EndpointLaws
  import opened Session

  // ---- the sender's end of a channel -------------------------------------------------

  lemma GreetedByQueueing(a: End, b: End, ab: seq<Frame>, a': End)
    requires Greeted(a, b, ab) && AllPlain(a'.queue) && a'.helloSent == a.helloSent && a'.window == a.window
    ensures Greeted(a', b, ab)
  {
  }

  lemma GreetedByWriting(a: End, b: End, ab: seq<Frame>, f: Frame, a': End)
    requires Greeted(a, b, ab) && a.helloSent && PlainFrame(f)
    requires AllPlain(a'.queue) && a'.helloSent && a'.window == a.window
    ensures Greeted(a', b, ab + [f])
  {
    AllPlainAppend(ab, f);
    if ab != [] {
      assert (ab + [f])[0] == ab[0] && (ab + [f])[1..] == ab[1..] + [f];
      AllPlainAppend(ab[1..], f);
    } else {
      assert ([] + [f])[1..] == [];
    }
  }

  lemma GreetedByHello(a: End, b: End)
    requires Greeted(a, b, []) && !a.helloSent
    ensures Greeted(a.(helloSent := true), b, [] + [Greeting(a)])
  {
    assert ([] + [Greeting(a)])[1..] == [];
  }

  lemma GreetedByWriter(a: End, b: End, ab: seq<Frame>, w: WriterStep)
    requires Greeted(a, b, ab) && WriterEnabled(a, w)
    ensures Greeted(ApplyWriter(a, w), b, ab + Emits(a, Writer(w)))
  {
    match w
    case SayHello => GreetedByHello(a, b);
    case TakeOwed => assert ab + [] == ab; GreetedByQueueing(a, b, ab, ApplyWriter(a, w));
    case GrantOwed(id) => GreetedByWriting(a, b, ab, Window(id, a.flushing[id]), ApplyWriter(a, w));
    case WriteQueued =>
      assert a.queue == [a.queue[0]] + a.queue[1..];
      AllPlainHead(a.queue[0], a.queue[1..]);
      GreetedByWriting(a, b, ab, a.queue[0], ApplyWriter(a, w));
  }

  /** What the reader never touches. */
  predicate ReaderLeaves(e: End, e': End) {
    && e'.queue == e.queue && e'.helloSent == e.helloSent && e'.flushing == e.flushing && e'.window == e.window
    && e'.starting == e.starting && e'.tasks == e.tasks && e'.planned == e.planned && e'.dialer == e.dialer
    && e'.announced == e.announced && e'.usable == e.usable
  }

  lemma FrameLeaves(e: End, f: Frame)
    ensures ReaderLeaves(e, HandleFrame(e, f))
  {
    match f
    case Control(_, _, _) | Fds(_, _) | Data(_, _) | Close(_) | Hello(_) | Window(_, _) | Unknown =>
  }

  lemma ReaderStepLeaves(e: End, r: ReaderStep)
    requires ReaderEnabled(e, r)
    ensures ReaderLeaves(e, ApplyReader(e, r))
  {
    match r
    case Inspect => FrameLeaves(e, e.reader.frame);
    case Receive(_) | Count | Deliver | Owe | Materialize(_) | MaterializeFails | FinishFds | Surface | Shutdown =>
  }

  lemma QueuesPlainFrames(a: End, step: Step)
    requires EndOk(a) && Tidy(a) && AllPlain(a.queue) && Enabled(a, step) && !step.Writer?
    ensures AllPlain(Apply(a, step).queue)
  {
    match step
    case Pump(h, p) => PumpQueuesPlain(a, h, a.outs[h], p);
    case Drain(h, k) => SinkQueuesPlain(a, h, a.sinks[h], k);
    case App(m) => AppQueuesPlain(a, m);
    case Reads(r) => ReaderStepLeaves(a, r);
  }

  lemma AppQueuesPlain(a: End, m: AppStep)
    requires Tidy(a) && AllPlain(a.queue) && AppEnabled(a, m)
    ensures AllPlain(ApplyApp(a, m).queue)
  {
    match m
    case QueueMessage(task) => TaskQueuesPlain(a, task, a.tasks[task].what);
    case AppReceive | BeginSend(_, _, _) | Aim(_) | Pass(_) | StartPump(_) | CloseFlow =>
  }

  lemma PumpQueuesPlain(a: End, h: Handle, o: Out, p: PumpStep)
    requires AllPlain(a.queue) && h in a.outs && a.outs[h] == o && PumpEnabled(a, o, p)
    requires OutOk(o, a.closed, a.peerWindowed)
    ensures AllPlain(ApplyPump(a, h, p).queue)
  {
    if p.Queue? {
      AllPlainAppend(a.queue, Data(o.id, o.phase.bytes));
    } else if p.QueueClose? {
      AllPlainAppend(a.queue, Close(o.id));
    } else {
      assert a.queue + [] == a.queue;
    }
  }

  lemma SinkQueuesPlain(a: End, h: Handle, k: Sink, s: SinkStep)
    requires AllPlain(a.queue) && h in a.sinks && a.sinks[h] == k && SinkEnabled(a, h, k, s)
    ensures AllPlain(ApplySink(a, h, s).queue)
  {
    if s.QueueGrant? {
      AllPlainAppend(a.queue, Window(k.id, k.pending.value));
    } else {
      assert a.queue + [] == a.queue;
    }
  }

  lemma TaskQueuesPlain(a: End, task: nat, what: Outgoing)
    requires AllPlain(a.queue) && AppEnabled(a, QueueMessage(task)) && a.tasks[task].what == what && Askable(what)
    ensures AllPlain(ApplyApp(a, QueueMessage(task)).queue)
  {
    if what.Delegate? { FdsRoundTrip(Plan(a.dialer, |a.planned|, what.dirs)); }
    AllPlainAppend(a.queue, TaskFrame(a, task));
  }

  // ---- the receiver's end ------------------------------------------------------------

  lemma GreetedByReceive(a: End, b: End, f: Frame, rest: seq<Frame>)
    requires Greeted(a, b, [f] + rest) && b.reader.Idle?
    ensures Greeted(a, b.(reader := Hand(f)), rest)
  {
    AllPlainHead(f, rest);
    assert ([f] + rest)[0] == f && ([f] + rest)[1..] == rest;
  }

  lemma GreetedByTakingHello(a: End, b: End, ab: seq<Frame>)
    requires Greeted(a, b, ab) && b.reader.Hand? && !b.peerWindowed && ValidWindow(a.window)
    ensures Greeted(a, HandleFrame(b, b.reader.frame), ab) && !HandleFrame(b, b.reader.frame).reader.Stopped?
  {
    var p := HelloPayload(a.window);
    HelloIsTaken(a.window, []);
    assert p + [] == p;
    assert HandleFrame(b, Hello(p)) == HandleHello(b, Verdict.Take(a.window));
  }

  lemma GreetedByFrame(a: End, b: End, ab: seq<Frame>, f: Frame)
    requires Greeted(a, b, ab) && b.reader == Hand(f) && b.peerWindowed
    ensures Greeted(a, HandleFrame(b, f), ab)
    ensures HandleFrame(b, f).reader.Stopped? ==> HandleFrame(b, f).reader.why.TooManyStreams?
  {
    match f
    case Fds(payload, after) =>
    case Data(id, bytes) =>
    case Close(id) =>
    case Window(id, amount) =>
    case Control(_, _, _) =>
    case _ =>
  }

  lemma GreetedByReader(a: End, b: End, ab: seq<Frame>, r: ReaderStep)
    requires Greeted(a, b, ab) && ReaderEnabled(b, r) && !r.Receive? && ValidWindow(a.window) && StoppedFairly(b)
    ensures Greeted(a, ApplyReader(b, r), ab) && StoppedFairly(ApplyReader(b, r))
  {
    match r
    case Inspect =>
      if b.peerWindowed { GreetedByFrame(a, b, ab, b.reader.frame); } else { GreetedByTakingHello(a, b, ab); }
    case Count | Deliver | Owe | Materialize(_) | MaterializeFails | FinishFds | Surface | Shutdown =>
  }

  lemma GreetedBySame(a: End, b: End, ab: seq<Frame>, b': End)
    requires Greeted(a, b, ab) && b'.reader == b.reader && b'.peerWindowed == b.peerWindowed
      && b'.peerWindow == b.peerWindow
    ensures Greeted(a, b', ab) && (StoppedFairly(b) ==> StoppedFairly(b'))
  {
  }

  // ---- the names ---------------------------------------------------------------------

  lemma TidyByReader(e: End, r: ReaderStep)
    requires Tidy(e) && ReaderEnabled(e, r) && (r.Materialize? ==> r.h == e.reader.rest[0].id)
    ensures Tidy(ApplyReader(e, r))
  {
    ReaderStepLeaves(e, r);
    match r
    case Inspect => TidyByFrame(e, e.reader.frame);
    case Receive(_) | Count | Deliver | Owe | Materialize(_) | MaterializeFails | FinishFds | Surface | Shutdown =>
  }

  lemma TidyByFrame(e: End, f: Frame)
    requires Tidy(e)
    ensures Tidy(HandleFrame(e, f))
  {
    match f
    case Control(_, _, _) | Fds(_, _) | Data(_, _) | Close(_) | Hello(_) | Window(_, _) | Unknown =>
  }

  lemma TidyByApp(e: End, m: AppStep)
    requires Tidy(e) && AppEnabled(e, m) && (m.BeginSend? ==> Askable(m.what))
    requires m.StartPump? ==> m.h == e.starting[0].id
    ensures Tidy(ApplyApp(e, m))
  {
    match m
    case AppReceive | BeginSend(_, _, _) | Aim(_) | Pass(_) | StartPump(_) | CloseFlow | QueueMessage(_) =>
  }

  lemma TidyByPump(e: End, h: Handle, o: Out, p: PumpStep)
    requires Tidy(e) && h in e.outs && e.outs[h] == o && PumpEnabled(e, o, p)
    ensures Tidy(ApplyPump(e, h, p))
  {
  }

  lemma TidyBySink(e: End, h: Handle, k: Sink, s: SinkStep)
    requires Tidy(e) && h in e.sinks && e.sinks[h] == k && SinkEnabled(e, h, k, s)
    ensures Tidy(ApplySink(e, h, s))
  {
  }

  lemma TidyByWriter(e: End, w: WriterStep)
    requires Tidy(e) && WriterEnabled(e, w)
    ensures Tidy(ApplyWriter(e, w))
  {
    match w
    case SayHello | TakeOwed | GrantOwed(_) | WriteQueued =>
  }

  lemma TidyByStep(s: Sys, step: Step)
    requires Tidy(s.a) && EnabledA(s, step)
    ensures Tidy(Apply(s.a, step))
  {
    match step
    case Writer(w) => TidyByWriter(s.a, w);
    case Reads(r) => TidyByReader(s.a, r);
    case App(m) => TidyByApp(s.a, m);
    case Pump(h, p) => TidyByPump(s.a, h, s.a.outs[h], p);
    case Drain(h, k) => TidyBySink(s.a, h, s.a.sinks[h], k);
  }

  // ---- every step --------------------------------------------------------------------

  lemma GreetedAsSender(s: Sys, step: Step)
    requires Sound(s) && EnabledA(s, step)
    ensures Greeted(Apply(s.a, step), s.b, s.ab + Emits(s.a, step))
  {
    if step.Writer? {
      GreetedByWriter(s.a, s.b, s.ab, step.w);
    } else {
      QueuesPlainFrames(s.a, step);
      assert s.ab + [] == s.ab;
      QuietlySame(s.a, step);
      GreetedByQueueing(s.a, s.b, s.ab, Apply(s.a, step));
    }
  }

  /** What everyone but the reader leaves alone, and everyone but the writer. */
  predicate OthersLeave(e: End, e': End) {
    e'.reader == e.reader && e'.peerWindowed == e.peerWindowed && e'.peerWindow == e.peerWindow && e'.window == e.window
  }

  lemma WriterStepLeaves(e: End, w: WriterStep)
    requires WriterEnabled(e, w)
    ensures OthersLeave(e, ApplyWriter(e, w))
  {
    match w
    case SayHello | TakeOwed | GrantOwed(_) | WriteQueued =>
  }

  lemma AppStepLeaves(e: End, m: AppStep)
    requires AppEnabled(e, m)
    ensures OthersLeave(e, ApplyApp(e, m)) && ApplyApp(e, m).helloSent == e.helloSent
  {
    match m
    case AppReceive | BeginSend(_, _, _) | Aim(_) | Pass(_) | StartPump(_) | CloseFlow | QueueMessage(_) =>
  }

  lemma OtherStepsLeave(e: End, step: Step)
    requires Enabled(e, step) && !step.Reads?
    ensures OthersLeave(e, Apply(e, step))
  {
    match step
    case Writer(w) => WriterStepLeaves(e, w);
    case App(m) => AppStepLeaves(e, m);
    case Pump(h, p) => assert OthersLeave(e, ApplyPump(e, h, p));
    case Drain(h, k) => assert OthersLeave(e, ApplySink(e, h, k));
  }

  lemma QuietlySame(a: End, step: Step)
    requires Enabled(a, step) && !step.Writer?
    ensures Apply(a, step).helloSent == a.helloSent && Apply(a, step).window == a.window
  {
    match step
    case Reads(r) => ReaderStepLeaves(a, r);
    case App(m) => AppStepLeaves(a, m);
    case Pump(h, p) => assert ApplyPump(a, h, p).helloSent == a.helloSent && ApplyPump(a, h, p).window == a.window;
    case Drain(h, k) => assert ApplySink(a, h, k).helloSent == a.helloSent && ApplySink(a, h, k).window == a.window;
  }

  lemma GreetedAsReceiver(s: Sys, step: Step)
    requires Sound(s) && EnabledA(s, step)
    ensures Greeted(s.b, Apply(s.a, step), if Receives(step) then s.ba[1..] else s.ba)
    ensures StoppedFairly(Apply(s.a, step))
  {
    match step
    case Reads(r) => GreetedAsReading(s.b, s.a, s.ba, r);
    case Writer(w) => WriterStepLeaves(s.a, w); GreetedBySame(s.b, s.a, s.ba, ApplyWriter(s.a, w));
    case App(m) => AppStepLeaves(s.a, m); GreetedBySame(s.b, s.a, s.ba, ApplyApp(s.a, m));
    case Pump(h, p) => OtherStepsLeave(s.a, Pump(h, p)); GreetedBySame(s.b, s.a, s.ba, ApplyPump(s.a, h, p));
    case Drain(h, k) => OtherStepsLeave(s.a, Drain(h, k)); GreetedBySame(s.b, s.a, s.ba, ApplySink(s.a, h, k));
  }

  lemma GreetedAsReading(a: End, b: End, ab: seq<Frame>, r: ReaderStep)
    requires Greeted(a, b, ab) && ValidWindow(a.window) && StoppedFairly(b) && ReaderEnabled(b, r)
    requires r.Receive? ==> ab != [] && ab[0] == r.frame
    ensures Greeted(a, ApplyReader(b, r), if r.Receive? then ab[1..] else ab)
    ensures StoppedFairly(ApplyReader(b, r))
  {
    if r.Receive? {
      assert ab == [ab[0]] + ab[1..];
      GreetedByReceive(a, b, ab[0], ab[1..]);
    } else {
      GreetedByReader(a, b, ab, r);
    }
  }

  lemma StepKeepsSound(s: Sys, step: Step)
    requires Sound(s) && EnabledA(s, step)
    ensures Sound(StepA(s, step))
  {
    StepOk(s.a, step);
    TidyByStep(s, step);
    GreetedAsSender(s, step);
    GreetedAsReceiver(s, step);
  }

  lemma NextKeepsSound(s: Sys, l: Label)
    requires Sound(s) && EnabledIn(s, l)
    ensures Sound(Next(s, l))
  {
    if l.atA { StepKeepsSound(s, l.step); } else { StepKeepsSound(Swap(s), l.step); }
  }
}
