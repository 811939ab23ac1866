/** A peer that never said Hello, or not yet: it is granted nothing, and it is not
    waited on. */
module Unwindowed {
  import opened ByteStrings
  import opened Credit
  import opened Wire
  import opened Endpoint
  import opened EndpointLaws

  predicate NoWindows(fs: seq<Frame>) {
    fs == [] || (!fs[0].Window? && NoWindows(fs[1..]))
  }

  lemma {:induction false} NoWindowsAppend(fs: seq<Frame>, f: Frame)
    ensures NoWindows(fs + [f]) <==> NoWindows(fs) && !f.Window?
  {
    if fs == [] {
      assert fs + [f] == [f];
    } else {
      assert (fs + [f])[0] == fs[0] && (fs + [f])[1..] == fs[1..] + [f];
      NoWindowsAppend(fs[1..], f);
    }
  }

  /** No grant is owed, waits in a pump's hand or in the queue. */
  ghost predicate GrantsNothing(e: End) {
    && e.owed == map[] && e.flushing == map[] && NoWindows(e.queue)
    && forall h :: h in e.sinks ==> e.sinks[h].pending.None?
  }

  ghost predicate NothingYet(e: End) {
    e.peerWindowed || GrantsNothing(e)
  }

  lemma SinkGrantsNothing(e: End, h: Handle, k: Sink, s: SinkStep)
    requires GrantsNothing(e) && !e.peerWindowed && h in e.sinks && e.sinks[h] == k && SinkEnabled(e, h, k, s)
    ensures GrantsNothing(ApplySink(e, h, s))
  {
    assert k.pending.None? && !s.QueueGrant?;
    assert SinkNext(k, e.window, e.peerWindowed, s).pending.None?;
    assert e.queue + [] == e.queue;
  }

  lemma PumpGrantsNothing(e: End, h: Handle, o: Out, p: PumpStep)
    requires GrantsNothing(e) && h in e.outs && e.outs[h] == o && PumpEnabled(e, o, p)
    ensures GrantsNothing(ApplyPump(e, h, p))
  {
    match p
    case Queue => NoWindowsAppend(e.queue, Data(o.id, o.phase.bytes));
    case QueueClose => NoWindowsAppend(e.queue, Close(o.id));
    case Offer(_) | OfferEof | Admit | Retry | Read(_) | Tally | Quit | Drop => assert e.queue + [] == e.queue;
  }

  lemma AppGrantsNothing(e: End, a: AppStep)
    requires GrantsNothing(e) && AppEnabled(e, a)
    ensures GrantsNothing(ApplyApp(e, a))
  {
    match a
    case QueueMessage(task) => NoWindowsAppend(e.queue, TaskFrame(e, task));
    case StartPump(h) => OpeningGrantsNothing(e, h, e.starting[0].id, e.starting[0].dir, false);
    case AppReceive | BeginSend(_, _, _) | Aim(_) | Pass(_) | CloseFlow =>
  }

  lemma OpeningGrantsNothing(e: End, h: Handle, id: u32, dir: Dir, socket: bool)
    requires GrantsNothing(e) && Fresh(e, h)
    ensures GrantsNothing(OpenPumps(e, h, id, dir, socket))
  {
  }

  lemma FrameGrantsNothing(e: End, f: Frame)
    requires GrantsNothing(e)
    ensures GrantsNothing(HandleFrame(e, f))
  {
    match f
    case Hello(_) | Control(_, _, _) | Fds(_, _) | Data(_, _) | Close(_) | Window(_, _) | Unknown =>
  }

  lemma ReaderGrantsNothing(e: End, r: ReaderStep)
    requires GrantsNothing(e) && !e.peerWindowed && ReaderEnabled(e, r)
    ensures GrantsNothing(ApplyReader(e, r))
  {
    match r
    case Inspect => FrameGrantsNothing(e, e.reader.frame);
    case Materialize(h) => OpeningGrantsNothing(e, h, e.reader.rest[0].id, e.reader.rest[0].dir.Invert(), true);
    case Receive(_) | Count | Deliver | Owe | MaterializeFails | FinishFds | Surface | Shutdown =>
  }

  lemma WriterGrantsNothing(e: End, w: WriterStep)
    requires GrantsNothing(e) && WriterEnabled(e, w)
    ensures GrantsNothing(ApplyWriter(e, w)) && !w.GrantOwed?
    ensures w.WriteQueued? ==> !e.queue[0].Window?
  {
  }

  lemma StepGrantsNothing(e: End, s: Step)
    requires GrantsNothing(e) && !e.peerWindowed && Enabled(e, s)
    ensures GrantsNothing(Apply(e, s)) && NoWindows(Emits(e, s))
  {
    match s
    case Writer(w) => WriterGrantsNothing(e, w);
    case Reads(r) => ReaderGrantsNothing(e, r);
    case App(a) => AppGrantsNothing(e, a);
    case Pump(h, p) => PumpGrantsNothing(e, h, e.outs[h], p);
    case Drain(h, k) => SinkGrantsNothing(e, h, e.sinks[h], k);
  }

  /** A Hello once taken stays taken. */
  lemma StaysWindowed(e: End, s: Step)
    requires Enabled(e, s) && e.peerWindowed
    ensures Apply(e, s).peerWindowed
  {
    match s
    case Writer(w) => WriterStaysWindowed(e, w);
    case Reads(r) => ReaderStaysWindowed(e, r);
    case App(a) => AppStaysWindowed(e, a);
    case Pump(h, p) => assert ApplyPump(e, h, p).peerWindowed == e.peerWindowed;
    case Drain(h, k) => assert ApplySink(e, h, k).peerWindowed == e.peerWindowed;
  }

  lemma WriterStaysWindowed(e: End, w: WriterStep)
    requires WriterEnabled(e, w)
    ensures ApplyWriter(e, w).peerWindowed == e.peerWindowed
  {
  }

  lemma AppStaysWindowed(e: End, a: AppStep)
    requires AppEnabled(e, a)
    ensures ApplyApp(e, a).peerWindowed == e.peerWindowed
  {
    match a
    case AppReceive | BeginSend(_, _, _) | Aim(_) | Pass(_) | QueueMessage(_) | StartPump(_) | CloseFlow =>
  }

  lemma ReaderStaysWindowed(e: End, r: ReaderStep)
    requires ReaderEnabled(e, r) && e.peerWindowed
    ensures ApplyReader(e, r).peerWindowed
  {
    match r
    case Inspect => FrameStaysWindowed(e, e.reader.frame);
    case Receive(_) | Count | Deliver | Owe | Materialize(_) | MaterializeFails | FinishFds | Surface | Shutdown =>
  }

  lemma FrameStaysWindowed(e: End, f: Frame)
    requires e.peerWindowed
    ensures HandleFrame(e, f).peerWindowed
  {
    match f
    case Hello(_) | Control(_, _, _) | Fds(_, _) | Data(_, _) | Close(_) | Window(_, _) | Unknown =>
  }

  lemma {:induction false} NothingYetOnRuns(e: End, steps: seq<Step>, last: End)
    requires NothingYet(e) && Runs(e, steps, last)
    ensures NothingYet(last)
    decreases |steps|
  {
    if steps != [] {
      if e.peerWindowed { StaysWindowed(e, steps[0]); } else { StepGrantsNothing(e, steps[0]); }
      NothingYetOnRuns(Apply(e, steps[0]), steps[1..], last);
    }
  }

  /** Against any peer, as long as no Hello of its has been taken: the next frame
      written is no grant, nothing is owed, and a sender may always go on while the
      flow is open. */
  lemma NothingGrantedBeforeHello(dialer: bool, window: u32, steps: seq<Step>, e: End, s: Step, h: Handle)
    requires Runs(NewEnd(dialer, window), steps, e) && !e.peerWindowed
    ensures e.owed == map[] && e.flushing == map[]
    ensures Enabled(e, s) ==> NoWindows(Emits(e, s))
    ensures h in e.outs && e.outs[h].phase.Waiting? && !e.closed ==> Enabled(e, Pump(h, Admit))
  {
    NothingYetOnRuns(NewEnd(dialer, window), steps, e);
    if Enabled(e, s) { StepGrantsNothing(e, s); }
  }
}
