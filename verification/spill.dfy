/** Why an end ever throws data away: the stream had never been opened, its sink
    was abandoned, or the reader has stopped. */
module Spills {
  import opened ByteStrings
  import opened Proto
  import opened Credit
  import opened Wire
  import opened Endpoint
  import opened EndpointLaws
  import opened Session
  import opened Refinement

  predicate Abandoned(k: Sink) {
    k.phase.QueueDropped? || k.phase.Loaded? || k.phase.Gone?
  }

  ghost predicate SpilledOk(e: End) {
    e.reader.Stopped?
    || ((forall x :: x in e.spilled ==> x in e.unrouted || (x in e.sinks && Abandoned(e.sinks[x])))
        && (forall h :: h in e.sinks && e.sinks[h].phase.Ended? ==> e.sinks[h].closeSeen))
  }

  /** Sinks are not given back once abandoned, nor ended without a close. */
  predicate Onward(k: Sink, k': Sink) {
    && (Abandoned(k) ==> Abandoned(k'))
    && (k'.phase.Ended? ==> k'.closeSeen || (k.phase.Ended? && k'.closeSeen == k.closeSeen))
  }

  lemma SpilledByUpdate(e: End, e': End)
    requires SpilledOk(e) && e'.spilled == e.spilled && e'.unrouted == e.unrouted
    requires e.reader.Stopped? ==> e'.reader.Stopped?
    requires forall h :: h in e.sinks ==> h in e'.sinks && Onward(e.sinks[h], e'.sinks[h])
    requires forall h :: h in e'.sinks && h !in e.sinks ==> e'.sinks[h].phase.Live?
    ensures SpilledOk(e')
  {
  }

  lemma SpilledByOneSink(e: End, e': End, h: Handle, k: Sink)
    requires SpilledOk(e) && e'.spilled == e.spilled && e'.unrouted == e.unrouted && e'.reader == e.reader
    requires h in e.sinks && e'.sinks == e.sinks[h := k] && Onward(e.sinks[h], k)
    ensures SpilledOk(e')
  {
  }

  lemma OnwardByStep(k: Sink, s: SinkStep, window: u32, peerWindowed: bool)
    requires SinkCan(k, s) && (s.EndUnrouted? ==> k.closeSeen) && (HasFin(k.inq) ==> k.closeSeen)
    ensures Onward(k, SinkNext(k, window, peerWindowed, s))
  {
    match s
    case Take | Write(_) | Consumed(_) | QueueGrant | EndAtClose | EndUnrouted | AbandonClose | AbandonLoad
      | AbandonDrop =>
  }

  lemma UnroutedMeansClosed(e: End, h: Handle, k: Sink)
    requires MapsOk(e) && Tidy(e) && h in e.sinks && e.sinks[h] == k && SinkEnabled(e, h, k, EndUnrouted)
    ensures e.reader.Stopped? || k.closeSeen
  {
    IdsAnswer(e, h as u32);
  }

  lemma SpilledBySink(e: End, h: Handle, k: Sink, s: SinkStep)
    requires SpilledOk(e) && MapsOk(e) && Tidy(e) && h in e.sinks && e.sinks[h] == k && SinkEnabled(e, h, k, s)
    requires HasFin(k.inq) ==> k.closeSeen
    ensures SpilledOk(ApplySink(e, h, s))
  {
    if !e.reader.Stopped? {
      if s.EndUnrouted? { UnroutedMeansClosed(e, h, k); }
      OnwardByStep(k, s, e.window, e.peerWindowed);
      SpilledByOneSink(e, ApplySink(e, h, s), h, SinkNext(k, e.window, e.peerWindowed, s));
    }
  }

  lemma SpilledByDeliver(e: End, h: Handle, k: Sink, id: u32, bytes: Bytes, early: bool)
    requires SpilledOk(e) && SinksOk(e) && e.reader == Counted(h, id, bytes, early) && h == id && h in e.sinks
      && e.sinks[h] == k
    ensures SpilledOk(DoDeliver(e))
  {
    assert Onward(k, DeliverSink(k, bytes, early));
  }

  lemma SpilledByCount(e: End, h: Handle, id: u32, bytes: Bytes)
    requires SpilledOk(e) && e.reader == Room(h, id, bytes) && ReaderEnabled(e, Count)
    ensures SpilledOk(DoCount(e))
  {
    assert Onward(e.sinks[h], CountSink(e.sinks[h], bytes));
    SpilledByUpdate(e, DoCount(e));
  }

  /** Data is refused on arrival only where nothing was opened or the sink is gone. */
  lemma SpilledByData(e: End, id: u32, bytes: Bytes)
    requires SpilledOk(e) && MapsOk(e) && Tidy(e) && e.reader == Reader.Hand(Data(id, bytes))
    requires id in e.sinks ==> !e.sinks[id].closeSeen
    ensures SpilledOk(HandleData(e, id, bytes))
  {
    IdsAnswer(e, id);
  }

  lemma SpilledByClose(e: End, id: u32)
    requires SpilledOk(e) && e.reader == Reader.Hand(Close(id))
    ensures SpilledOk(HandleClose(e, id))
  {
  }

  lemma SpilledByFrame(e: End, f: Frame)
    requires SpilledOk(e) && MapsOk(e) && Tidy(e) && e.reader == Reader.Hand(f)
    requires f.Data? && f.id in e.sinks ==> !e.sinks[f.id].closeSeen
    ensures SpilledOk(HandleFrame(e, f))
  {
    match f
    case Data(id, bytes) => SpilledByData(e, id, bytes);
    case Close(id) => SpilledByClose(e, id);
    case Hello(_) | Control(_, _, _) | Fds(_, _) | Window(_, _) | Unknown => SpilledByUpdate(e, HandleFrame(e, f));
  }

  lemma SpilledByReader(e: End, r: ReaderStep)
    requires SpilledOk(e) && SinksOk(e) && MapsOk(e) && Tidy(e) && ReaderEnabled(e, r)
    requires r.Inspect? && e.reader.frame.Data? && e.reader.frame.id in e.sinks
      ==> !e.sinks[e.reader.frame.id].closeSeen
    ensures SpilledOk(ApplyReader(e, r))
  {
    match r
    case Inspect => SpilledByFrame(e, e.reader.frame);
    case Count => SpilledByCount(e, e.reader.h, e.reader.id, e.reader.bytes);
    case Deliver => SpilledByDeliver(e, e.reader.h, e.sinks[e.reader.h], e.reader.id, e.reader.bytes, e.reader.early);
    case Materialize(h) => SpilledByUpdate(e, DoMaterialize(e, h));
    case Owe => SpilledByUpdate(e, DoOwe(e));
    case Receive(_) | FinishFds | Surface => SpilledByUpdate(e, ApplyReader(e, r));
    case MaterializeFails | Shutdown =>
  }

  lemma SpilledByApp(e: End, m: AppStep)
    requires SpilledOk(e) && AppEnabled(e, m)
    ensures SpilledOk(ApplyApp(e, m))
  {
    match m
    case AppReceive | BeginSend(_, _, _) | Aim(_) | Pass(_) | QueueMessage(_) | StartPump(_) | CloseFlow =>
      SpilledByUpdate(e, ApplyApp(e, m));
  }

  lemma SpilledByWriter(e: End, w: WriterStep)
    requires SpilledOk(e) && WriterEnabled(e, w)
    ensures SpilledOk(ApplyWriter(e, w))
  {
    match w
    case SayHello | TakeOwed | GrantOwed(_) | WriteQueued => SpilledByUpdate(e, ApplyWriter(e, w));
  }

  lemma SpilledByStep(e: End, s: Step)
    requires SpilledOk(e) && EndOk(e) && Tidy(e) && Enabled(e, s)
    requires s == Reads(Inspect) && e.reader.frame.Data? && e.reader.frame.id in e.sinks ==>
      !e.sinks[e.reader.frame.id].closeSeen
    ensures SpilledOk(Apply(e, s))
  {
    match s
    case Writer(w) => SpilledByWriter(e, w);
    case Reads(r) => SpilledByReader(e, r);
    case App(m) => SpilledByApp(e, m);
    case Pump(h, p) => SpilledByUpdate(e, ApplyPump(e, h, p));
    case Drain(h, k) =>
      assert SinkOk(e.sinks[h], e.window, e.peerWindowed, HalfQueued(e.reader, h));
      SpilledBySink(e, h, e.sinks[h], k);
  }
}
