/** The counters and maps of the mux as the objects that hold them
    (crates/capsudo-transport/src/mux.rs, `Flow` to `StreamSlot`), updated in place.
    Each method is proved to be one step of the machine in endpoint.dfy: if the
    objects stand for a machine state before, they stand for the next one after. A
    `Notify` is the number of times it has been notified; wakeups.dfy says what
    comes of that. */
module Flows {
  import opened ByteStrings
  import opened Credit
  import opened Wire
  import opened Endpoint

  // ---- streams written into the channel --------------------------------------------------

  /** The part of the machine's end that `Flow` holds. */
  predicate SameFlow(e: End, e': End) {
    && e'.window == e.window && e'.peerWindowed == e.peerWindowed && e'.peerWindow == e.peerWindow
    && e'.closed == e.closed && e'.owed == e.owed && e'.progress == e.progress && e'.outs == e.outs
  }

  lemma GrantEffect(e: End, id: u32, bytes: u32)
    ensures var e' := HandleWindow(e, id, bytes);
            && SameFlow(e, e'.(outs := e.outs)) && e'.outs.Keys == e.outs.Keys
            && forall h :: h in e.outs ==>
                 e'.outs[h] == if id in e.progress && e.progress[id] == h then GrantOut(e.outs[h], bytes) else e.outs[h]
  {
  }

  lemma OweEffect(e: End, id: u32, payload: Bytes)
    requires e.reader == Refused(id, payload) && e.peerWindowed
    ensures var e' := DoOwe(e);
            SameFlow(e, e'.(owed := e.owed)) && e'.owed == OweCredit(e.owed, id, Cost(payload) % 0x1_0000_0000)
  {
  }

  lemma DropEffect(e: End, h: Handle)
    requires h in e.outs && e.outs[h].phase.Ending?
    ensures var e' := ApplyPump(e, h, PumpStep.Drop);
            && SameFlow(e, e'.(outs := e.outs, progress := e.progress))
            && e'.outs == e.outs[h := e.outs[h].(phase := Dropped)]
            && e'.progress == Unregister(e.progress, e.outs[h].id, h)
  {
  }

  lemma IgnoreEffect(e: End)
    ensures SameFlow(e, HandleHello(e, Ignore))
  {
  }

  lemma HelloEffect(e: End, window: u32)
    ensures var e' := HandleHello(e, Verdict.Take(window));
            && SameFlow(e, e'.(outs := e.outs, peerWindowed := e.peerWindowed, peerWindow := e.peerWindow))
            && e'.peerWindowed && e'.peerWindow == window && e'.outs.Keys == e.outs.Keys
            && forall h :: h in e.outs ==>
                 e'.outs[h] == if IsRegistered(e, h) then e.outs[h].(available := e.outs[h].available + window)
                   else e.outs[h]
  {
  }

  lemma RegisteredGrows(e: End, id: u32, window: u32)
    requires id in e.progress && e.progress[id] in e.outs && e.outs[e.progress[id]].id == id
    ensures var h := e.progress[id];
            HandleHello(e, Verdict.Take(window)).outs[h] == e.outs[h].(available := e.outs[h].available + window)
  {
    HelloEffect(e, window);
  }

  class Progress {
    ghost const handle: Handle
    ghost const id: u32
    const socket: bool
    var available: int
    var taken: nat
    var sent: nat
    var done: bool
    var granted: nat
    var progressed: nat

    constructor (window: u32, socket: bool, ghost id: u32, ghost handle: Handle)
      ensures this.socket == socket && this.id == id && this.handle == handle
      ensures available == window && taken == 0 && sent == 0 && !done
    {
      this.socket, this.id, this.handle := socket, id, handle;
      available, taken, sent, done, granted, progressed := window, 0, 0, false, 0, 0;
    }

    /** A grant is added, saturating, and announced. */
    method AddCredit(bytes: u32)
      modifies this`available, this`granted
      ensures available == GrantCredit(old(available), bytes) && granted == old(granted) + 1
    {
      available := if available + bytes > I64_MAX then I64_MAX else available + bytes;
      granted := granted + 1;
    }

    ghost predicate Stands(o: Out)
      reads this
    {
      && o.id == id && o.socket == socket && available == o.available
      && taken == o.taken && sent == o.sent && done == o.phase.Dropped?
    }
  }

  class Flow {
    const window: u32
    var peerWindowed: bool
    var peerWindow: u32
    var closed: bool
    var progress: map<u32, Progress>
    var owed: map<u32, u32>
    var owedReady: bool

    /** The registered streams are the machine's, each under its own id; and the
        writer has been told of whatever is owed. */
    ghost predicate Stands(e: End)
      reads this, progress.Values
    {
      && window == e.window && peerWindowed == e.peerWindowed && peerWindow == e.peerWindow
      && closed == e.closed && owed == e.owed && (owed != map[] ==> owedReady)
      && progress.Keys == e.progress.Keys
      && forall id :: id in progress ==>
           && progress[id].id == id && progress[id].handle == e.progress[id]
           && progress[id].handle in e.outs && progress[id].Stands(e.outs[progress[id].handle])
    }

    constructor (requested: u32, dialer: bool)
      ensures window == ClampWindow(requested) && Stands(NewEnd(dialer, ClampWindow(requested)))
    {
      window := if requested <= MAX_WINDOW then requested else MAX_WINDOW;
      peerWindowed, peerWindow, closed := false, 0, false;
      progress, owed, owedReady := map[], map[], false;
    }

    /** The first Hello that makes sense adds its window to what every registered
        stream has left; no other Hello changes anything. */
    method TakeHello(payload: Bytes, ghost e: End) returns (ok: bool)
      requires Stands(e)
      modifies this, progress.Values
      ensures ok <==> !HelloVerdict(e.peerWindowed, payload).Refuse?
      ensures ok ==> Stands(HandleHello(e, HelloVerdict(e.peerWindowed, payload)))
      ensures !ok ==> Stands(e)
      ensures progress == old(progress)
      ensures forall i :: i in progress ==>
        progress[i].granted == old(progress[i].granted) + if HelloVerdict(e.peerWindowed, payload).Take? then 1 else 0
    {
      ghost var verdict := HelloVerdict(e.peerWindowed, payload);
      IgnoreEffect(e);
      if peerWindowed { assert verdict == Ignore; return true; }
      var version := Field(payload, 0);
      if version.None? || version.value < WINDOW_VERSION { assert verdict == Ignore; return true; }
      var given := Field(payload, 4);
      var granted := if given.Some? then given.value else STREAM_WINDOW;
      var limit := Field(payload, 8);
      var frame: int := if limit.Some? then limit.value else MIN_STREAM_FRAME;
      if granted == 0 || frame < MIN_STREAM_FRAME { assert verdict == Refuse; return false; }
      assert verdict == Verdict.Take(granted);
      GrantWindow(granted, e);
      return true;
    }

    method GrantWindow(granted: u32, ghost e: End)
      requires Stands(e)
      modifies this, progress.Values
      ensures Stands(HandleHello(e, Verdict.Take(granted))) && progress == old(progress)
      ensures forall i :: i in progress ==> progress[i].granted == old(progress[i].granted) + 1
    {
      peerWindow := granted;
      AddToAll(granted);
      peerWindowed := true;
      HelloEffect(e, granted);
      ghost var e' := HandleHello(e, Verdict.Take(granted));
      forall i | i in progress
        ensures progress[i].Stands(e'.outs[progress[i].handle])
      {
        var p := progress[i];
        assert old(p.Stands(e.outs[p.handle]));
        RegisteredGrows(e, i, granted);
        assert e'.outs[p.handle] == e.outs[p.handle].(available := e.outs[p.handle].available + granted);
      }
    }

    /** Every registered stream gets the window on top of what it has left. */
    method AddToAll(granted: u32)
      requires forall id :: id in progress ==> progress[id].id == id
      modifies progress.Values
      ensures forall id :: id in progress ==>
        && progress[id].available == old(progress[id].available) + granted as int
        && progress[id].taken == old(progress[id].taken) && progress[id].sent == old(progress[id].sent)
        && progress[id].done == old(progress[id].done) && progress[id].granted == old(progress[id].granted) + 1
    {
      var todo := progress.Keys;
      while todo != {}
        invariant todo <= progress.Keys
        invariant forall id :: id in progress ==>
          && progress[id].available == old(progress[id].available) + (if id in todo then 0 else granted as int)
          && progress[id].taken == old(progress[id].taken) && progress[id].sent == old(progress[id].sent)
          && progress[id].done == old(progress[id].done)
          && progress[id].granted == old(progress[id].granted) + (if id in todo then 0 else 1)
      {
        var id :| id in todo;
        progress[id].available := progress[id].available + granted;
        progress[id].granted := progress[id].granted + 1;
        todo := todo - {id};
      }
    }

    method Grant(id: u32, bytes: u32, ghost e: End)
      requires Stands(e)
      modifies progress.Values
      ensures Stands(HandleWindow(e, id, bytes))
      ensures forall i :: i in progress ==> progress[i].granted == old(progress[i].granted) + if i == id then 1 else 0
    {
      if id in progress { progress[id].AddCredit(bytes); }
      ghost var e' := HandleWindow(e, id, bytes);
      GrantEffect(e, id, bytes);
      forall i | i in progress
        ensures progress[i].Stands(e'.outs[progress[i].handle])
      {
        var q := progress[i];
        assert old(q.Stands(e.outs[q.handle])) && (i != id ==> e'.outs[q.handle] == e.outs[q.handle]);
      }
    }

    /** `owe`, which forgets the credit of one stream too many. */
    method Owe(id: u32, payload: Bytes, ghost e: End)
      requires Stands(e) && e.reader == Refused(id, payload) && e.peerWindowed
      modifies this`owed, this`owedReady
      ensures Stands(DoOwe(e))
    {
      OweEffect(e, id, payload);
      AddDebt(id, (MUX_HEADER + |payload|) % 0x1_0000_0000);
    }

    /** The writer is told of every debt that is taken on. */
    method AddDebt(id: u32, bytes: u32)
      modifies this`owed, this`owedReady
      ensures owed == OweCredit(old(owed), id, bytes)
      ensures owedReady <==> old(owedReady) || id in old(owed) || |old(owed)| < MAX_OWED_STREAMS
    {
      if |owed| >= MAX_OWED_STREAMS && id !in owed { return; }
      var debt := if id in owed then owed[id] else 0;
      owed := owed[id := if debt + bytes <= 0xFFFF_FFFF then debt + bytes else 0xFFFF_FFFF];
      owedReady := true;
    }

    /** The writer takes all debts at once. */
    method TakeOwed(ghost e: End) returns (debts: map<u32, u32>)
      requires Stands(e) && WriterEnabled(e, WriterStep.TakeOwed)
      modifies this`owed, this`owedReady
      ensures old(owedReady) && !owedReady
      ensures Stands(ApplyWriter(e, WriterStep.TakeOwed)) && debts == ApplyWriter(e, WriterStep.TakeOwed).flushing
    {
      owedReady := false;
      debts := owed;
      owed := map[];
    }

    /** The flow is marked, and every registered stream's sender and barriers are
        notified, once each. */
    method Close(ghost e: End)
      requires Stands(e)
      modifies this`closed, progress.Values
      ensures Stands(e.(closed := true))
      ensures forall i :: i in progress ==>
        progress[i].granted == old(progress[i].granted) + 1 && progress[i].progressed == old(progress[i].progressed) + 1
    {
      closed := true;
      NotifyAll();
      forall i | i in progress
        ensures progress[i].Stands(e.outs[progress[i].handle])
      {
        assert old(progress[i].Stands(e.outs[progress[i].handle]));
      }
    }

    method NotifyAll()
      requires forall id :: id in progress ==> progress[id].id == id
      modifies progress.Values
      ensures forall id :: id in progress ==>
        && progress[id].available == old(progress[id].available)
        && progress[id].taken == old(progress[id].taken) && progress[id].sent == old(progress[id].sent)
        && progress[id].done == old(progress[id].done) && progress[id].granted == old(progress[id].granted) + 1
        && progress[id].progressed == old(progress[id].progressed) + 1
    {
      var todo := progress.Keys;
      while todo != {}
        invariant todo <= progress.Keys
        invariant forall id :: id in progress ==>
          && progress[id].available == old(progress[id].available)
          && progress[id].taken == old(progress[id].taken) && progress[id].sent == old(progress[id].sent)
          && progress[id].done == old(progress[id].done)
          && progress[id].granted == old(progress[id].granted) + (if id in todo then 0 else 1)
          && progress[id].progressed == old(progress[id].progressed) + (if id in todo then 0 else 1)
      {
        var id :| id in todo;
        progress[id].granted := progress[id].granted + 1;
        progress[id].progressed := progress[id].progressed + 1;
        todo := todo - {id};
      }
    }

    /** The map lets go of this stream, unless another has taken its id. */
    method Forget(id: u32, stream: Progress)
      modifies this`progress
      ensures progress == if id in old(progress) && old(progress)[id] == stream then old(progress) - {id}
        else old(progress)
    {
      if id in progress && progress[id] == stream {
        progress := progress - {id};
      }
    }

    /** A new stream starts with the peer's window, or with nothing before its
        Hello, and displaces whatever had its id. */
    method Open(id: u32, socket: bool, ghost h: Handle, ghost e: End) returns (out: Outbound)
      requires Stands(e) && Fresh(e, h) && (forall i :: i in progress ==> progress[i].handle != h)
      modifies this`progress
      ensures fresh(out) && fresh(out.progress) && out.flow == this && out.id == id && out.progress.handle == h
      ensures progress == old(progress)[id := out.progress]
      ensures Stands(OpenPumps(e, h, id, Dir.Read, socket))
    {
      var credit := if peerWindowed then peerWindow else 0;
      var p := new Progress(credit, socket, id, h);
      progress := progress[id := p];
      out := new Outbound(this, id, p);
    }
  }

  class Outbound {
    const flow: Flow
    const id: u32
    const progress: Progress

    constructor (flow: Flow, id: u32, progress: Progress)
      ensures this.flow == flow && this.id == id && this.progress == progress
    {
      this.flow, this.id, this.progress := flow, id, progress;
    }

    /** Reading counts what was taken for a barrier, and the frame is charged with
        its header. */
    method ReadAndDebit(n: nat, ghost o: Out)
      requires progress.Stands(o) && PumpCan(o, PumpStep.Read(n))
      modifies progress
      ensures progress.Stands(PumpNext(o, PumpStep.Read(n)))
    {
      progress.taken := progress.taken + n;
      progress.available := progress.available - (MUX_HEADER + n);
    }

    method Queued(payload: nat, ghost o: Out)
      requires progress.Stands(o) && o.phase == Counting(payload)
      modifies progress
      ensures progress.Stands(PumpNext(o, Tally)) && progress.progressed == old(progress.progressed) + 1
    {
      progress.sent := progress.sent + payload;
      progress.progressed := progress.progressed + 1;
    }

    /** Dropping unregisters this stream, never a newer one under the same id. */
    method Drop(ghost e: End)
      requires flow.Stands(e) && progress.id == id && progress.handle in e.outs
        && progress.Stands(e.outs[progress.handle])
      requires e.outs[progress.handle].phase.Ending?
      requires forall i :: i in flow.progress && flow.progress[i].handle == progress.handle ==>
        flow.progress[i] == progress
      modifies flow`progress, progress
      ensures flow.Stands(ApplyPump(e, progress.handle, PumpStep.Drop))
      ensures progress.Stands(PumpNext(e.outs[progress.handle], PumpStep.Drop))
      ensures progress.progressed == old(progress.progressed) + 1
    {
      ghost var h, before := progress.handle, flow.progress;
      DropEffect(e, h);
      flow.Forget(id, progress);
      progress.done := true;
      progress.progressed := progress.progressed + 1;
      ghost var e' := ApplyPump(e, h, PumpStep.Drop);
      assert flow.progress.Keys == e'.progress.Keys;
      forall i | i in flow.progress
        ensures flow.progress[i].id == i && flow.progress[i].handle == e'.progress[i]
          && flow.progress[i].handle in e'.outs
        ensures flow.progress[i].Stands(e'.outs[flow.progress[i].handle])
      {
        var p := before[i];
        assert p.id == i && p != progress && p.handle != h && old(p.Stands(e.outs[p.handle]));
      }
    }
  }

  // ---- streams written out of the channel ------------------------------------------------

  /** `Inbound` with its `QueueDepth`: a pump's queue, whether the pump still holds
      its receiving end, and how much is counted into it. */
  class Inbound {
    var queue: seq<StreamMsg>
    var open: bool
    var queued: nat
    var closed: bool
    var drained: nat

    constructor ()
      ensures queue == [] && open && queued == 0 && !closed
    {
      queue, open, queued, closed, drained := [], true, 0, false, 0;
    }

    ghost predicate Stands(k: Sink)
      reads this
    {
      queue == k.inq && (open <==> k.phase.Live?) && queued == k.queued && (closed <==> k.Closed())
    }

    /** What `wait_for_room` tests. */
    method HasRoomFor(cost: nat, limit: nat, ghost k: Sink) returns (room: bool)
      requires Stands(k)
      ensures room <==> HasRoom(k.queued, cost, limit, k.Closed())
    {
      return queued == 0 || queued + cost <= limit || closed;
    }

    /** The reader counts a frame into the queue ... */
    method Count(bytes: Bytes, ghost k: Sink)
      requires Stands(k)
      modifies this`queued
      ensures Stands(CountSink(k, bytes))
    {
      queued := queued + (MUX_HEADER + |bytes|);
    }

    /** ... and sends it, which fails once the pump has let go of the queue. */
    method Send(bytes: Bytes, ghost k: Sink, ghost early: bool) returns (delivered: bool)
      requires Stands(k)
      modifies this`queue
      ensures Stands(DeliverSink(k, bytes, early)) && (delivered <==> k.phase.Live?)
    {
      if open { queue := queue + [Payload(bytes)]; }
      return open;
    }
  }

  class StreamMap {
    var entries: map<u32, Inbound>

    constructor ()
      ensures entries == map[]
    {
      entries := map[];
    }

    /** A close takes the stream out of the map and tells its pump. */
    method Close(id: u32, ghost k: Sink)
      requires id in entries ==> entries[id].Stands(k)
      modifies this`entries, if id in entries then {entries[id]} else {}
      ensures entries == old(entries) - {id}
      ensures id in old(entries) ==> old(entries[id]).Stands(CloseSink(k))
    {
      if id in entries {
        var inbound := entries[id];
        entries := entries - {id};
        if inbound.open { inbound.queue := inbound.queue + [Fin]; }
      } else {
        assert entries - {id} == entries;
      }
    }
  }

  class StreamSink {
    const id: u32
    const inbound: Inbound
    const streams: StreamMap
    const flow: Flow
    var ungranted: nat

    ghost predicate Stands(k: Sink)
      reads this, inbound
    {
      k.id == id && inbound.Stands(k) && ungranted == k.ungranted
    }

    /** A new sink displaces whatever had its id. */
    constructor Open(streams: StreamMap, flow: Flow, id: u32)
      modifies streams`entries
      ensures this.id == id && this.streams == streams && this.flow == flow && fresh(inbound)
      ensures Stands(NewSink(id)) && streams.entries == old(streams.entries)[id := inbound]
    {
      var queue := new Inbound();
      this.id, this.streams, this.flow, this.inbound, this.ungranted := id, streams, flow, queue, 0;
      new;
      streams.entries := streams.entries[id := inbound];
    }

    /** The pump has written out a frame. */
    method Consumed(payload: nat, idle: bool, ghost k: Sink) returns (grant: Option<u32>)
      requires Stands(k) && SinkCan(k, SinkStep.Consumed(idle)) && payload == |k.held.value|
      requires Cost(k.held.value) <= k.queued
      modifies this`ungranted, inbound`queued, inbound`drained
      ensures inbound.drained == old(inbound.drained) + 1
      ensures var k' := SinkNext(k, flow.window, flow.peerWindowed, SinkStep.Consumed(idle));
              Stands(k') && grant == k'.pending
    {
      var cost := MUX_HEADER + payload;
      inbound.queued := inbound.queued - cost;
      inbound.drained := inbound.drained + 1;
      if !flow.peerWindowed { return None; }
      ungranted := ungranted + cost;
      if ungranted < flow.window / 4 && !idle { return None; }
      grant := Some(ungranted % 0x1_0000_0000);
      ungranted := 0;
    }

    /** `abandon` lets go of its queue ... */
    method LetGo(ghost k: Sink)
      requires Stands(k) && SinkCan(k, AbandonClose)
      modifies inbound`open, inbound`queue
      ensures Stands(SinkNext(k, flow.window, flow.peerWindowed, AbandonClose))
    {
      inbound.open := false;
      inbound.queue := [];
    }

    /** ... then reads the counter, into which the reader may have counted another
        frame since, and works out the grant ... */
    method LoadHeld(ghost k: Sink) returns (amount: u32)
      requires Stands(k) && SinkCan(k, AbandonLoad)
      ensures var k' := SinkNext(k, flow.window, flow.peerWindowed, AbandonLoad);
              Stands(k') && k'.phase == Loaded(amount)
    {
      var held := ungranted + inbound.queued;
      amount := if held <= 0xFFFF_FFFF then held else 0xFFFF_FFFF;
    }

    /** ... and is dropped, which leaves the grant to send to a windowed peer. */
    method Retire(amount: u32, ghost k: Sink) returns (grant: Option<u32>)
      requires Stands(k) && k.phase == Loaded(amount)
      modifies inbound`closed, inbound`drained, streams`entries
      ensures var k' := SinkNext(k, flow.window, flow.peerWindowed, AbandonDrop);
              Stands(k') && grant == k'.pending
      ensures inbound.drained == old(inbound.drained) + 1
      ensures streams.entries == if id in old(streams.entries) && old(streams.entries)[id] == inbound
                                 then old(streams.entries) - {id} else old(streams.entries)
    {
      var windowed := flow.peerWindowed;
      Drop();
      grant := if windowed then Some(amount) else None;
    }

    /** The machine's three steps of an abandoned sink, with nothing between them. */
    ghost function AbandonedAtOnce(k: Sink): Sink
      reads flow
      requires k.phase.Live? && k.pending.None?
    {
      var (w, p) := (flow.window, flow.peerWindowed);
      SinkNext(SinkNext(SinkNext(k, w, p, AbandonClose), w, p, AbandonLoad), w, p, AbandonDrop)
    }

    method Abandon(ghost k: Sink) returns (grant: Option<u32>)
      requires Stands(k) && k.phase.Live? && k.pending.None?
      modifies inbound, streams`entries
      ensures Stands(AbandonedAtOnce(k)) && grant == AbandonedAtOnce(k).pending
      ensures streams.entries == if id in old(streams.entries) && old(streams.entries)[id] == inbound
                                 then old(streams.entries) - {id} else old(streams.entries)
    {
      ghost var w, p := flow.window, flow.peerWindowed;
      LetGo(k);
      var amount := LoadHeld(SinkNext(k, w, p, AbandonClose));
      grant := Retire(amount, SinkNext(SinkNext(k, w, p, AbandonClose), w, p, AbandonLoad));
    }

    /** Dropping a sink unregisters its stream, never a newer one under the id, and
        tells a reader that waits for room. */
    method Drop()
      modifies inbound`closed, inbound`drained, streams`entries
      ensures inbound.closed && inbound.drained == old(inbound.drained) + 1
      ensures streams.entries == if id in old(streams.entries) && old(streams.entries)[id] == inbound
                                 then old(streams.entries) - {id} else old(streams.entries)
    {
      if id in streams.entries && streams.entries[id] == inbound {
        streams.entries := streams.entries - {id};
      }
      inbound.closed := true;
      inbound.drained := inbound.drained + 1;
    }
  }

  // ---- stream ids --------------------------------------------------------------------------

  class StreamIds {
    const dialer: bool
    var nextId: u32
    ghost var issued: nat

    ghost predicate Valid()
      reads this
    {
      nextId == IdOf(dialer, issued)
    }

    constructor (dialer: bool)
      ensures Valid() && this.dialer == dialer && issued == 0
    {
      this.dialer := dialer;
      nextId := if dialer then 0 else 1;
      issued := 0;
    }

    /** `alloc_id`, which wraps around. */
    method Alloc() returns (id: u32)
      requires Valid()
      modifies this
      ensures Valid() && issued == old(issued) + 1 && id == IdOf(dialer, old(issued))
    {
      id := nextId;
      nextId := (nextId + 2) % 0x1_0000_0000;
      issued := issued + 1;
      WrappingStep(2 * old(issued) + if dialer then 0 else 1);
    }

    /** The plan of one `send`: an id for every descriptor, in order. */
    method AllocAll(dirs: seq<Dir>) returns (specs: seq<Spec>)
      requires Valid()
      modifies this
      ensures Valid() && issued == old(issued) + |dirs| && specs == Plan(dialer, old(issued), dirs)
    {
      specs := [];
      var i := 0;
      while i < |dirs|
        invariant 0 <= i <= |dirs| && Valid() && issued == old(issued) + i
        invariant specs == Plan(dialer, old(issued), dirs[..i])
      {
        var id := Alloc();
        specs := specs + [Spec(id, dirs[i])];
        assert dirs[..i + 1] == dirs[..i] + [dirs[i]];
        PlanAppend(dialer, old(issued), dirs[..i], dirs[i]);
        i := i + 1;
      }
      assert dirs[..i] == dirs;
    }
  }

  lemma WrappingStep(n: nat)
    ensures (n % 0x1_0000_0000 + 2) % 0x1_0000_0000 == (n + 2) % 0x1_0000_0000
  {
  }

  lemma {:induction false} PlanAppend(dialer: bool, n: nat, dirs: seq<Dir>, dir: Dir)
    ensures Plan(dialer, n, dirs + [dir]) == Plan(dialer, n, dirs) + [Spec(IdOf(dialer, n + |dirs|), dir)]
    decreases |dirs|
  {
    if dirs == [] {
      assert [] + [dir] == [dir];
    } else {
      assert (dirs + [dir])[0] == dirs[0] && (dirs + [dir])[1..] == dirs[1..] + [dir];
      PlanAppend(dialer, n + 1, dirs[1..], dir);
      var first, last := Spec(IdOf(dialer, n), dirs[0]), Spec(IdOf(dialer, n + |dirs|), dir);
      assert [first] + (Plan(dialer, n + 1, dirs[1..]) + [last]) == [first] + Plan(dialer, n + 1, dirs[1..]) + [last];
    }
  }

  // ---- a pump that writes a descriptor -------------------------------------------------------

  /** A descriptor that takes part of what it is offered, or fails. */
  class Descriptor {
    var written: Bytes

    constructor ()
      ensures written == []
    {
      written := [];
    }

    /** One `write`: however many bytes there is room for, and none at all is a
        failure. */
    method Write(bytes: Bytes) returns (n: nat)
      modifies this
      ensures n <= |bytes| && written == old(written) + bytes[..n]
    {
      n :| 0 <= n <= |bytes|;
      written := written + bytes[..n];
    }
  }

  /** The writer pump's inner loop: whatever pieces the descriptor takes, either the
      whole frame is written in order, or a prefix of it and the pump abandons its
      stream. */
  method WriteAll(fd: Descriptor, bytes: Bytes) returns (ok: bool, offset: nat)
    modifies fd
    ensures offset <= |bytes| && fd.written == old(fd.written) + bytes[..offset]
    ensures ok <==> offset == |bytes|
  {
    offset := 0;
    while offset < |bytes|
      invariant offset <= |bytes| && fd.written == old(fd.written) + bytes[..offset]
    {
      var n := fd.Write(bytes[offset..]);
      if n == 0 { return false, offset; }
      assert bytes[..offset + n] == bytes[..offset] + bytes[offset..][..n];
      offset := offset + n;
    }
    ok := true;
  }
}
