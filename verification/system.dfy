/** Two conforming ends joined by their byte channel: a session of the mux. The
    channel carries frames in order in each direction, `cap` of them at once (see
    wire.dfy for the bytes). A label says whose step it is, and which. */
module Session {
  import opened ByteStrings
  import opened Proto
  import opened Credit
  import opened Wire
  import opened Endpoint
  import opened EndpointLaws

  /** `orderly` selects the session rule of handoff.dfy: descriptors that came over
      the channel are used only after a later message of the transport's owner. */
  datatype Sys = Sys(a: End, b: End, ab: seq<Frame>, ba: seq<Frame>, cap: nat, orderly: bool)

  datatype Label = Label(atA: bool, step: Step)

  function Swap(s: Sys): Sys {
    Sys(s.b, s.a, s.ba, s.ab, s.cap, s.orderly)
  }

  predicate ValidStart(wa: u32, wb: u32, cap: nat) {
    ValidWindow(wa) && ValidWindow(wb) && cap > 0
  }

  /** The dialer and the listener, each built with a window of its own. Either may
      be the first end, so what is proved of the first end holds of both. */
  function Start(dialer: bool, wa: u32, wb: u32, cap: nat, orderly: bool): Sys {
    Sys(NewEnd(dialer, wa), NewEnd(!dialer, wb), [], [], cap, orderly)
  }

  /** What the owner may ask to be sent: a message that can be decoded, and no more
      descriptors than one frame can name. */
  predicate Askable(what: Outgoing) {
    match what
    case Plain(msg) => |msg.payload| <= MAX_PAYLOAD
    case Delegate(dirs) => 5 * |dirs| <= MAX_FRAME_PAYLOAD
  }

  /** A side that has delegated fewer than 2^31 streams has not reused an id. */
  const IDS: nat := 0x8000_0000

  /** The step is enabled at the end that takes it, and by the channel. A stream is
      named by its id, which composed runs never reuse. */
  predicate EnabledA(s: Sys, step: Step) {
    && Enabled(s.a, step)
    && (Emits(s.a, step) != [] ==> |s.ab| < s.cap)
    && match step
       case Reads(Receive(frame)) => s.ba != [] && s.ba[0] == frame
       case Reads(Materialize(h)) => h == s.a.reader.rest[0].id
       case App(StartPump(h)) => h == s.a.starting[0].id
       case App(BeginSend(_, what, _)) => Askable(what)
       case App(QueueMessage(task)) =>
         var what := s.a.tasks[task].what;
         what.Delegate? ==> |s.a.planned| + |what.dirs| <= IDS
       case Pump(h, p) =>
         s.orderly && (p.Offer? || p.OfferEof?) && s.a.outs[h].socket ==> s.a.outs[h].id in s.a.usable
       case _ => true
  }

  predicate Receives(step: Step) {
    step.Reads? && step.r.Receive?
  }

  function StepA(s: Sys, step: Step): Sys
    requires EnabledA(s, step)
  {
    s.(a := Apply(s.a, step), ab := s.ab + Emits(s.a, step), ba := if Receives(step) then s.ba[1..] else s.ba)
  }

  /** Most steps touch neither channel. */
  lemma QuietStep(s: Sys, step: Step)
    requires EnabledA(s, step) && !step.Writer? && !Receives(step)
    ensures StepA(s, step) == s.(a := Apply(s.a, step))
  {
    assert s.ab + [] == s.ab;
  }

  predicate EnabledIn(s: Sys, l: Label) {
    EnabledA(if l.atA then s else Swap(s), l.step)
  }

  function Next(s: Sys, l: Label): Sys
    requires EnabledIn(s, l)
  {
    if l.atA then StepA(s, l.step) else Swap(StepA(Swap(s), l.step))
  }

  /** A run: the states it passes through, and the labels between them. */
  datatype Run = Run(states: seq<Sys>, labels: seq<Label>)

  predicate Follows(r: Run, i: nat)
    requires i < |r.labels| && |r.states| == |r.labels| + 1
  {
    EnabledIn(r.states[i], r.labels[i]) && r.states[i + 1] == Next(r.states[i], r.labels[i])
  }

  predicate IsRun(r: Run) {
    |r.states| == |r.labels| + 1 && forall i {:trigger Follows(r, i)} :: 0 <= i < |r.labels| ==> Follows(r, i)
  }

  predicate IsStart(s: Sys) {
    && ValidStart(s.a.window, s.b.window, s.cap)
    && s == Start(s.a.dialer, s.a.window, s.b.window, s.cap, s.orderly)
  }

  /** A state two conforming ends can reach. */
  ghost predicate Reachable(s: Sys) {
    exists r: Run :: IsRun(r) && IsStart(r.states[0]) && r.states[|r.labels|] == s
  }

  // ---- either end first ---------------------------------------------------------------

  function SwapAll(states: seq<Sys>): (swapped: seq<Sys>)
    ensures |swapped| == |states| && forall i :: 0 <= i < |states| ==> swapped[i] == Swap(states[i])
  {
    seq(|states|, i requires 0 <= i < |states| => Swap(states[i]))
  }

  function FlipAll(labels: seq<Label>): (flipped: seq<Label>)
    ensures |flipped| == |labels|
    ensures forall i :: 0 <= i < |labels| ==> flipped[i] == Label(!labels[i].atA, labels[i].step)
  {
    seq(|labels|, i requires 0 <= i < |labels| => Label(!labels[i].atA, labels[i].step))
  }

  lemma NextBothWays(s: Sys, l: Label)
    requires EnabledIn(s, l)
    ensures EnabledIn(Swap(s), Label(!l.atA, l.step)) && Next(Swap(s), Label(!l.atA, l.step)) == Swap(Next(s, l))
  {
    assert Swap(Swap(s)) == s;
  }

  lemma FollowsBothWays(r: Run, q: Run, i: nat)
    requires IsRun(r) && q == Run(SwapAll(r.states), FlipAll(r.labels)) && i < |r.labels|
    ensures Follows(q, i)
  {
    assert Follows(r, i);
    NextBothWays(r.states[i], r.labels[i]);
  }

  /** Nothing tells the two ends apart but the parity of their ids: with the ends
      named the other way round, every run is a run. */
  lemma ReachableBothWays(s: Sys)
    ensures Reachable(s) <==> Reachable(Swap(s))
  {
    assert Swap(Swap(s)) == s;
    if Reachable(s) { ReachableSwapped(s); }
    if Reachable(Swap(s)) { ReachableSwapped(Swap(s)); }
  }

  lemma ReachableSwapped(s: Sys)
    requires Reachable(s)
    ensures Reachable(Swap(s))
  {
    var r :| IsRun(r) && IsStart(r.states[0]) && r.states[|r.labels|] == s;
    var q := Run(SwapAll(r.states), FlipAll(r.labels));
    forall i | 0 <= i < |r.labels|
      ensures Follows(q, i)
    {
      FollowsBothWays(r, q, i);
    }
    assert IsRun(q) && IsStart(q.states[0]) && q.states[|q.labels|] == Swap(s);
  }

  function InHand(r: Reader): seq<Frame> {
    if r.Hand? then [r.frame] else []
  }

  /** The frames from the first end that the second has not handled, oldest first. */
  function OnTheWay(s: Sys): seq<Frame> {
    InHand(s.b.reader) + s.ab + s.a.queue
  }

  // ---- what travels ------------------------------------------------------------------

  /** A frame a conforming end queues: never a second Hello, and nothing its peer's
      reader refuses. */
  predicate PlainFrame(f: Frame) {
    match f
    case Hello(_) => false
    case Data(_, bytes) => 0 < |bytes| <= PUMP_BUF
    case _ => Sendable(f)
  }

  predicate AllPlain(fs: seq<Frame>) {
    fs == [] || (PlainFrame(fs[0]) && AllPlain(fs[1..]))
  }

  lemma {:induction false} AllPlainAppend(fs: seq<Frame>, f: Frame)
    ensures AllPlain(fs + [f]) <==> AllPlain(fs) && PlainFrame(f)
  {
    if fs == [] {
      assert fs + [f] == [f];
    } else {
      assert (fs + [f])[1..] == fs[1..] + [f];
      AllPlainAppend(fs[1..], f);
    }
  }

  lemma AllPlainHead(f: Frame, rest: seq<Frame>)
    ensures AllPlain([f] + rest) <==> PlainFrame(f) && AllPlain(rest)
  {
    assert ([f] + rest)[0] == f && ([f] + rest)[1..] == rest;
  }

  function Greeting(e: End): Frame {
    Hello(HelloPayload(e.window))
  }

  /** One direction of the channel: the sender's Hello is the first frame written,
      once, and the receiver knows exactly the sender's window from then on. */
  predicate Greeted(a: End, b: End, ab: seq<Frame>) {
    && AllPlain(a.queue) && (!a.helloSent ==> ab == [])
    && if b.peerWindowed then
         a.helloSent && b.peerWindow == a.window && AllPlain(ab) && (b.reader.Hand? ==> PlainFrame(b.reader.frame))
       else if b.reader.Hand? then a.helloSent && AllPlain(ab) && b.reader.frame == Greeting(a)
       else
         (b.reader.Idle? || b.reader.Stopped?)
         && (a.helloSent && b.reader.Idle? ==> ab != [] && ab[0] == Greeting(a) && AllPlain(ab[1..]))
         && (a.helloSent && b.reader.Stopped? ==> ab == [] || AllPlain(ab[1..]))
  }

  /** Streams are named by their ids, and the senders' requests can be sent. */
  ghost predicate Tidy(e: End) {
    && ValidWindow(e.window)
    && (forall h :: h in e.outs ==> e.outs[h].id == h)
    && (forall h :: h in e.sinks ==> e.sinks[h].id == h)
    && (forall t :: t in e.tasks ==> Askable(e.tasks[t].what))
  }

  /** A conforming reader is stopped only by the transport, by the stream limit or
      by the system, never by the frames a conforming peer sends. */
  predicate StoppedFairly(e: End) {
    e.reader.Stopped? ==> e.reader.why.TransportDropped? || e.reader.why.TooManyStreams? || e.reader.why.NoDescriptor?
  }

  ghost predicate Sound(s: Sys) {
    && EndOk(s.a) && EndOk(s.b) && Tidy(s.a) && Tidy(s.b) && s.cap > 0
    && Greeted(s.a, s.b, s.ab) && Greeted(s.b, s.a, s.ba)
    && StoppedFairly(s.a) && StoppedFairly(s.b)
  }

  lemma StartIsSound(dialer: bool, wa: u32, wb: u32, cap: nat, orderly: bool)
    requires ValidStart(wa, wb, cap)
    ensures Sound(Start(dialer, wa, wb, cap, orderly))
  {
    StartsOk(dialer, wa);
    StartsOk(!dialer, wb);
  }
}
