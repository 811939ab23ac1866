/** The control channel: whatever streams share it, the messages and descriptors of
    one end's owners reach the other's in the order in which they were queued. And
    what follows for a client and a daemon that talk over it. */
module ControlLaws {
  import opened ByteStrings
  import opened Proto
  import opened Credit
  import opened Wire
  import opened Endpoint
  import opened Session
  import opened Handshake
  import AtRestLaws

  /** What an owner says, and `recv` reports. */
  datatype Word = Told(msg: Message, main: bool) | Handed(ids: seq<u32>)

  // ---- the words under way -----------------------------------------------------------------

  function IdsOf(specs: seq<Spec>): seq<u32> {
    if specs == [] then [] else [specs[0].id] + IdsOf(specs[1..])
  }

  function FrameWords(f: Frame): seq<Word> {
    match f
    case Control(msg, _, main) => [Told(msg, main)]
    case Fds(payload, _) => [Handed(IdsOf(DecodeFds(payload)))]
    case _ => []
  }

  function Words(fs: seq<Frame>): seq<Word> {
    if fs == [] then [] else FrameWords(fs[0]) + Words(fs[1..])
  }

  function ItemWord(item: Item): Word {
    match item
    case Note(msg, _, main) => Told(msg, main)
    case Descriptors(ids, _) => Handed(ids)
  }

  function ItemWords(items: seq<Item>): seq<Word> {
    if items == [] then [] else [ItemWord(items[0])] + ItemWords(items[1..])
  }

  function ReaderWords(r: Reader): seq<Word> {
    match r
    case Materializing(rest, done, _) => [Handed(done + IdsOf(rest))]
    case Surfacing(item) => [ItemWord(item)]
    case _ => []
  }

  /** What an end has not given its owner yet, if `fs` is on its way to it. */
  function ToHear(e: End, fs: seq<Frame>): seq<Word> {
    ItemWords(e.ctrl) + ReaderWords(e.reader) + Words(InHand(e.reader) + fs)
  }

  function Pending(s: Sys): seq<Word> {
    ToHear(s.b, s.ab + s.a.queue)
  }

  lemma {:induction false} WordsJoin(a: seq<Frame>, b: seq<Frame>)
    ensures Words(a + b) == Words(a) + Words(b)
  {
    if a == [] {
      assert a + b == b;
    } else {
      assert (a + b)[0] == a[0] && (a + b)[1..] == a[1..] + b;
      WordsJoin(a[1..], b);
    }
  }

  lemma WordsOfOne(f: Frame)
    ensures Words([f]) == FrameWords(f)
  {
    assert [f][1..] == [];
  }

  lemma {:induction false} ItemsAppend(items: seq<Item>, item: Item)
    ensures ItemWords(items + [item]) == ItemWords(items) + [ItemWord(item)]
  {
    if items == [] {
      assert items + [item] == [item];
    } else {
      assert (items + [item])[0] == items[0] && (items + [item])[1..] == items[1..] + [item];
      ItemsAppend(items[1..], item);
    }
  }

  // ---- the end that speaks -----------------------------------------------------------------

  function SaidBy(e: End, step: Step): seq<Word>
    requires Enabled(e, step)
  {
    match step
    case App(QueueMessage(task)) => FrameWords(TaskFrame(e, task))
    case _ => []
  }

  lemma QueueAppends(queue: seq<Frame>, f: Frame)
    ensures Words(queue + [f]) == Words(queue) + FrameWords(f)
  {
    WordsJoin(queue, [f]);
    WordsOfOne(f);
  }

  lemma {:induction false} WriterSays(e: End, w: WriterStep)
    requires WriterEnabled(e, w)
    ensures Words(Emits(e, Writer(w)) + ApplyWriter(e, w).queue) == Words(e.queue)
  {
    match w
    case SayHello => WordlessFirst(Greeting(e), e.queue);
    case GrantOwed(id) => WordlessFirst(Window(id, e.flushing[id]), e.queue);
    case WriteQueued => assert [e.queue[0]] + e.queue[1..] == e.queue;
    case TakeOwed => assert [] + e.queue == e.queue;
  }

  lemma {:induction false} WordlessFirst(f: Frame, fs: seq<Frame>)
    requires FrameWords(f) == []
    ensures Words([f] + fs) == Words(fs)
  {
    assert ([f] + fs)[1..] == fs;
  }

  lemma PumpSays(e: End, h: Handle, o: Out, p: PumpStep)
    requires h in e.outs && e.outs[h] == o && PumpEnabled(e, o, p)
    ensures Words(ApplyPump(e, h, p).queue) == Words(e.queue)
  {
    match p
    case Queue => QueueAppends(e.queue, Data(o.id, o.phase.bytes));
    case QueueClose => QueueAppends(e.queue, Close(o.id));
    case Offer(_) | OfferEof | Admit | Retry | Read(_) | Tally | Quit | Drop => assert e.queue + [] == e.queue;
  }

  lemma SinkSays(e: End, h: Handle, k: Sink, m: SinkStep)
    requires h in e.sinks && e.sinks[h] == k && SinkEnabled(e, h, k, m)
    ensures Words(ApplySink(e, h, m).queue) == Words(e.queue)
  {
    if m.QueueGrant? {
      QueueAppends(e.queue, Window(k.id, k.pending.value));
    } else {
      assert e.queue + [] == e.queue;
    }
  }

  lemma AppSays(e: End, a: AppStep)
    requires AppEnabled(e, a)
    ensures Words(ApplyApp(e, a).queue) == Words(e.queue) + SaidBy(e, App(a))
  {
    match a
    case QueueMessage(task) => QueueAppends(e.queue, TaskFrame(e, task));
    case AppReceive | BeginSend(_, _, _) | Aim(_) | Pass(_) | StartPump(_) | CloseFlow =>
      assert ApplyApp(e, a).queue == e.queue;
  }

  lemma ReaderIsSilent(e: End, r: ReaderStep)
    requires ReaderEnabled(e, r)
    ensures ApplyReader(e, r).queue == e.queue
  {
    match r
    case Inspect => FrameIsSilent(e, e.reader.frame);
    case Receive(_) | Count | Deliver | Owe | Materialize(_) | MaterializeFails | FinishFds | Surface | Shutdown =>
  }

  lemma FrameIsSilent(e: End, f: Frame)
    ensures HandleFrame(e, f).queue == e.queue && HandleFrame(e, f).ctrl == e.ctrl
  {
    match f
    case Hello(_) | Control(_, _, _) | Fds(_, _) | Data(_, _) | Close(_) | Window(_, _) | Unknown =>
  }

  /** Only a queued message adds a word, at the end of what is on its way. */
  lemma {:induction false} StepSays(e: End, step: Step)
    requires Enabled(e, step)
    ensures Words(Emits(e, step) + Apply(e, step).queue) == Words(e.queue) + SaidBy(e, step)
  {
    match step
    case Writer(w) => WriterSays(e, w);
    case Reads(r) => ReaderIsSilent(e, r); assert [] + e.queue == e.queue;
    case App(a) => AppSays(e, a); assert [] + ApplyApp(e, a).queue == ApplyApp(e, a).queue;
    case Pump(h, p) => PumpSays(e, h, e.outs[h], p); assert [] + ApplyPump(e, h, p).queue == ApplyPump(e, h, p).queue;
    case Drain(h, k) => SinkSays(e, h, e.sinks[h], k); assert [] + ApplySink(e, h, k).queue == ApplySink(e, h, k).queue;
  }

  lemma {:induction false} SpeakerStep(s: Sys, step: Step)
    requires EnabledA(s, step)
    ensures Pending(StepA(s, step)) == Pending(s) + SaidBy(s.a, step)
  {
    StepSays(s.a, step);
    var more, queue := Emits(s.a, step), Apply(s.a, step).queue;
    RowSays(InHand(s.b.reader), s.ab, s.a.queue, more, queue, SaidBy(s.a, step));
  }

  lemma {:induction false} RowSays(hand: seq<Frame>, ab: seq<Frame>, queue: seq<Frame>, more: seq<Frame>,
          queue': seq<Frame>, said: seq<Word>)
    requires Words(more + queue') == Words(queue) + said
    ensures Words(hand + (ab + more + queue')) == Words(hand + (ab + queue)) + said
  {
    Regroup(hand, ab, more, queue');
    Associate(hand, ab, queue);
    EndSays(hand + ab, queue, more + queue', said);
  }

  lemma {:induction false} EndSays(row: seq<Frame>, queue: seq<Frame>, queue': seq<Frame>, said: seq<Word>)
    requires Words(queue') == Words(queue) + said
    ensures Words(row + queue') == Words(row + queue) + said
  {
    WordsJoin(row, queue');
    WordsJoin(row, queue);
    Associate(Words(row), Words(queue), said);
  }

  lemma Regroup<T>(a: seq<T>, b: seq<T>, c: seq<T>, d: seq<T>)
    ensures a + (b + c + d) == (a + b) + (c + d)
  {
  }

  lemma Associate<T>(a: seq<T>, b: seq<T>, c: seq<T>)
    ensures a + (b + c) == a + b + c
  {
  }

  // ---- the end that listens ----------------------------------------------------------------

  function HeardBy(e: End, step: Step): seq<Word>
    requires Enabled(e, step)
  {
    match step
    case App(AppReceive) => [ItemWord(e.ctrl[0])]
    case _ => []
  }

  /** Nothing is heard, and nothing to hear is lost. */
  predicate HearsLater(e: End, e': End, fs: seq<Frame>) {
    e'.ctrl == e.ctrl && ToHear(e', fs) == ToHear(e, fs)
  }

  lemma FrameHeard(e: End, f: Frame, fs: seq<Frame>)
    requires e.reader == Reader.Hand(f) && !HandleFrame(e, f).reader.Stopped?
    ensures HearsLater(e, HandleFrame(e, f), fs)
  {
    FrameIsSilent(e, f);
    FrameBecomes(e, f);
    WordsJoin([f], fs);
    WordsOfOne(f);
    HandHeard(ItemWords(e.ctrl), FrameWords(f), fs, Words(fs));
  }

  /** Out of the reader's hand a frame's words are what it works on. */
  lemma FrameBecomes(e: End, f: Frame)
    requires e.reader == Reader.Hand(f) && !HandleFrame(e, f).reader.Stopped?
    ensures ReaderWords(HandleFrame(e, f).reader) == FrameWords(f) && InHand(HandleFrame(e, f).reader) == []
  {
    match f
    case Fds(payload, _) => assert [] + IdsOf(DecodeFds(payload)) == IdsOf(DecodeFds(payload));
    case Control(_, _, _) | Hello(_) | Data(_, _) | Close(_) | Window(_, _) | Unknown =>
  }

  lemma HandHeard(items: seq<Word>, words: seq<Word>, fs: seq<Frame>, rest: seq<Word>)
    ensures items + [] + (words + rest) == items + words + rest && [] + fs == fs
  {
  }

  lemma OpeningHeard(e: End, h: Handle, fs: seq<Frame>)
    requires ReaderEnabled(e, Materialize(h))
    ensures HearsLater(e, DoMaterialize(e, h), fs)
  {
    var m := e.reader;
    assert m.done + IdsOf(m.rest) == m.done + [m.rest[0].id] + IdsOf(m.rest[1..]);
  }

  lemma ReaderHears(e: End, r: ReaderStep, fs: seq<Frame>)
    requires ReaderEnabled(e, r) && !r.Receive? && !r.Surface? && !ApplyReader(e, r).reader.Stopped?
    ensures HearsLater(e, ApplyReader(e, r), fs)
  {
    match r
    case Inspect => FrameHeard(e, e.reader.frame, fs);
    case Materialize(h) => OpeningHeard(e, h, fs);
    case FinishFds => assert e.reader.done + [] == e.reader.done;
    case Count | Deliver | Owe =>
  }

  lemma SurfacingHeard(e: End, item: Item, fs: seq<Frame>)
    requires e.reader == Surfacing(item)
    ensures ToHear(e.(ctrl := e.ctrl + [item], reader := Idle), fs) == ToHear(e, fs)
  {
    ItemsAppend(e.ctrl, item);
    assert ItemWords(e.ctrl) + [ItemWord(item)] + [] == ItemWords(e.ctrl) + [ItemWord(item)];
  }

  lemma ReceivingHeard(e: End, f: Frame, fs: seq<Frame>)
    requires e.reader.Idle?
    ensures ToHear(e.(reader := Reader.Hand(f)), fs) == ToHear(e, [f] + fs)
  {
    assert [] + ([f] + fs) == [f] + fs;
  }

  lemma AppHears(e: End, a: AppStep, fs: seq<Frame>)
    requires AppEnabled(e, a)
    ensures HeardBy(e, App(a)) + ItemWords(ApplyApp(e, a).ctrl) == ItemWords(e.ctrl)
      && ApplyApp(e, a).reader == e.reader
    ensures HeardBy(e, App(a)) + ToHear(ApplyApp(e, a), fs) == ToHear(e, fs)
  {
    match a
    case AppReceive =>
    case BeginSend(_, _, _) | Aim(_) | Pass(_) | QueueMessage(_) | StartPump(_) | CloseFlow =>
      assert ApplyApp(e, a).ctrl == e.ctrl;
      assert [] + ItemWords(e.ctrl) == ItemWords(e.ctrl);
  }

  /** What is heard comes off the front of what is to be heard; a reader that stops
      takes what it had not surfaced with it. */
  lemma StepHears(e: End, step: Step, fs: seq<Frame>)
    requires Enabled(e, step) && !Receives(step)
    ensures !Apply(e, step).reader.Stopped? ==> HeardBy(e, step) + ToHear(Apply(e, step), fs) == ToHear(e, fs)
    ensures Apply(e, step).reader.Stopped? ==> HeardBy(e, step) + ItemWords(Apply(e, step).ctrl) == ItemWords(e.ctrl)
  {
    match step
    case App(a) => AppHears(e, a, fs);
    case Reads(r) => ReaderStepHears(e, r, fs); HearsTheSame(ApplyReader(e, r), ApplyReader(e, r), fs);
    case Writer(w) => WriterHears(e, w); HearsTheSame(e, ApplyWriter(e, w), fs);
    case Pump(h, p) => HearsTheSame(e, ApplyPump(e, h, p), fs);
    case Drain(h, k) => HearsTheSame(e, ApplySink(e, h, k), fs);
  }

  lemma WriterHears(e: End, w: WriterStep)
    requires WriterEnabled(e, w)
    ensures ApplyWriter(e, w).ctrl == e.ctrl && ApplyWriter(e, w).reader == e.reader
  {
  }

  lemma HearsTheSame(e: End, e': End, fs: seq<Frame>)
    requires e'.ctrl == e.ctrl && e'.reader == e.reader
    ensures [] + ToHear(e', fs) == ToHear(e, fs) && [] + ItemWords(e'.ctrl) == ItemWords(e.ctrl)
  {
  }

  lemma ReaderStepHears(e: End, r: ReaderStep, fs: seq<Frame>)
    requires ReaderEnabled(e, r) && !r.Receive?
    ensures !ApplyReader(e, r).reader.Stopped? ==> ToHear(ApplyReader(e, r), fs) == ToHear(e, fs)
    ensures ApplyReader(e, r).reader.Stopped? ==> ApplyReader(e, r).ctrl == e.ctrl
  {
    if r.Surface? {
      SurfacingHeard(e, e.reader.item, fs);
    } else if ApplyReader(e, r).reader.Stopped? {
      if r.Inspect? { FrameIsSilent(e, e.reader.frame); }
    } else {
      ReaderHears(e, r, fs);
    }
  }

  // ---- a whole run ---------------------------------------------------------------------------

  /** Everything the owners of the first end have said, and everything the second
      end's owner has heard, up to the `i`th state. */
  function SaidUpTo(r: Run, i: nat): seq<Word>
    requires IsRun(r) && i <= |r.labels|
  {
    if i == 0 then []
    else
      assert Follows(r, i - 1);
      SaidUpTo(r, i - 1) + if r.labels[i - 1].atA then SaidBy(r.states[i - 1].a, r.labels[i - 1].step) else []
  }

  function HeardUpTo(r: Run, i: nat): seq<Word>
    requires IsRun(r) && i <= |r.labels|
  {
    if i == 0 then []
    else
      assert Follows(r, i - 1);
      HeardUpTo(r, i - 1) + if r.labels[i - 1].atA then [] else HeardBy(r.states[i - 1].b, r.labels[i - 1].step)
  }

  /** All that was said has been heard or is still to be heard, in that order; once
      the reader has stopped, all that was heard or can be is a first part of it. */
  predicate HeardInOrder(said: seq<Word>, heard: seq<Word>, s: Sys) {
    if s.b.reader.Stopped? then heard + ItemWords(s.b.ctrl) <= said else heard + Pending(s) == said
  }

  lemma {:induction false} SaidKeepsOrder(said: seq<Word>, heard: seq<Word>, s: Sys, step: Step)
    requires HeardInOrder(said, heard, s) && EnabledA(s, step)
    ensures HeardInOrder(said + SaidBy(s.a, step), heard, StepA(s, step))
  {
    SpeakerStep(s, step);
    MoreIsSaid(said, heard, s, StepA(s, step), SaidBy(s.a, step));
  }

  lemma {:induction false} MoreIsSaid(said: seq<Word>, heard: seq<Word>, s: Sys, t: Sys, more: seq<Word>)
    requires HeardInOrder(said, heard, s) && t.b == s.b && Pending(t) == Pending(s) + more
    ensures HeardInOrder(said + more, heard, t)
  {
    Associate(heard, Pending(s), more);
  }

  lemma {:induction false} HeardKeepsOrder(said: seq<Word>, heard: seq<Word>, s: Sys, step: Step)
    requires HeardInOrder(said, heard, Swap(s)) && EnabledA(s, step)
    ensures HeardInOrder(said, heard + HeardBy(s.a, step), Swap(StepA(s, step)))
  {
    if Receives(step) {
      assert heard + [] == heard;
      ReceiveKeepsOrder(s, step.r.frame, s.ba[1..]);
    } else {
      var fs := s.ba + s.b.queue;
      StepHears(s.a, step, fs);
      if s.a.reader.Stopped? { StaysStopped(s.a, step); }
      StillInOrder(said, heard, HeardBy(s.a, step), s.a, Apply(s.a, step), fs);
    }
  }

  lemma ReceiveKeepsOrder(s: Sys, f: Frame, rest: seq<Frame>)
    requires s.a.reader.Idle? && s.ba == [f] + rest
    ensures ToHear(s.a.(reader := Reader.Hand(f)), rest + s.b.queue) == ToHear(s.a, s.ba + s.b.queue)
  {
    ReceivingHeard(s.a, f, rest + s.b.queue);
    assert [f] + rest + s.b.queue == [f] + (rest + s.b.queue);
  }

  lemma StillInOrder(said: seq<Word>, heard: seq<Word>, more: seq<Word>, e: End, e': End, fs: seq<Frame>)
    requires if e.reader.Stopped? then heard + ItemWords(e.ctrl) <= said else heard + ToHear(e, fs) == said
    requires !e'.reader.Stopped? ==> more + ToHear(e', fs) == ToHear(e, fs)
    requires e'.reader.Stopped? ==> more + ItemWords(e'.ctrl) == ItemWords(e.ctrl)
    requires e.reader.Stopped? ==> e'.reader.Stopped?
    ensures if e'.reader.Stopped? then heard + more + ItemWords(e'.ctrl) <= said
      else heard + more + ToHear(e', fs) == said
  {
    Associate(heard, more, ToHear(e', fs));
    Associate(heard, more, ItemWords(e'.ctrl));
    Associate(ItemWords(e.ctrl), ReaderWords(e.reader), Words(InHand(e.reader) + fs));
    Associate(heard, ItemWords(e.ctrl), ReaderWords(e.reader) + Words(InHand(e.reader) + fs));
  }

  lemma StaysStopped(e: End, step: Step)
    requires Enabled(e, step) && e.reader.Stopped?
    ensures Apply(e, step).reader.Stopped?
  {
    match step
    case Writer(w) => WriterHears(e, w);
    case Reads(r) =>
    case App(a) => AppHears(e, a, []);
    case Pump(h, p) => assert ApplyPump(e, h, p).reader == e.reader;
    case Drain(h, k) => assert ApplySink(e, h, k).reader == e.reader;
  }

  lemma NextKeepsOrder(said: seq<Word>, heard: seq<Word>, s: Sys, l: Label)
    requires HeardInOrder(said, heard, s) && EnabledIn(s, l)
    ensures HeardInOrder(said + if l.atA then SaidBy(s.a, l.step) else [],
                         heard + if l.atA then [] else HeardBy(s.b, l.step), Next(s, l))
  {
    assert heard + [] == heard && said + [] == said;
    if l.atA {
      SaidKeepsOrder(said, heard, s, l.step);
    } else {
      assert Swap(Swap(s)) == s;
      HeardKeepsOrder(said, heard, Swap(s), l.step);
    }
  }

  /** The control channel is a FIFO on every run: what one owner has heard is always
      a first part of what the other's have said, and while the reader runs the rest
      is on its way. */
  lemma {:induction false} ControlIsHeardInOrder(r: Run, i: nat, s: Sys)
    requires IsRun(r) && IsStart(r.states[0]) && i <= |r.labels| && r.states[i] == s
    ensures HeardInOrder(SaidUpTo(r, i), HeardUpTo(r, i), s) && HeardUpTo(r, i) <= SaidUpTo(r, i)
    decreases i
  {
    if i == 0 {
      NothingSaidYet(s);
    } else {
      var t := r.states[i - 1];
      ControlIsHeardInOrder(r, i - 1, t);
      assert Follows(r, i - 1);
      NextKeepsOrder(SaidUpTo(r, i - 1), HeardUpTo(r, i - 1), t, r.labels[i - 1]);
    }
  }

  lemma NothingSaidYet(s: Sys)
    requires IsStart(s)
    ensures HeardInOrder([], [], s)
  {
    assert InHand(s.b.reader) + (s.ab + s.a.queue) == [];
  }

  // ---- a client and a daemon that talk over it -------------------------------------------------

  /** `recv`: descriptors come with a message that says how many they are. */
  function AsReceived(w: Word): Received {
    match w
    case Told(msg, _) => Received(msg, [])
    case Handed(ids) => Received(FdsMessage(|ids| % 0x1_0000_0000), ids)
  }

  function AllReceived(words: seq<Word>): (rs: seq<Received>)
    ensures |rs| == |words| && forall k :: 0 <= k < |words| ==> rs[k] == AsReceived(words[k])
  {
    seq(|words|, k requires 0 <= k < |words| => AsReceived(words[k]))
  }

  // ---- the session rule --------------------------------------------------------------------------

  predicate Names(w: Word, x: u32) {
    w.Handed? && x in w.ids
  }

  /** What was heard decides what may be used: a descriptor handed over may be used
      once a message of the transport's owner has been heard after it. */
  predicate Released(heard: seq<Word>, announced: set<u32>, usable: set<u32>) {
    && (forall j, x :: 0 <= j < |heard| && Names(heard[j], x) ==> x in announced)
    && (forall j, k, x :: 0 <= j < k < |heard| && Names(heard[j], x) && heard[k].Told? && heard[k].main ==> x in usable)
  }

  lemma HearingReleases(heard: seq<Word>, e: End)
    requires Released(heard, e.announced, e.usable) && e.ctrl != []
    ensures var e' := DoAppReceive(e);
            Released(heard + [ItemWord(e.ctrl[0])], e'.announced, e'.usable)
  {
  }

  lemma StepReleases(heard: seq<Word>, e: End, step: Step)
    requires Released(heard, e.announced, e.usable) && Enabled(e, step)
    ensures Released(heard + HeardBy(e, step), Apply(e, step).announced, Apply(e, step).usable)
  {
    if step == App(AppReceive) {
      HearingReleases(heard, e);
    } else {
      KeepsReleased(e, step);
      assert heard + [] == heard;
    }
  }

  lemma KeepsReleased(e: End, step: Step)
    requires Enabled(e, step) && step != App(AppReceive)
    ensures Apply(e, step).announced == e.announced && Apply(e, step).usable == e.usable
  {
    match step
    case Writer(w) => WriterReleases(e, w);
    case Reads(r) => ReaderReleases(e, r);
    case App(a) => AppReleases(e, a);
    case Pump(h, p) => assert ApplyPump(e, h, p).announced == e.announced && ApplyPump(e, h, p).usable == e.usable;
    case Drain(h, k) => assert ApplySink(e, h, k).announced == e.announced && ApplySink(e, h, k).usable == e.usable;
  }

  lemma WriterReleases(e: End, w: WriterStep)
    requires WriterEnabled(e, w)
    ensures ApplyWriter(e, w).announced == e.announced && ApplyWriter(e, w).usable == e.usable
  {
  }

  lemma AppReleases(e: End, a: AppStep)
    requires AppEnabled(e, a) && !a.AppReceive?
    ensures ApplyApp(e, a).announced == e.announced && ApplyApp(e, a).usable == e.usable
  {
    match a
    case BeginSend(_, _, _) | Aim(_) | Pass(_) | QueueMessage(_) | StartPump(_) | CloseFlow =>
  }

  lemma ReaderReleases(e: End, r: ReaderStep)
    requires ReaderEnabled(e, r)
    ensures ApplyReader(e, r).announced == e.announced && ApplyReader(e, r).usable == e.usable
  {
    match r
    case Inspect => FrameReleases(e, e.reader.frame);
    case Receive(_) | Count | Deliver | Owe | Materialize(_) | MaterializeFails | FinishFds | Surface | Shutdown =>
  }

  lemma FrameReleases(e: End, f: Frame)
    ensures HandleFrame(e, f).announced == e.announced && HandleFrame(e, f).usable == e.usable
  {
    match f
    case Hello(_) | Control(_, _, _) | Fds(_, _) | Data(_, _) | Close(_) | Window(_, _) | Unknown =>
  }

  lemma {:induction false} RunReleases(r: Run, i: nat, s: Sys)
    requires IsRun(r) && IsStart(r.states[0]) && i <= |r.labels| && r.states[i] == s
    ensures Released(HeardUpTo(r, i), s.b.announced, s.b.usable)
    decreases i
  {
    if i > 0 {
      var t := r.states[i - 1];
      RunReleases(r, i - 1, t);
      assert Follows(r, i - 1);
      NextReleases(HeardUpTo(r, i - 1), t, r.labels[i - 1]);
    }
  }

  lemma NextReleases(heard: seq<Word>, s: Sys, l: Label)
    requires Released(heard, s.b.announced, s.b.usable) && EnabledIn(s, l)
    ensures var t := Next(s, l);
            Released(heard + if l.atA then [] else HeardBy(s.b, l.step), t.b.announced, t.b.usable)
  {
    if l.atA {
      assert heard + [] == heard;
    } else {
      StepReleases(heard, s.b, l.step);
    }
  }

  /** The daemon keeps the session rule: when what it has heard configures a session,
      the session's descriptors may be used, because the End that let it go on came
      after them. */
  lemma ConfiguredMayUse(r: Run, i: nat, s: Sys, config: DaemonConfig)
    requires IsRun(r) && IsStart(r.states[0]) && i <= |r.labels| && r.states[i] == s
    requires forall k :: 0 <= k < |HeardUpTo(r, i)| ==> HeardUpTo(r, i)[k].Told? ==> HeardUpTo(r, i)[k].main
    ensures var session := Configure(config, NewDraft(config), AllReceived(HeardUpTo(r, i)));
            session.Ok? ==> forall fd :: fd in session.value.stdio ==> fd in s.b.usable
  {
    var heard := HeardUpTo(r, i);
    var rs := AllReceived(heard);
    RunReleases(r, i, s);
    if Configure(config, NewDraft(config), rs).Ok? {
      var j, k := StdioComesBeforeEnd(config, NewDraft(config), rs);
      assert rs[j] == AsReceived(heard[j]) && rs[k] == AsReceived(heard[k]);
      assert heard[j].Handed? && heard[k].Told?;
      forall fd | fd in rs[j].fds
        ensures fd in s.b.usable
      {
        assert Names(heard[j], fd);
      }
    }
  }

  /** A successful configuration has read its descriptors and, later, an End. */
  lemma {:induction false} StdioComesBeforeEnd(config: DaemonConfig, d: Draft, rs: seq<Received>)
          returns (j: int, k: nat)
    requires Configure(config, d, rs).Ok?
    ensures k < |rs| && rs[k].message.fieldType.EndField?
    ensures if j < 0 then d.stdio == Some(Configure(config, d, rs).value.stdio)
            else j < k && rs[j].fds == Configure(config, d, rs).value.stdio && |rs[j].fds| == 3
    ensures d.stdio.None? ==> j >= 0
    decreases |rs|
  {
    if rs[0].message.fieldType.EndField? {
      j, k := -1, 0;
    } else {
      var next := Absorb(config, d, rs[0]).value;
      j, k := StdioComesBeforeEnd(config, next, rs[1..]);
      if j >= 0 { j := j + 1; } else if rs[0].message.fieldType.FdField? { j := 0; }
      k := k + 1;
    }
  }

  // ---- what the owner asked for --------------------------------------------------------------------

  datatype Request = Request(what: Outgoing, main: bool)

  /** A message or a list of descriptors goes to the queue. */
  function RequestOf(e: End, step: Step): seq<Request>
    requires Enabled(e, step)
  {
    match step
    case App(QueueMessage(task)) => [Request(e.tasks[task].what, task == MAIN)]
    case _ => []
  }

  function RequestsUpTo(r: Run, i: nat): seq<Request>
    requires IsRun(r) && i <= |r.labels|
  {
    if i == 0 then []
    else
      assert Follows(r, i - 1);
      RequestsUpTo(r, i - 1) + if r.labels[i - 1].atA then RequestOf(r.states[i - 1].a, r.labels[i - 1].step) else []
  }

  /** `count` ids, of which the first is the `n`th the side has given out. */
  function Ids(dialer: bool, n: nat, count: nat): (ids: seq<u32>)
    ensures |ids| == count && forall k :: 0 <= k < count ==> ids[k] == IdOf(dialer, n + k)
    decreases count
  {
    if count == 0 then [] else [IdOf(dialer, n)] + Ids(dialer, n + 1, count - 1)
  }

  function DirsOf(q: Request): seq<Dir> {
    match q.what case Plain(_) => [] case Delegate(dirs) => dirs
  }

  /** What one request comes to, with `n` descriptors delegated before it. */
  function WordFor(dialer: bool, n: nat, q: Request): Word {
    match q.what
    case Plain(msg) => Told(msg, q.main)
    case Delegate(dirs) => Handed(Ids(dialer, n, |dirs|))
  }

  function WordsFor(dialer: bool, n: nat, qs: seq<Request>): seq<Word>
    decreases |qs|
  {
    if qs == [] then [] else [WordFor(dialer, n, qs[0])] + WordsFor(dialer, n + |DirsOf(qs[0])|, qs[1..])
  }

  function Delegated(qs: seq<Request>): nat {
    if qs == [] then 0 else |DirsOf(qs[0])| + Delegated(qs[1..])
  }

  lemma {:induction false} WordsJoinFor(dialer: bool, n: nat, a: seq<Request>, b: seq<Request>)
    ensures WordsFor(dialer, n, a + b) == WordsFor(dialer, n, a) + WordsFor(dialer, n + Delegated(a), b)
    ensures Delegated(a + b) == Delegated(a) + Delegated(b)
    decreases |a|
  {
    if a == [] {
      assert a + b == b;
    } else {
      assert (a + b)[0] == a[0] && (a + b)[1..] == a[1..] + b;
      WordsJoinFor(dialer, n + |DirsOf(a[0])|, a[1..], b);
      Associate([WordFor(dialer, n, a[0])], WordsFor(dialer, n + |DirsOf(a[0])|, a[1..]),
                WordsFor(dialer, n + Delegated(a), b));
    }
  }

  lemma {:induction false} PlanIds(dialer: bool, n: nat, dirs: seq<Dir>)
    ensures IdsOf(Plan(dialer, n, dirs)) == Ids(dialer, n, |dirs|)
    decreases |dirs|
  {
    if dirs != [] {
      PlanIds(dialer, n + 1, dirs[1..]);
      assert Plan(dialer, n, dirs)[1..] == Plan(dialer, n + 1, dirs[1..]);
    }
  }

  lemma {:induction false} RequestIsSaid(e: End, task: nat, q: Request)
    requires AppEnabled(e, QueueMessage(task)) && q == Request(e.tasks[task].what, task == MAIN)
    ensures FrameWords(TaskFrame(e, task)) == [WordFor(e.dialer, |e.planned|, q)]
    ensures DoQueueMessage(e, task).planned == e.planned + DirsOf(q) && DoQueueMessage(e, task).dialer == e.dialer
  {
    match q.what
    case Plain(_) => assert e.planned + [] == e.planned;
    case Delegate(dirs) =>
      FdsRoundTrip(Plan(e.dialer, |e.planned|, dirs));
      PlanIds(e.dialer, |e.planned|, dirs);
  }

  /** Ids are given out by requests and by nothing else. */
  lemma PlannedByStep(e: End, step: Step)
    requires Enabled(e, step) && RequestOf(e, step) == []
    ensures Apply(e, step).planned == e.planned && Apply(e, step).dialer == e.dialer && SaidBy(e, step) == []
  {
    match step
    case Writer(w) => PlannedByWriter(e, w);
    case Reads(r) => PlannedByReader(e, r);
    case App(a) => PlannedByApp(e, a);
    case Pump(h, p) => assert ApplyPump(e, h, p).planned == e.planned && ApplyPump(e, h, p).dialer == e.dialer;
    case Drain(h, k) => assert ApplySink(e, h, k).planned == e.planned && ApplySink(e, h, k).dialer == e.dialer;
  }

  lemma PlannedByWriter(e: End, w: WriterStep)
    requires WriterEnabled(e, w)
    ensures ApplyWriter(e, w).planned == e.planned && ApplyWriter(e, w).dialer == e.dialer
  {
  }

  lemma PlannedByApp(e: End, a: AppStep)
    requires AppEnabled(e, a) && !a.QueueMessage?
    ensures ApplyApp(e, a).planned == e.planned && ApplyApp(e, a).dialer == e.dialer
  {
    match a
    case AppReceive | BeginSend(_, _, _) | Aim(_) | Pass(_) | StartPump(_) | CloseFlow =>
  }

  lemma PlannedByReader(e: End, r: ReaderStep)
    requires ReaderEnabled(e, r)
    ensures ApplyReader(e, r).planned == e.planned && ApplyReader(e, r).dialer == e.dialer
  {
    match r
    case Inspect => PlannedByFrame(e, e.reader.frame);
    case Receive(_) | Count | Deliver | Owe | Materialize(_) | MaterializeFails | FinishFds | Surface | Shutdown =>
  }

  lemma PlannedByFrame(e: End, f: Frame)
    ensures HandleFrame(e, f).planned == e.planned && HandleFrame(e, f).dialer == e.dialer
  {
    match f
    case Hello(_) | Control(_, _, _) | Fds(_, _) | Data(_, _) | Close(_) | Window(_, _) | Unknown =>
  }

  lemma {:induction false} StepAsRequested(e: End, step: Step)
    requires Enabled(e, step)
    ensures SaidBy(e, step) == WordsFor(e.dialer, |e.planned|, RequestOf(e, step))
    ensures |Apply(e, step).planned| == |e.planned| + Delegated(RequestOf(e, step)) && Apply(e, step).dialer == e.dialer
  {
    if RequestOf(e, step) == [] {
      PlannedByStep(e, step);
    } else {
      var q := RequestOf(e, step)[0];
      RequestIsSaid(e, step.a.task, q);
      assert [q][1..] == [];
    }
  }

  /** On every run what is said is what was asked for: messages as they are, and for
      each list of descriptors the next ids of the side, in order. */
  lemma {:induction false} SaidAsRequested(r: Run, i: nat, s: Sys)
    requires IsRun(r) && i <= |r.labels| && r.states[i] == s && r.states[0].a.planned == []
    ensures SaidUpTo(r, i) == WordsFor(s.a.dialer, 0, RequestsUpTo(r, i))
    ensures |s.a.planned| == Delegated(RequestsUpTo(r, i)) && s.a.dialer == r.states[0].a.dialer
    decreases i
  {
    if i > 0 {
      var t := r.states[i - 1];
      SaidAsRequested(r, i - 1, t);
      assert Follows(r, i - 1);
      NextAsRequested(SaidUpTo(r, i - 1), RequestsUpTo(r, i - 1), t, r.labels[i - 1]);
    }
  }

  lemma {:induction false} NextAsRequested(said: seq<Word>, asked: seq<Request>, s: Sys, l: Label)
    requires EnabledIn(s, l) && said == WordsFor(s.a.dialer, 0, asked) && |s.a.planned| == Delegated(asked)
    ensures var t := Next(s, l);
            var more := if l.atA then RequestOf(s.a, l.step) else [];
            && said + (if l.atA then SaidBy(s.a, l.step) else []) == WordsFor(t.a.dialer, 0, asked + more)
            && |t.a.planned| == Delegated(asked + more) && t.a.dialer == s.a.dialer
  {
    if l.atA {
      StepAsRequested(s.a, l.step);
      WordsJoinFor(s.a.dialer, 0, asked, RequestOf(s.a, l.step));
    } else {
      assert asked + [] == asked && said + [] == said;
    }
  }

  // ---- a client and a daemon -----------------------------------------------------------------------

  /** The client's messages before its descriptors, each sent by itself. */
  function Settings(request: ClientRequest, secret: Option<Text>): (rs: seq<Received>)
    ensures rs + [Received(FdsMessage(3), []), Received(EndMessage(), [])] == Script(request, [], secret)
  {
    Opening(secret) + Entries(request.env) + Arguments(request.args)
    + [Received(SessionTypeMessage(request.sessionType), [])]
    + (if request.winsize.Some? then [Received(WinsizeMessage(request.winsize.value), [])] else [])
  }

  function Plains(rs: seq<Received>): (qs: seq<Request>)
    ensures |qs| == |rs| && forall k :: 0 <= k < |rs| ==> qs[k] == Request(Plain(rs[k].message), true)
  {
    seq(|rs|, k requires 0 <= k < |rs| => Request(Plain(rs[k].message), true))
  }

  /** What a client asks of its transport: its settings, its descriptors, of which it
      reads the first and writes the others, and End. */
  function ScriptRequests(request: ClientRequest, secret: Option<Text>): seq<Request> {
    Plains(Settings(request, secret))
    + [Request(Delegate([Dir.Read, Dir.Write, Dir.Write]), true), Request(Plain(EndMessage()), true)]
  }

  lemma {:induction false} PlainWords(dialer: bool, n: nat, rs: seq<Received>)
    ensures |WordsFor(dialer, n, Plains(rs))| == |rs| && Delegated(Plains(rs)) == 0
    ensures forall k :: 0 <= k < |rs| ==> WordsFor(dialer, n, Plains(rs))[k] == Told(rs[k].message, true)
    decreases |rs|
  {
    if rs != [] {
      assert Plains(rs)[1..] == Plains(rs[1..]);
      PlainWords(dialer, n, rs[1..]);
    }
  }

  lemma SettingsCarryNothing(request: ClientRequest, secret: Option<Text>, k: nat)
    requires k < |Settings(request, secret)|
    ensures Settings(request, secret)[k].fds == []
  {
    var start := if secret.Some? then 1 else 0;
    EntryAt(request.env, if k >= start then k - start else 0);
    var args := start + |request.env|;
    ArgumentAt(request.args, if k >= args then k - args else 0);
  }

  /** The ids of the first three descriptors of a side. */
  function Stdio(dialer: bool): seq<u32> {
    if dialer then [0, 2, 4] else [1, 3, 5]
  }

  lemma {:induction false} ScriptIsSaid(dialer: bool, request: ClientRequest, secret: Option<Text>)
    ensures AllReceived(WordsFor(dialer, 0, ScriptRequests(request, secret)))
         == Script(request, Stdio(dialer), secret)
    ensures forall w :: w in WordsFor(dialer, 0, ScriptRequests(request, secret)) && w.Told? ==> w.main
  {
    var settings, dirs := Settings(request, secret), [Dir.Read, Dir.Write, Dir.Write];
    var last := [Request(Delegate(dirs), true), Request(Plain(EndMessage()), true)];
    PlainWords(dialer, 0, settings);
    WordsJoinFor(dialer, 0, Plains(settings), last);
    LastWords(dialer);
    forall k | 0 <= k < |settings|
      ensures settings[k].fds == []
    {
      SettingsCarryNothing(request, secret, k);
    }
    var told := WordsFor(dialer, 0, Plains(settings));
    SettingsAreHeard(settings, told, Stdio(dialer));
    ScriptEnds(request, Stdio(dialer), secret);
    assert WordsFor(dialer, 0, ScriptRequests(request, secret))
        == told + [Handed(Stdio(dialer)), Told(EndMessage(), true)];
  }

  lemma SettingsAreHeard(settings: seq<Received>, told: seq<Word>, ids: seq<u32>)
    requires |told| == |settings| && |ids| == 3
    requires forall k :: 0 <= k < |settings| ==> told[k] == Told(settings[k].message, true) && settings[k].fds == []
    ensures AllReceived(told + [Handed(ids), Told(EndMessage(), true)])
         == settings + [Received(FdsMessage(3), ids), Received(EndMessage(), [])]
    ensures forall w :: w in told + [Handed(ids), Told(EndMessage(), true)] && w.Told? ==> w.main
  {
    forall k | 0 <= k < |settings|
      ensures AsReceived(told[k]) == settings[k]
    {
    }
  }

  lemma {:induction false} LastWords(dialer: bool)
    ensures WordsFor(dialer, 0, [Request(Delegate([Dir.Read, Dir.Write, Dir.Write]), true),
      Request(Plain(EndMessage()), true)])
         == [Handed(Stdio(dialer)), Told(EndMessage(), true)]
  {
    var q, p := Request(Delegate([Dir.Read, Dir.Write, Dir.Write]), true), Request(Plain(EndMessage()), true);
    assert [q, p][1..] == [p] && [p][1..] == [];
    assert Ids(dialer, 0, 3) == Stdio(dialer);
    assert WordsFor(dialer, 3, [p]) == [Told(EndMessage(), true)];
  }

  lemma ScriptEnds(request: ClientRequest, stdio: seq<Fd>, secret: Option<Text>)
    ensures Script(request, stdio, secret)
         == Settings(request, secret) + [Received(FdsMessage(3), stdio), Received(EndMessage(), [])]
  {
  }

  /** A client that asks its transport for its script is served: on every run in which
      that has been queued and has all been heard, whatever streams were busy
      meanwhile, the daemon has exactly the session the client asked for, with the
      three descriptors the client handed over, and may use them. */
  lemma ServedOverTheMux(r: Run, i: nat, s: Sys, config: DaemonConfig, request: ClientRequest, secret: Option<Text>)
    requires IsRun(r) && IsStart(r.states[0]) && i <= |r.labels| && r.states[i] == s
    requires RequestsUpTo(r, i) == ScriptRequests(request, secret) && !s.b.reader.Stopped? && Pending(s) == []
    ensures Configure(config, NewDraft(config), AllReceived(HeardUpTo(r, i)))
         == Ok(SessionRequest(Command(config, request.args),
                              config.fixedEnv + (if config.noClientEnv then [] else request.env),
                              request.sessionType, if s.a.dialer then [0, 2, 4] else [1, 3, 5],
                              Or(request.winsize, DEFAULT_WINSIZE)))
    ensures forall x :: x in Stdio(s.a.dialer) ==> x in s.b.usable
  {
    ControlIsHeardInOrder(r, i, s);
    assert HeardUpTo(r, i) + [] == HeardUpTo(r, i);
    SaidAsRequested(r, i, s);
    ScriptIsSaid(s.a.dialer, request, secret);
    ClientIsServed(config, request, Stdio(s.a.dialer), secret);
    ConfiguredMayUse(r, i, s, config);
  }

  /** Nothing said stays unheard: when nothing moves any more, each owner has heard
      all that the other's has sent. */
  lemma AllIsHeardAtRest(r: Run, i: nat, s: Sys)
    requires IsRun(r) && IsStart(r.states[0]) && i <= |r.labels| && r.states[i] == s
    requires AtRestLaws.Settled(s) && !s.a.reader.Stopped? && !s.b.reader.Stopped? && !AtRestLaws.WaitForEachOther(s)
    ensures Pending(s) == [] && HeardUpTo(r, i) == SaidUpTo(r, i)
  {
    ControlIsHeardInOrder(r, i, s);
    ReachedByRun(r, i, s);
    AtRestLaws.SettledIsAtRest(s);
    assert AtRestLaws.ReaderRests(Swap(s)) && AtRestLaws.WriterRests(s.a);
    assert InHand(s.b.reader) + (s.ab + s.a.queue) == [];
    assert HeardUpTo(r, i) + [] == HeardUpTo(r, i);
  }

  lemma ReachedByRun(r: Run, i: nat, s: Sys)
    requires IsRun(r) && IsStart(r.states[0]) && i <= |r.labels| && r.states[i] == s
    ensures Reachable(s)
  {
    var q := Run(r.states[..i + 1], r.labels[..i]);
    forall k | 0 <= k < |q.labels|
      ensures Follows(q, k)
    {
      assert Follows(r, k);
    }
    assert IsRun(q) && q.states[0] == r.states[0] && q.states[|q.labels|] == s;
  }
}
