/** The three waits of the mux (crates/capsudo-transport/src/mux.rs: `ready`,
    `barrier`, `wait_for_room`) at the grain of single loads, stores and
    notifications. Each registers for a notification, then looks at what it waits
    for one value at a time, and sleeps only if it saw nothing; each updater stores
    first and notifies later. endpoint.dfy lets a waiter go on as soon as it may;
    here is why it does. */
module Wakeups {
  import opened Credit

  /** Where a loop stands: it has looked at `next` values since it registered. */
  datatype Waiter =
    | Away
    | Checking(next: nat, woken: bool)
    | Parked(woken: bool)

  /** `notify_waiters` reaches everyone who has registered, asleep or not. */
  function Woken(w: Waiter): Waiter {
    match w
    case Away => Away
    case Checking(next, _) => Checking(next, true)
    case Parked(_) => Parked(true)
  }

  /** The waiter looks at its next value: `last` says it is the last one. */
  function Looked(w: Waiter, holds: bool, last: bool): Waiter
    requires w.Checking?
  {
    if holds then Away else if last then Parked(w.woken) else Checking(w.next + 1, w.woken)
  }

  /** Registered, not notified yet, and past its first `n` values. */
  predicate Asleep(w: Waiter, n: nat) {
    (w.Checking? && !w.woken && w.next >= n) || (w.Parked? && !w.woken)
  }

  // ---- a stream's sender and the barriers that watch it ----------------------------------

  datatype HelloStage = Before | Added | Told
  datatype DropStage = Staying | Unmapped | Marked | Gone
  datatype CloseStage = Quiet | Stored | Swept

  /** One `Progress`, its pump waiting in `ready`, and one barrier waiting for it.
      `mapped` says the stream map holds it, `cloned` how many grants have found it
      there and not been added, `granting` how many have been added and not
      announced, `counting` that `sent` has moved and `progressed` has not been
      notified. `displaced` is history: another stream has taken its id. */
  datatype Stream = Stream(
    closed: bool, windowed: bool, available: int, sent: nat, done: bool,
    mapped: bool, displaced: bool,
    sender: Waiter, barrier: Waiter, target: nat, cloned: nat,
    granting: nat, hello: HelloStage, counting: bool, dropping: DropStage, closing: CloseStage)

  datatype StreamStep =
    | SenderRegisters | SenderLooks | SenderWakes
    | BarrierRegisters(target: nat) | BarrierLooks | BarrierWakes
    | Charge(cost: nat) | CountSent(n: nat) | TellSent
    | FindStream | AddGrant(n: nat) | TellGrant
    | HelloAdds(window: nat) | HelloTells | HelloEnds
    | Displace
    | DropUnmaps | DropMarks | DropTells
    | CloseStores | CloseSweeps

  /** The pump is between two calls of `ready`. */
  predicate Pumping(s: Stream) {
    s.sender.Away? && !s.counting && s.dropping.Staying?
  }

  /** `take_hello` holds the map's lock from its first addition to its flag. */
  predicate Unlocked(s: Stream) {
    s.hello.Before? || s.windowed
  }

  predicate StreamEnabled(s: Stream, step: StreamStep) {
    match step
    case SenderRegisters => Pumping(s)
    case SenderLooks => s.sender.Checking?
    case SenderWakes => s.sender.Parked? && s.sender.woken
    case BarrierRegisters(_) => s.barrier.Away?
    case BarrierLooks => s.barrier.Checking?
    case BarrierWakes => s.barrier.Parked? && s.barrier.woken
    case Charge(_) => Pumping(s)
    case CountSent(_) => Pumping(s)
    case TellSent => s.counting
    case FindStream => s.mapped && Unlocked(s)
    case AddGrant(_) => s.cloned > 0
    case TellGrant => s.granting > 0
    case HelloAdds(_) => s.mapped && !s.windowed && s.hello.Before?
    case HelloTells => s.hello.Added?
    case HelloEnds => s.hello.Told? || (s.hello.Before? && !s.mapped)
    case Displace => s.mapped && Unlocked(s)
    case DropUnmaps => Pumping(s) && Unlocked(s)
    case DropMarks => s.dropping.Unmapped?
    case DropTells => s.dropping.Marked?
    case CloseStores => true
    case CloseSweeps => s.closing.Stored? && Unlocked(s)
  }

  function StreamApply(s: Stream, step: StreamStep): Stream
    requires StreamEnabled(s, step)
  {
    match step
    case SenderRegisters => s.(sender := Checking(0, false))
    case SenderLooks => s.(sender := Looked(s.sender, SenderSees(s, s.sender.next), s.sender.next >= 2))
    case SenderWakes => s.(sender := Away)
    case BarrierRegisters(target) => s.(barrier := Checking(0, false), target := target)
    case BarrierLooks => s.(barrier := Looked(s.barrier, BarrierSees(s, s.barrier.next), s.barrier.next >= 2))
    case BarrierWakes => s.(barrier := Away)
    case Charge(cost) => s.(available := s.available - cost)
    case CountSent(n) => s.(sent := s.sent + n, counting := true)
    case TellSent => s.(counting := false, barrier := Woken(s.barrier))
    case FindStream => s.(cloned := s.cloned + 1)
    case AddGrant(n) => s.(available := s.available + n, cloned := s.cloned - 1, granting := s.granting + 1)
    case TellGrant => s.(granting := s.granting - 1, sender := Woken(s.sender))
    case HelloAdds(window) => s.(available := s.available + window, hello := Added)
    case HelloTells => s.(hello := Told, sender := Woken(s.sender))
    case HelloEnds => s.(windowed := true)
    case Displace => s.(mapped := false, displaced := true)
    case DropUnmaps => s.(mapped := false, dropping := Unmapped)
    case DropMarks => s.(done := true, dropping := Marked)
    case DropTells => s.(dropping := Gone, barrier := Woken(s.barrier))
    case CloseStores => s.(closed := true, closing := Stored)
    case CloseSweeps => Sweep(s)
  }

  /** The values `ready` looks at, in its order. */
  predicate SenderSees(s: Stream, n: nat) {
    if n == 0 then s.closed else if n == 1 then !s.windowed else s.available > 0
  }

  predicate BarrierSees(s: Stream, n: nat) {
    if n == 0 then s.closed else if n == 1 then s.done else s.sent >= s.target
  }

  /** `close` notifies the streams it finds in the map. */
  function Sweep(s: Stream): Stream {
    s.(closing := Swept, sender := if s.mapped then Woken(s.sender) else s.sender,
       barrier := if s.mapped then Woken(s.barrier) else s.barrier)
  }

  predicate SenderMayGo(s: Stream) {
    s.closed || !s.windowed || s.available > 0
  }

  predicate BarrierMayGo(s: Stream) {
    s.closed || s.done || s.sent >= s.target
  }

  /** Somebody has stored something, or is about to, and has yet to notify the
      waiter. */
  predicate SenderToBeTold(s: Stream) {
    s.cloned > 0 || s.granting > 0 || s.hello.Added? || (s.closing.Stored? && s.mapped)
  }

  predicate BarrierToBeTold(s: Stream) {
    s.counting || s.dropping.Unmapped? || s.dropping.Marked? || (s.closing.Stored? && s.mapped)
  }

  /** Every value the waiter has passed is still false, or its notification is on
      its way; only the map can break the promise of `close`. */
  predicate WakeInv(s: Stream) {
    Registered(s) && SenderInv(s) && BarrierInv(s)
  }

  predicate Registered(s: Stream) {
    (s.mapped || s.displaced || !s.dropping.Staying?) && (s.displaced ==> !s.mapped)
  }

  predicate SenderInv(s: Stream) {
    && (!s.sender.Away? ==> s.dropping.Staying?)
    && (Asleep(s.sender, 1) && s.closed ==> (s.closing.Stored? && s.mapped) || s.displaced)
    && (Asleep(s.sender, 2) ==> s.windowed)
    && (s.sender.Parked? && !s.sender.woken && s.available > 0 ==> s.granting > 0)
  }

  predicate BarrierInv(s: Stream) {
    && (s.done <==> s.dropping.Marked? || s.dropping.Gone?)
    && (Asleep(s.barrier, 1) && s.closed ==>
          (s.closing.Stored? && s.mapped) || !s.dropping.Staying? || s.displaced)
    && (Asleep(s.barrier, 2) && s.done ==> s.dropping.Marked?)
    && (s.barrier.Parked? && !s.barrier.woken && s.sent >= s.target ==> s.counting)
  }

  /** A stream as `open` leaves it, at whatever moment of the session. */
  predicate NewStream(s: Stream) {
    && s.mapped && !s.displaced && s.sender.Away? && s.barrier.Away? && !s.done
    && s.cloned == 0 && s.granting == 0 && !s.counting && s.dropping.Staying?
    && (s.hello.Before? || s.windowed) && (s.windowed ==> s.available > 0) && (s.closing.Quiet? ==> !s.closed)
  }

  lemma NewStreamsWake(s: Stream)
    requires NewStream(s)
    ensures WakeInv(s)
  {
  }

  // ---- what is waited for --------------------------------------------------------------------

  /** A sender may go on if the transport is closed or it may send, and a barrier if
      the transport is closed, the stream is done, or enough of it is framed. A waiter
      that looks at its values undisturbed sleeps exactly if it may not go on. */
  lemma LooksDecide(s: Stream)
    ensures SenderMayGo(s) <==> s.closed || MaySend(s.windowed, s.available)
    ensures BarrierMayGo(s) <==> s.closed || s.done || s.sent >= s.target
    ensures s.sender == Checking(0, false) ==>
      ThreeLooks(s, SenderLooks).sender == if SenderMayGo(s) then Away else Parked(false)
    ensures s.barrier == Checking(0, false) ==>
      ThreeLooks(s, BarrierLooks).barrier == if BarrierMayGo(s) then Away else Parked(false)
  {
  }

  function ThreeLooks(s: Stream, look: StreamStep): Stream {
    Look(Look(Look(s, look), look), look)
  }

  function Look(s: Stream, look: StreamStep): Stream {
    if StreamEnabled(s, look) then StreamApply(s, look) else s
  }

  /** Whoever is to tell a waiter can do so, and the waiter is then awake: at once, or
      after a step that brings it nearer. */
  lemma GrantersTell(s: Stream, n: nat)
    ensures s.granting > 0 ==> StreamEnabled(s, TellGrant) && StreamApply(s, TellGrant).sender == Woken(s.sender)
    ensures s.cloned > 0 ==> StreamEnabled(s, AddGrant(n)) && StreamApply(s, AddGrant(n)).granting == s.granting + 1
    ensures s.mapped && Unlocked(s) ==> StreamEnabled(s, FindStream)
    ensures s.hello.Added? ==> StreamEnabled(s, HelloTells) && StreamApply(s, HelloTells).sender == Woken(s.sender)
    ensures s.hello.Told? ==> StreamEnabled(s, HelloEnds) && Unlocked(StreamApply(s, HelloEnds))
  {
  }

  lemma PumpsTell(s: Stream)
    ensures s.counting ==> StreamEnabled(s, TellSent) && StreamApply(s, TellSent).barrier == Woken(s.barrier)
    ensures s.dropping.Unmapped? ==> StreamEnabled(s, DropMarks) && StreamApply(s, DropMarks).dropping.Marked?
    ensures s.dropping.Marked? ==> StreamEnabled(s, DropTells) && StreamApply(s, DropTells).barrier == Woken(s.barrier)
    ensures s.closing.Stored? && s.mapped && Unlocked(s) ==> StreamEnabled(s, CloseSweeps)
    ensures StreamEnabled(s, CloseSweeps) && s.mapped ==>
      var t := StreamApply(s, CloseSweeps); t.sender == Woken(s.sender) && t.barrier == Woken(s.barrier)
  {
  }

  lemma TheWokenGoOn(s: Stream)
    ensures s.sender == Parked(true) ==> StreamEnabled(s, SenderWakes) && StreamApply(s, SenderWakes).sender.Away?
    ensures s.barrier == Parked(true) ==> StreamEnabled(s, BarrierWakes) && StreamApply(s, BarrierWakes).barrier.Away?
    ensures Woken(Parked(false)) == Parked(true)
  {
  }

  // ---- every step keeps it -----------------------------------------------------------------

  lemma SenderStepKeeps(s: Stream, step: StreamStep)
    requires WakeInv(s) && StreamEnabled(s, step) && (step.SenderRegisters? || step.SenderLooks? || step.SenderWakes?)
    ensures WakeInv(StreamApply(s, step))
  {
    assert StreamApply(s, step) == s.(sender := StreamApply(s, step).sender);
  }

  lemma BarrierStepKeeps(s: Stream, step: StreamStep)
    requires WakeInv(s) && StreamEnabled(s, step)
    requires step.BarrierRegisters? || step.BarrierLooks? || step.BarrierWakes?
    ensures WakeInv(StreamApply(s, step))
  {
    var s' := StreamApply(s, step);
    assert s' == s.(barrier := s'.barrier, target := s'.target);
  }

  lemma PumpStepKeeps(s: Stream, step: StreamStep)
    requires WakeInv(s) && StreamEnabled(s, step) && (step.Charge? || step.CountSent? || step.TellSent?)
    ensures WakeInv(StreamApply(s, step))
  {
    match step
    case Charge(cost) => assert StreamApply(s, step) == s.(available := s.available - cost);
    case CountSent(n) => assert StreamApply(s, step) == s.(sent := s.sent + n, counting := true);
    case TellSent => assert StreamApply(s, step) == s.(counting := false, barrier := Woken(s.barrier));
  }

  lemma GrantStepKeeps(s: Stream, step: StreamStep)
    requires WakeInv(s) && StreamEnabled(s, step) && (step.FindStream? || step.AddGrant? || step.TellGrant?)
    ensures WakeInv(StreamApply(s, step))
  {
    var s' := StreamApply(s, step);
    assert s' == s.(available := s'.available, cloned := s'.cloned, granting := s'.granting, sender := s'.sender);
  }

  lemma HelloStepKeeps(s: Stream, step: StreamStep)
    requires WakeInv(s) && StreamEnabled(s, step) && (step.HelloAdds? || step.HelloTells? || step.HelloEnds?)
    ensures WakeInv(StreamApply(s, step))
  {
    match step
    case HelloAdds(window) => assert StreamApply(s, step) == s.(available := s.available + window, hello := Added);
    case HelloTells => assert StreamApply(s, step) == s.(hello := Told, sender := Woken(s.sender));
    case HelloEnds => assert StreamApply(s, step) == s.(windowed := true);
  }

  lemma DropStepKeeps(s: Stream, step: StreamStep)
    requires WakeInv(s) && StreamEnabled(s, step)
    requires step.Displace? || step.DropUnmaps? || step.DropMarks? || step.DropTells?
    ensures WakeInv(StreamApply(s, step))
  {
    match step
    case Displace => assert StreamApply(s, step) == s.(mapped := false, displaced := true);
    case DropUnmaps => assert StreamApply(s, step) == s.(mapped := false, dropping := Unmapped);
    case DropMarks => assert StreamApply(s, step) == s.(done := true, dropping := Marked);
    case DropTells => assert StreamApply(s, step) == s.(dropping := Gone, barrier := Woken(s.barrier));
  }

  lemma CloseStepKeeps(s: Stream, step: StreamStep)
    requires WakeInv(s) && StreamEnabled(s, step) && (step.CloseStores? || step.CloseSweeps?)
    ensures WakeInv(StreamApply(s, step))
  {
    if step.CloseStores? {
      assert StreamApply(s, step) == s.(closed := true, closing := Stored);
    } else {
      assert StreamApply(s, step) == Sweep(s);
    }
  }

  lemma WakeInvKept(s: Stream, step: StreamStep)
    requires WakeInv(s) && StreamEnabled(s, step)
    ensures WakeInv(StreamApply(s, step))
  {
    match step
    case SenderRegisters | SenderLooks | SenderWakes => SenderStepKeeps(s, step);
    case BarrierRegisters(_) | BarrierLooks | BarrierWakes => BarrierStepKeeps(s, step);
    case Charge(_) | CountSent(_) | TellSent => PumpStepKeeps(s, step);
    case FindStream | AddGrant(_) | TellGrant => GrantStepKeeps(s, step);
    case HelloAdds(_) | HelloTells | HelloEnds => HelloStepKeeps(s, step);
    case Displace | DropUnmaps | DropMarks | DropTells => DropStepKeeps(s, step);
    case CloseStores | CloseSweeps => CloseStepKeeps(s, step);
  }

  predicate StreamRuns(s: Stream, steps: seq<StreamStep>, t: Stream)
    decreases |steps|
  {
    if steps == [] then t == s
    else StreamEnabled(s, steps[0]) && StreamRuns(StreamApply(s, steps[0]), steps[1..], t)
  }

  lemma {:induction false} WakeInvOnRuns(s: Stream, steps: seq<StreamStep>, t: Stream)
    requires WakeInv(s) && StreamRuns(s, steps, t)
    ensures WakeInv(t)
    decreases |steps|
  {
    if steps != [] {
      WakeInvKept(s, steps[0]);
      WakeInvOnRuns(StreamApply(s, steps[0]), steps[1..], t);
    }
  }

  // ---- which wakeups are lost ----------------------------------------------------------------

  /** Asleep although it may go on, with nobody about to say so. */
  predicate SenderMissed(s: Stream) {
    s.sender == Parked(false) && SenderMayGo(s) && !SenderToBeTold(s)
  }

  predicate BarrierMissed(s: Stream) {
    s.barrier == Parked(false) && BarrierMayGo(s) && !BarrierToBeTold(s)
  }

  /** Asleep when the transport was closed, after another stream had taken the id. */
  predicate SenderLost(s: Stream) {
    && s.sender == Parked(false) && s.closed && s.displaced && !s.mapped && s.dropping.Staying?
    && s.cloned == 0 && s.granting == 0 && !s.hello.Added?
  }

  predicate BarrierLost(s: Stream) {
    s.barrier == Parked(false) && s.closed && s.displaced && !s.mapped && s.dropping.Staying? && !s.counting
  }

  /** Under every interleaving of grants, Hello, counts, drop and close, a wakeup is
      missed exactly when another stream has taken the id and the transport is
      closed, and nothing else under way will wake the waiter. Without both of them
      none is ever lost. */
  lemma NoLostWakeups(s: Stream, steps: seq<StreamStep>, t: Stream)
    requires NewStream(s) && StreamRuns(s, steps, t)
    ensures SenderMissed(t) <==> SenderLost(t)
    ensures BarrierMissed(t) <==> BarrierLost(t)
  {
    NewStreamsWake(s);
    WakeInvOnRuns(s, steps, t);
  }

  lemma StaysLost(s: Stream, step: StreamStep)
    requires SenderLost(s) && StreamEnabled(s, step)
    ensures SenderLost(StreamApply(s, step))
    ensures BarrierLost(s) ==> BarrierLost(StreamApply(s, step))
  {
    match step
    case SenderRegisters | SenderLooks | SenderWakes | BarrierRegisters(_) | BarrierLooks | BarrierWakes =>
    case Charge(_) | CountSent(_) | TellSent | FindStream | AddGrant(_) | TellGrant | HelloAdds(_) =>
    case HelloTells | HelloEnds | Displace | DropUnmaps | DropMarks | DropTells | CloseStores | CloseSweeps =>
  }

  /** A sender that missed its wakeup sleeps for good, whatever happens later, and so
      does a barrier that missed its own and waits for that sender. */
  lemma {:induction false} LostForGood(s: Stream, steps: seq<StreamStep>, t: Stream)
    requires SenderLost(s) && StreamRuns(s, steps, t)
    ensures SenderLost(t) && (BarrierLost(s) ==> BarrierLost(t))
    decreases |steps|
  {
    if steps != [] {
      StaysLost(s, steps[0]);
      LostForGood(StreamApply(s, steps[0]), steps[1..], t);
    }
  }

  // ---- a run that loses one --------------------------------------------------------------------

  lemma {:induction false} RunsOn(s: Stream, steps: seq<StreamStep>, t: Stream, step: StreamStep)
    requires StreamRuns(s, steps, t) && StreamEnabled(t, step)
    ensures StreamRuns(s, steps + [step], StreamApply(t, step))
    decreases |steps|
  {
    if steps == [] {
      assert steps + [step] == [step] && [step][1..] == [];
    } else {
      assert (steps + [step])[0] == steps[0] && (steps + [step])[1..] == steps[1..] + [step];
      RunsOn(StreamApply(s, steps[0]), steps[1..], t, step);
    }
  }

  /** The sender goes through `ready`; it comes back with leave to send, or sleeps. */
  lemma LooksThrice(s: Stream, before: seq<StreamStep>, t: Stream) returns (steps: seq<StreamStep>)
    requires StreamRuns(s, before, t) && Pumping(t) && !t.closed && t.windowed
    ensures StreamRuns(s, steps, t.(sender := if t.available > 0 then Away else Parked(false)))
  {
    RunsOn(s, before, t, SenderRegisters);
    var t1 := t.(sender := Checking(0, false));
    RunsOn(s, before + [SenderRegisters], t1, SenderLooks);
    var t2 := t.(sender := Checking(1, false));
    RunsOn(s, before + [SenderRegisters] + [SenderLooks], t2, SenderLooks);
    var t3 := t.(sender := Checking(2, false));
    steps := before + [SenderRegisters] + [SenderLooks] + [SenderLooks] + [SenderLooks];
    RunsOn(s, before + [SenderRegisters] + [SenderLooks] + [SenderLooks], t3, SenderLooks);
  }

  /** Frame by frame the sender spends all the credit it has. */
  lemma {:induction false} SpendsCredit(s: Stream, before: seq<StreamStep>, t: Stream)
      returns (steps: seq<StreamStep>, u: Stream)
    requires StreamRuns(s, before, t) && Pumping(t) && !t.closed && t.windowed
    ensures StreamRuns(s, steps, u) && u == t.(available := u.available) && u.available <= 0
    decreases if t.available > 0 then t.available else 0
  {
    steps, u := before, t;
    if t.available > 0 {
      var more := LooksThrice(s, before, t);
      assert t.(sender := Away) == t;
      RunsOn(s, more, t, Charge(MIN_STREAM_FRAME));
      steps, u := SpendsCredit(s, more + [Charge(MIN_STREAM_FRAME)], t.(available := t.available - MIN_STREAM_FRAME));
    }
  }

  /** `close` wakes only the streams the map still holds. From every stream that
      `open` leaves with credit there is a run in which the sender spends it, sleeps,
      loses its id to another stream, and sleeps on when the transport goes. */
  lemma DisplacedSenderIsLost(s: Stream) returns (steps: seq<StreamStep>, t: Stream)
    requires NewStream(s) && !s.closed && s.windowed && s.hello.Told?
    ensures StreamRuns(s, steps, t) && SenderLost(t)
  {
    var spent, u := SpendsCredit(s, [], s);
    steps := LooksThrice(s, spent, u);
    t := u.(sender := Parked(false));
    RunsOn(s, steps, t, Displace);
    steps, t := steps + [Displace], t.(mapped := false, displaced := true);
    RunsOn(s, steps, t, CloseStores);
    steps, t := steps + [CloseStores], t.(closed := true, closing := Stored);
    RunsOn(s, steps, t, CloseSweeps);
    steps, t := steps + [CloseSweeps], StreamApply(t, CloseSweeps);
  }

  // ---- the reader that waits for room ----------------------------------------------------------

  /** One `QueueDepth`, the reader waiting for room for `cost` within `limit`, and
      the pump. `telling` and `closing`: the pump has made room, or has gone, and
      has not notified `drained` yet. */
  datatype Depth = Depth(queued: nat, closed: bool, cost: nat, limit: nat, reader: Waiter, telling: bool, closing: bool)

  datatype DepthStep =
    | ReaderRegisters(cost: nat) | ReaderLooks | ReaderWakes | ReaderCounts
    | Consume(n: nat) | TellDrained | Leave | TellLeft

  predicate DepthEnabled(d: Depth, step: DepthStep) {
    match step
    case ReaderRegisters(_) => d.reader.Away?
    case ReaderLooks => d.reader.Checking?
    case ReaderWakes => d.reader.Parked? && d.reader.woken
    case ReaderCounts => d.reader.Away?
    case Consume(n) => n <= d.queued && !d.telling && !d.closed
    case TellDrained => d.telling
    case Leave => !d.telling && !d.closed
    case TellLeft => d.closing
  }

  function DepthApply(d: Depth, step: DepthStep): Depth
    requires DepthEnabled(d, step)
  {
    match step
    case ReaderRegisters(cost) => d.(reader := Checking(0, false), cost := cost)
    case ReaderLooks => d.(reader := Looked(d.reader, ReaderSees(d, d.reader.next), d.reader.next >= 1))
    case ReaderWakes => d.(reader := Away)
    case ReaderCounts => d.(queued := d.queued + d.cost)
    case Consume(n) => d.(queued := d.queued - n, telling := true)
    case TellDrained => d.(telling := false, reader := Woken(d.reader))
    case Leave => d.(closed := true, closing := true)
    case TellLeft => d.(closing := false, reader := Woken(d.reader))
  }

  predicate Roomy(d: Depth) {
    d.queued == 0 || d.queued + d.cost <= d.limit
  }

  predicate ReaderSees(d: Depth, n: nat) {
    if n == 0 then Roomy(d) else d.closed
  }

  predicate DepthInv(d: Depth) {
    && (Asleep(d.reader, 1) && Roomy(d) ==> d.telling)
    && (d.reader.Parked? && !d.reader.woken && d.closed ==> d.closing)
  }

  /** The reader waits for what the machine's reader waits for, and sleeps after two
      undisturbed looks exactly if it must. */
  lemma DepthDecides(d: Depth)
    requires d.reader == Checking(0, false)
    ensures Roomy(d) || d.closed <==> HasRoom(d.queued, d.cost, d.limit, d.closed)
    ensures var d1 := DepthApply(d, ReaderLooks);
            var d2 := if d1.reader.Checking? then DepthApply(d1, ReaderLooks) else d1;
            d2.reader == if Roomy(d) || d.closed then Away else Parked(false)
  {
  }

  lemma DrainersTell(d: Depth)
    ensures d.telling ==> DepthEnabled(d, TellDrained) && DepthApply(d, TellDrained).reader == Woken(d.reader)
    ensures d.closing ==> DepthEnabled(d, TellLeft) && DepthApply(d, TellLeft).reader == Woken(d.reader)
    ensures d.reader == Parked(true) ==> DepthEnabled(d, ReaderWakes) && DepthApply(d, ReaderWakes).reader.Away?
  {
  }

  predicate DepthRuns(d: Depth, steps: seq<DepthStep>, e: Depth)
    decreases |steps|
  {
    if steps == [] then e == d
    else DepthEnabled(d, steps[0]) && DepthRuns(DepthApply(d, steps[0]), steps[1..], e)
  }

  lemma {:induction false} DepthInvOnRuns(d: Depth, steps: seq<DepthStep>, e: Depth)
    requires DepthInv(d) && DepthRuns(d, steps, e)
    ensures DepthInv(e)
    decreases |steps|
  {
    if steps != [] { DepthInvOnRuns(DepthApply(d, steps[0]), steps[1..], e); }
  }

  /** The reader never sleeps on when there is room, or when the pump has gone. */
  lemma ReaderIsWoken(d: Depth, steps: seq<DepthStep>, e: Depth)
    requires d.reader.Away? && DepthRuns(d, steps, e)
    ensures e.reader == Parked(false) && (Roomy(e) || e.closed) ==> e.telling || e.closing
  {
    DepthInvOnRuns(d, steps, e);
  }
}
