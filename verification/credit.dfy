/** The arithmetic of credit windows (crates/capsudo-transport/src/mux.rs): what
    one Hello, one grant, one debt and one consumed frame do to the counters.
    The classes in flow.dfy and the machine in endpoint.dfy both use it. */
module Credit {
  import opened ByteStrings

  const MUX_HEADER: nat := 9
  const PUMP_BUF: nat := 16 * 1024
  const CHANNEL_DEPTH: nat := 64
  const WINDOW_VERSION: u32 := 1
  const STREAM_WINDOW: u32 := 1024 * 1024
  const MIN_STREAM_FRAME: nat := MUX_HEADER + PUMP_BUF
  const MAX_WINDOW: u32 := 0xFFFF_FFFF - (9 + 16 * 1024)
  const MAX_OWED_STREAMS: nat := 64
  const MAX_FRAME_PAYLOAD: nat := 8 + 16 * 1024 * 1024
  const MAX_LIVE_STREAMS: nat := 8
  const I64_MAX: int := 0x7FFF_FFFF_FFFF_FFFF

  /** A window a transport can be built with, after clamping. */
  predicate ValidWindow(w: u32) {
    0 < w <= MAX_WINDOW
  }

  function ClampWindow(requested: u32): u32 {
    if requested <= MAX_WINDOW then requested else MAX_WINDOW
  }

  function QueueLimit(window: u32): nat {
    window + MIN_STREAM_FRAME
  }

  /** A stream frame is charged as its header plus its payload. */
  function Cost(payload: Bytes): nat {
    MUX_HEADER + |payload|
  }

  // ---- Hello ----------------------------------------------------------------

  function HelloPayload(window: u32): Bytes {
    Le32(WINDOW_VERSION) + Le32(window) + Le32(QueueLimit(window) % 0x1_0000_0000)
  }

  datatype Verdict = Ignore | Refuse | Take(window: u32)

  function Field(payload: Bytes, at: nat): Option<u32> {
    if at + 4 <= |payload| then Some(De32(payload[at..at + 4])) else None
  }

  function HelloVerdict(peerWindowed: bool, payload: Bytes): Verdict {
    if peerWindowed then Ignore
    else
      var version := Field(payload, 0);
      if version.None? || version.value < WINDOW_VERSION then Ignore
      else
        var window := match Field(payload, 4) case Some(w) => w case None => STREAM_WINDOW;
        var frame: int := match Field(payload, 8) case Some(f) => f as int case None => MIN_STREAM_FRAME;
        if window == 0 || frame < MIN_STREAM_FRAME then Refuse else Take(window)
  }

  lemma FieldAt(before: Bytes, n: u32, after: Bytes)
    ensures Field(before + Le32(n) + after, |before|) == Some(n)
  {
    var p := before + Le32(n) + after;
    assert p[|before|..|before| + 4] == Le32(n);
    Le32RoundTrip(n);
  }

  /** The three fields of a printed Hello, whatever follows them. */
  lemma HelloFields(window: u32, extra: Bytes)
    ensures Field(HelloPayload(window) + extra, 0) == Some(WINDOW_VERSION)
    ensures Field(HelloPayload(window) + extra, 4) == Some(window)
    ensures Field(HelloPayload(window) + extra, 8) == Some(QueueLimit(window) % 0x1_0000_0000)
  {
    var v, w, q := Le32(WINDOW_VERSION), Le32(window), Le32(QueueLimit(window) % 0x1_0000_0000);
    var p := HelloPayload(window) + extra;
    assert p == [] + v + (w + q + extra);
    FieldAt([], WINDOW_VERSION, w + q + extra);
    assert p == v + w + (q + extra);
    FieldAt(v, window, q + extra);
    assert p == (v + w) + q + extra;
    FieldAt(v + w, QueueLimit(window) % 0x1_0000_0000, extra);
  }

  /** Every window a transport can be built with prints a Hello that the other end
      takes as exactly that window, whatever a later version appends to it, and
      that advertises the queue limit without truncating it. */
  lemma HelloIsTaken(window: u32, extra: Bytes)
    requires ValidWindow(window)
    ensures HelloVerdict(false, HelloPayload(window) + extra) == Take(window)
    ensures Field(HelloPayload(window) + extra, 8) == Some(QueueLimit(window))
  {
    HelloFields(window, extra);
  }

  /** The clamp is exact: one byte more and the advertised limit would wrap to a
      frame size the other end refuses. */
  lemma ClampIsTight(window: u32)
    ensures ValidWindow(ClampWindow(window)) <==> window != 0
    ensures window > MAX_WINDOW ==> HelloVerdict(false, HelloPayload(window)) == Refuse
  {
    HelloFields(window, []);
    assert HelloPayload(window) + [] == HelloPayload(window);
  }

  /** What every Hello means, by the fields it holds: with no more than a version the
      peer has the window of old, 1 MiB; with a window it has that one; a window of
      nothing or a frame limit below 16,393 is refused; fields that follow are left
      alone, and so is a Hello without a version. */
  lemma HelloMeans(version: u32, window: u32, frame: u32, rest: Bytes)
    ensures |rest| < 4 ==> HelloVerdict(false, rest) == Ignore
    ensures HelloVerdict(false, Le32(0) + rest) == Ignore
    ensures version >= 1 && |rest| < 4 ==> HelloVerdict(false, Le32(version) + rest) == Take(1_048_576)
    ensures version >= 1 && |rest| < 4 ==>
      HelloVerdict(false, Le32(version) + Le32(window) + rest) == if window == 0 then Refuse else Take(window)
    ensures version >= 1 ==>
      HelloVerdict(false, Le32(version) + Le32(window) + Le32(frame) + rest)
      == if window == 0 || frame < 16_393 then Refuse else Take(window)
    ensures HelloVerdict(true, rest) == Ignore
  {
    FieldAt([], 0, rest);
    assert [] + Le32(0) + rest == Le32(0) + rest;
    FieldAt([], version, rest);
    assert [] + Le32(version) + rest == Le32(version) + rest;
    TwoFields(version, window, rest);
    TwoFields(version, window, Le32(frame) + rest);
    var p := Le32(version) + Le32(window) + Le32(frame) + rest;
    assert p == Le32(version) + Le32(window) + (Le32(frame) + rest);
    FieldAt(Le32(version) + Le32(window), frame, rest);
  }

  lemma TwoFields(first: u32, second: u32, rest: Bytes)
    ensures var p := Le32(first) + Le32(second) + rest;
            Field(p, 0) == Some(first) && Field(p, 4) == Some(second) && (|rest| < 4 ==> Field(p, 8) == None)
  {
    FieldAt([], first, Le32(second) + rest);
    assert [] + Le32(first) + (Le32(second) + rest) == Le32(first) + Le32(second) + rest;
    FieldAt(Le32(first), second, rest);
  }

  // ---- the sender's side ------------------------------------------------------

  /** Whether `ready` lets a pump send: it waits only for positive credit, and only
      for a peer that said Hello. */
  predicate MaySend(peerWindowed: bool, available: int) {
    !peerWindowed || available > 0
  }

  /** `i64::saturating_add`. */
  function GrantCredit(available: int, bytes: u32): int {
    if available + bytes > I64_MAX then I64_MAX else available + bytes
  }

  // ---- the receiver's side ----------------------------------------------------

  /** `wait_for_room`'s test. */
  predicate HasRoom(queued: nat, cost: nat, limit: nat, gone: bool) {
    queued == 0 || queued + cost <= limit || gone
  }

  /** What `consumed` leaves ungranted, and the grant it returns, whose amount is
      a cast to `u32`. */
  function Consume(ungranted: nat, window: u32, peerWindowed: bool, cost: nat, idle: bool): (nat, Option<u32>) {
    if !peerWindowed then (ungranted, None)
    else if ungranted + cost < window / 4 && !idle then (ungranted + cost, None)
    else (0, Some((ungranted + cost) % 0x1_0000_0000))
  }

  function GrantOf(g: Option<u32>): nat {
    if g.Some? then g.value else 0
  }

  /** The grant `abandon` computes from what the pump still holds. */
  function AbandonGrant(held: nat): u32 {
    if held <= 0xFFFF_FFFF then held else 0xFFFF_FFFF
  }

  /** `owe`: at most MAX_OWED_STREAMS debts at once, each saturating. */
  function OweCredit(owed: map<u32, u32>, id: u32, bytes: u32): map<u32, u32> {
    if |owed| >= MAX_OWED_STREAMS && id !in owed then owed
    else owed[id := AbandonGrant(Owed(owed, id) + bytes)]
  }

  function Owed(owed: map<u32, u32>, id: u32): nat {
    if id in owed then owed[id] else 0
  }

  /** The credit one call of `owe` drops: all of it past the cap on streams, and
      whatever does not fit in a `u32`. */
  function Forgone(owed: map<u32, u32>, id: u32, bytes: u32): (r: nat)
    ensures Owed(OweCredit(owed, id, bytes), id) + r == Owed(owed, id) + bytes
    ensures forall other :: other != id ==> Owed(OweCredit(owed, id, bytes), other) == Owed(owed, other)
    ensures |OweCredit(owed, id, bytes)| <= if |owed| <= MAX_OWED_STREAMS then MAX_OWED_STREAMS else |owed|
    ensures r == 0 <==> (bytes == 0 || id in owed || |owed| < MAX_OWED_STREAMS)
                        && (id in owed || |owed| < MAX_OWED_STREAMS ==> Owed(owed, id) + bytes <= U32_MAX)
  {
    Owed(owed, id) + bytes - Owed(OweCredit(owed, id, bytes), id)
  }

  /** Between calls of `consumed` the ungranted rest is nothing or below a quarter
      window. */
  predicate Pending(ungranted: nat, window: u32) {
    ungranted == 0 || ungranted < window / 4
  }

  /** `consumed` neither makes nor loses credit once the peer has said Hello, its
      cast never truncates for any frame the wire can carry, an idle stream is
      left with nothing ungranted, and the quarter-window bound holds again. */
  lemma ConsumeConserves(ungranted: nat, window: u32, cost: nat, idle: bool)
    requires Pending(ungranted, window) && cost <= MUX_HEADER + MAX_FRAME_PAYLOAD
    ensures var (rest, grant) := Consume(ungranted, window, true, cost, idle);
            && rest + GrantOf(grant) == ungranted + cost
            && Pending(rest, window)
            && (idle ==> rest == 0)
            && (grant.Some? <==> idle || ungranted + cost >= window / 4)
  {
    assert ungranted + cost < 0x1_0000_0000;
  }

  /** The largest window for which a full queue and an ungranted quarter window
      still fit in one grant. */
  const MAX_EXACT_WINDOW: u32 := 3_435_960_723

  /** `abandon`'s grant is exact for every window up to MAX_EXACT_WINDOW, and for
      every larger one there is a state within the counters' bounds in which it
      saturates. */
  lemma AbandonIsExact(ungranted: nat, queued: nat, window: u32)
    requires Pending(ungranted, window) && queued <= QueueLimit(window)
    ensures window <= MAX_EXACT_WINDOW ==> AbandonGrant(ungranted + queued) == ungranted + queued
    ensures window > MAX_EXACT_WINDOW ==>
      && Pending(window / 4 - 1, window)
      && AbandonGrant(window / 4 - 1 + QueueLimit(window)) < window / 4 - 1 + QueueLimit(window)
  {
  }
}
