/** The session protocol above the transport: what the client sends
    (crates/capsudo-core/src/client.rs), what the daemon makes of it under its own
    policy (crates/capsudo-core/src/daemon.rs), and how the outcome gets back. */
module Handshake {
  import opened ByteStrings
  import opened Proto

  /** A descriptor, by identity. */
  type Fd = nat

  datatype Received = Received(message: Message, fds: seq<Fd>)

  /** A transport, as its two ends see it: what is still to be received, and what
      has been sent. */
  class Transport {
    var incoming: seq<Received>
    var sent: seq<Received>

    constructor (incoming: seq<Received>)
      ensures this.incoming == incoming && sent == []
    {
      this.incoming, sent := incoming, [];
    }

    method Recv() returns (r: Option<Received>)
      modifies this`incoming
      ensures old(incoming) == [] ==> r == None && incoming == []
      ensures old(incoming) != [] ==> r == Some(old(incoming)[0]) && incoming == old(incoming)[1..]
    {
      if incoming == [] { return None; }
      r := Some(incoming[0]);
      incoming := incoming[1..];
    }

    method Send(message: Message, fds: seq<Fd>)
      modifies this`sent
      ensures sent == old(sent) + [Received(message, fds)]
    {
      sent := sent + [Received(message, fds)];
    }
  }

  datatype CoreError =
    | ClientClosed
    | DaemonClosed
    | NotThreeDescriptors
    | NoDescriptors
    | BadMessage(error: ProtoError)

  // ---- the client's side --------------------------------------------------------------

  datatype ClientRequest = ClientRequest(
    args: seq<Text>, env: seq<Text>, sessionType: SessionType, winsize: Option<Winsize>)

  function Script(request: ClientRequest, stdio: seq<Fd>, secret: Option<Text>): seq<Received> {
    Body(request, stdio, secret) + [Received(EndMessage(), [])]
  }

  function Body(request: ClientRequest, stdio: seq<Fd>, secret: Option<Text>): seq<Received> {
    Opening(secret) + Entries(request.env) + Arguments(request.args) + Closing(request, stdio)
  }

  function Opening(secret: Option<Text>): seq<Received> {
    if secret.Some? then [Received(SecretMessage(secret.value), [])] else []
  }

  function Closing(request: ClientRequest, stdio: seq<Fd>): seq<Received> {
    [Received(SessionTypeMessage(request.sessionType), [])]
    + (if request.winsize.Some? then [Received(WinsizeMessage(request.winsize.value), [])] else [])
    + [Received(FdsMessage(3), stdio)]
  }

  function Entries(env: seq<Text>): seq<Received> {
    if env == [] then [] else [Received(EnvMessage(env[0]), [])] + Entries(env[1..])
  }

  function Arguments(args: seq<Text>): seq<Received> {
    if args == [] then [] else [Received(ArgMessage(args[0]), [])] + Arguments(args[1..])
  }

  lemma {:induction false} EntriesAppend(env: seq<Text>, entry: Text)
    ensures Entries(env + [entry]) == Entries(env) + [Received(EnvMessage(entry), [])]
  {
    if env == [] {
      assert env + [entry] == [entry];
    } else {
      assert (env + [entry])[1..] == env[1..] + [entry];
      EntriesAppend(env[1..], entry);
    }
  }

  lemma {:induction false} ArgumentsAppend(args: seq<Text>, arg: Text)
    ensures Arguments(args + [arg]) == Arguments(args) + [Received(ArgMessage(arg), [])]
  {
    if args == [] {
      assert args + [arg] == [arg];
    } else {
      assert (args + [arg])[1..] == args[1..] + [arg];
      ArgumentsAppend(args[1..], arg);
    }
  }

  method SendEntries(transport: Transport, env: seq<Text>)
    modifies transport`sent
    ensures transport.sent == old(transport.sent) + Entries(env)
  {
    var i := 0;
    while i < |env|
      invariant 0 <= i <= |env|
      invariant transport.sent == old(transport.sent) + Entries(env[..i])
    {
      transport.Send(EnvMessage(env[i]), []);
      assert env[..i + 1] == env[..i] + [env[i]];
      EntriesAppend(env[..i], env[i]);
      i := i + 1;
    }
    assert env[..i] == env;
  }

  method SendArguments(transport: Transport, args: seq<Text>)
    modifies transport`sent
    ensures transport.sent == old(transport.sent) + Arguments(args)
  {
    var i := 0;
    while i < |args|
      invariant 0 <= i <= |args|
      invariant transport.sent == old(transport.sent) + Arguments(args[..i])
    {
      transport.Send(ArgMessage(args[i]), []);
      assert args[..i + 1] == args[..i] + [args[i]];
      ArgumentsAppend(args[..i], args[i]);
      i := i + 1;
    }
    assert args[..i] == args;
  }

  /** The kind of session, its size and its descriptors. */
  method SendClosing(transport: Transport, request: ClientRequest, stdio: seq<Fd>)
    modifies transport`sent
    ensures transport.sent == old(transport.sent) + Closing(request, stdio)
  {
    ghost var start, kind := transport.sent, Received(SessionTypeMessage(request.sessionType), []);
    transport.Send(SessionTypeMessage(request.sessionType), []);
    if request.winsize.Some? { transport.Send(WinsizeMessage(request.winsize.value), []); }
    transport.Send(FdsMessage(3), stdio);
    if request.winsize.None? { assert [kind] + [] == [kind]; }
    assert transport.sent == start + Closing(request, stdio);
  }

  method SendConfiguration(transport: Transport, request: ClientRequest, stdio: seq<Fd>, secret: Option<Text>)
    modifies transport`sent
    ensures transport.sent == old(transport.sent) + Script(request, stdio, secret)
  {
    if secret.Some? { transport.Send(SecretMessage(secret.value), []); }
    SendEntries(transport, request.env);
    SendArguments(transport, request.args);
    SendClosing(transport, request, stdio);
    transport.Send(EndMessage(), []);
    InPieces(old(transport.sent), Opening(secret), Entries(request.env), Arguments(request.args),
             Closing(request, stdio), Received(EndMessage(), []));
  }

  lemma InPieces(start: seq<Received>, a: seq<Received>, b: seq<Received>, c: seq<Received>, d: seq<Received>,
          end: Received)
    ensures start + a + b + c + d + [end] == start + (a + b + c + d + [end])
  {
  }

  // ---- the daemon's side --------------------------------------------------------------

  datatype DaemonConfig = DaemonConfig(fixedArgs: seq<Text>, fixedEnv: seq<Text>, noClientArgv: bool, noClientEnv: bool)

  datatype SessionRequest = SessionRequest(
    argv: seq<Text>, envp: seq<Text>, sessionType: SessionType, stdio: seq<Fd>, winsize: Winsize)

  const DEFAULT_WINSIZE: Winsize := Winsize(24, 80, 0, 0)

  /** "sh" */
  const SHELL: Text := [115, 104]

  /** What has been configured so far. */
  datatype Draft = Draft(
    argv: seq<Text>, envp: seq<Text>, sessionType: SessionType, stdio: Option<seq<Fd>>, winsize: Winsize)

  function NewDraft(config: DaemonConfig): Draft {
    Draft(config.fixedArgs, config.fixedEnv, NonInteractive, None, DEFAULT_WINSIZE)
  }

  /** What the daemon makes of one message before End. */
  function Absorb(config: DaemonConfig, d: Draft, r: Received): Result<Draft, CoreError> {
    match r.message.fieldType
    case ArgField =>
      if config.noClientArgv then Ok(d)
      else (match r.message.AsStr() case Ok(s) => Ok(d.(argv := d.argv + [s])) case Err(e) => Err(BadMessage(e)))
    case EnvField =>
      if config.noClientEnv then Ok(d)
      else (match r.message.AsStr() case Ok(s) => Ok(d.(envp := d.envp + [s])) case Err(e) => Err(BadMessage(e)))
    case SessionTypeField =>
      (match r.message.AsSessionType() case Ok(t) => Ok(d.(sessionType := t)) case Err(e) => Err(BadMessage(e)))
    case WinsizeField =>
      (match r.message.AsWinsize() case Ok(w) => Ok(d.(winsize := w)) case Err(e) => Err(BadMessage(e)))
    case FdField => if |r.fds| == 3 then Ok(d.(stdio := Some(r.fds))) else Err(NotThreeDescriptors)
    case _ => Ok(d)
  }

  function Finish(d: Draft): Result<SessionRequest, CoreError> {
    if d.stdio.None? then Err(NoDescriptors)
    else Ok(SessionRequest(if d.argv == [] then [SHELL] else d.argv, d.envp, d.sessionType, d.stdio.value, d.winsize))
  }

  /** The daemon's whole reading of a client's messages. */
  function Configure(config: DaemonConfig, d: Draft, rs: seq<Received>): Result<SessionRequest, CoreError>
    decreases |rs|
  {
    if rs == [] then Err(ClientClosed)
    else if rs[0].message.fieldType.EndField? then Finish(d)
    else match Absorb(config, d, rs[0])
      case Err(e) => Err(e)
      case Ok(d') => Configure(config, d', rs[1..])
  }

  method ReceiveConfiguration(transport: Transport, config: DaemonConfig) returns (r: Result<SessionRequest, CoreError>)
    modifies transport`incoming
    ensures r == Configure(config, NewDraft(config), old(transport.incoming))
  {
    var d := NewDraft(config);
    while true
      invariant Configure(config, d, transport.incoming) == Configure(config, NewDraft(config), old(transport.incoming))
      decreases |transport.incoming|
    {
      var next := transport.Recv();
      if next.None? { return Err(ClientClosed); }
      var message, fds := next.value.message, next.value.fds;
      match message.fieldType {
        case ArgField =>
          if !config.noClientArgv {
            var s := message.AsStr();
            if s.Err? { return Err(BadMessage(s.error)); }
            d := d.(argv := d.argv + [s.value]);
          }
        case EnvField =>
          if !config.noClientEnv {
            var s := message.AsStr();
            if s.Err? { return Err(BadMessage(s.error)); }
            d := d.(envp := d.envp + [s.value]);
          }
        case SessionTypeField =>
          var t := message.AsSessionType();
          if t.Err? { return Err(BadMessage(t.error)); }
          d := d.(sessionType := t.value);
        case WinsizeField =>
          var w := message.AsWinsize();
          if w.Err? { return Err(BadMessage(w.error)); }
          d := d.(winsize := w.value);
        case FdField =>
          if |fds| != 3 { return Err(NotThreeDescriptors); }
          d := d.(stdio := Some(fds));
        case EndField => break;
        case _ =>
      }
    }
    if d.argv == [] { d := d.(argv := [SHELL]); }
    if d.stdio.None? { return Err(NoDescriptors); }
    return Ok(SessionRequest(d.argv, d.envp, d.sessionType, d.stdio.value, d.winsize));
  }

  // ---- what a configuration means ------------------------------------------------------

  /** The payloads of all messages of one kind, in order. */
  function Said(rs: seq<Received>, t: FieldType): seq<Bytes> {
    if rs == [] then []
    else (if rs[0].message.fieldType == t then [rs[0].message.payload] else []) + Said(rs[1..], t)
  }

  predicate WellFormed(config: DaemonConfig, r: Received) {
    match r.message.fieldType
    case ArgField => config.noClientArgv || Utf8(r.message.payload)
    case EnvField => config.noClientEnv || Utf8(r.message.payload)
    case SessionTypeField => r.message.AsSessionType().Ok?
    case WinsizeField => r.message.AsWinsize().Ok?
    case FdField => |r.fds| == 3
    case _ => true
  }

  predicate AllWellFormed(config: DaemonConfig, rs: seq<Received>) {
    rs == [] || (WellFormed(config, rs[0]) && AllWellFormed(config, rs[1..]))
  }

  predicate NoEnd(rs: seq<Received>) {
    rs == [] || (!rs[0].message.fieldType.EndField? && NoEnd(rs[1..]))
  }

  function OrElse<T>(a: Option<T>, b: Option<T>): Option<T> {
    if a.Some? then a else b
  }

  function Or<T>(a: Option<T>, b: T): T {
    if a.Some? then a.value else b
  }

  /** The last of the client's descriptors, session types and window sizes count. */
  function LastFds(rs: seq<Received>): Option<seq<Fd>> {
    if rs == [] then None
    else OrElse(LastFds(rs[1..]), if rs[0].message.fieldType.FdField? then Some(rs[0].fds) else None)
  }

  function SessionTypeIn(r: Received): Option<SessionType> {
    if r.message.fieldType.SessionTypeField? && r.message.AsSessionType().Ok? then Some(r.message.AsSessionType().value)
    else None
  }

  function LastSessionType(rs: seq<Received>): Option<SessionType> {
    if rs == [] then None else OrElse(LastSessionType(rs[1..]), SessionTypeIn(rs[0]))
  }

  function WinsizeIn(r: Received): Option<Winsize> {
    if r.message.fieldType.WinsizeField? && r.message.AsWinsize().Ok? then Some(r.message.AsWinsize().value) else None
  }

  function LastWinsize(rs: seq<Received>): Option<Winsize> {
    if rs == [] then None else OrElse(LastWinsize(rs[1..]), WinsizeIn(rs[0]))
  }

  /** The draft that messages lead to, read off the whole list at once. */
  predicate Drafted(config: DaemonConfig, d: Draft, rs: seq<Received>, d': Draft) {
    && d'.argv == d.argv + (if config.noClientArgv then [] else Said(rs, ArgField))
    && d'.envp == d.envp + (if config.noClientEnv then [] else Said(rs, EnvField))
    && d'.sessionType == Or(LastSessionType(rs), d.sessionType)
    && d'.stdio == OrElse(LastFds(rs), d.stdio)
    && d'.winsize == Or(LastWinsize(rs), d.winsize)
  }

  lemma AbsorbMeans(config: DaemonConfig, d: Draft, r: Received)
    ensures Absorb(config, d, r).Ok? <==> WellFormed(config, r)
    ensures WellFormed(config, r) ==> Drafted(config, d, [r], Absorb(config, d, r).value)
  {
    assert [r][1..] == [];
    assert Said([r], ArgField) == if r.message.fieldType.ArgField? then [r.message.payload] else [];
    assert Said([r], EnvField) == if r.message.fieldType.EnvField? then [r.message.payload] else [];
  }

  /** One piece after another: the arguments and the environment join, and of the
      rest the later piece counts. */
  lemma {:induction false} BothSay(config: DaemonConfig, a: seq<Received>, b: seq<Received>)
    ensures Said(a + b, ArgField) == Said(a, ArgField) + Said(b, ArgField)
    ensures Said(a + b, EnvField) == Said(a, EnvField) + Said(b, EnvField)
    ensures AllWellFormed(config, a + b) <==> AllWellFormed(config, a) && AllWellFormed(config, b)
    ensures NoEnd(a + b) <==> NoEnd(a) && NoEnd(b)
    ensures LastFds(a + b) == OrElse(LastFds(b), LastFds(a))
    ensures LastSessionType(a + b) == OrElse(LastSessionType(b), LastSessionType(a))
    ensures LastWinsize(a + b) == OrElse(LastWinsize(b), LastWinsize(a))
    decreases |a|
  {
    if a == [] {
      assert a + b == b;
    } else {
      assert (a + b)[0] == a[0] && (a + b)[1..] == a[1..] + b;
      BothSay(config, a[1..], b);
    }
  }

  lemma DraftedOn(config: DaemonConfig, d: Draft, r: Received, d1: Draft, rs: seq<Received>, d2: Draft)
    requires Drafted(config, d, [r], d1) && Drafted(config, d1, rs, d2)
    ensures Drafted(config, d, [r] + rs, d2)
  {
    BothSay(config, [r], rs);
    Joined(d.argv, Said([r], ArgField), Said(rs, ArgField));
    Joined(d.envp, Said([r], EnvField), Said(rs, EnvField));
    assert d.argv + [] == d.argv && d.envp + [] == d.envp;
  }

  lemma Joined(a: seq<Bytes>, b: seq<Bytes>, c: seq<Bytes>)
    ensures a + (b + c) == a + b + c
  {
  }

  /** Reading up to an End succeeds exactly when every message before it is well
      formed and descriptors came, and yields what the whole list says. */
  lemma {:induction false} ConfigureFrom(config: DaemonConfig, d: Draft, rs: seq<Received>, end: Received,
          tail: seq<Received>)
      returns (d': Draft)
    requires NoEnd(rs) && end.message.fieldType.EndField?
    ensures AllWellFormed(config, rs) ==>
      Drafted(config, d, rs, d') && Configure(config, d, rs + [end] + tail) == Finish(d')
    ensures !AllWellFormed(config, rs) ==> Configure(config, d, rs + [end] + tail).Err?
    decreases |rs|
  {
    var all := rs + [end] + tail;
    if rs == [] {
      assert all[0] == end;
      d' := d;
      assert d.argv + [] == d.argv && d.envp + [] == d.envp;
    } else {
      var r := rs[0];
      assert all[0] == r && all[1..] == rs[1..] + [end] + tail && rs == [r] + rs[1..];
      AbsorbMeans(config, d, r);
      var step := Absorb(config, d, r);
      if step.Ok? {
        d' := ConfigureFrom(config, step.value, rs[1..], end, tail);
        if AllWellFormed(config, rs[1..]) { DraftedOn(config, d, r, step.value, rs[1..], d'); }
      } else {
        d' := d;
      }
    }
  }

  lemma {:induction false} NoEndNoConfiguration(config: DaemonConfig, d: Draft, rs: seq<Received>)
    requires NoEnd(rs)
    ensures Configure(config, d, rs).Err?
    decreases |rs|
  {
    if rs != [] && Absorb(config, d, rs[0]).Ok? {
      NoEndNoConfiguration(config, Absorb(config, d, rs[0]).value, rs[1..]);
    }
  }

  /** Why a client is refused: the first message that is not well formed decides, and
      then whether it said End, and brought descriptors. */
  lemma {:induction false} FirstFaultDecides(config: DaemonConfig, d: Draft, head: seq<Received>, r: Received,
                                             rest: seq<Received>)
    requires AllWellFormed(config, head) && NoEnd(head)
    ensures Configure(config, d, head) == Err(ClientClosed)
    ensures !r.message.fieldType.EndField? && !WellFormed(config, r) ==>
      Configure(config, d, head + [r] + rest)
      == Err(if r.message.fieldType.FdField? then NotThreeDescriptors
             else BadMessage(if r.message.fieldType.SessionTypeField? then r.message.AsSessionType().error
                             else InvalidPayload(r.message.fieldType)))
    ensures r.message.fieldType.EndField? && d.stdio.None? && LastFds(head).None? ==>
      Configure(config, d, head + [r] + rest) == Err(NoDescriptors)
    decreases |head|
  {
    var all := head + [r] + rest;
    if head == [] {
      assert all == [r] + rest && all[0] == r;
    } else {
      assert all[0] == head[0] && all[1..] == head[1..] + [r] + rest;
      AbsorbMeans(config, d, head[0]);
      FirstFaultDecides(config, Absorb(config, d, head[0]).value, head[1..], r, rest);
    }
  }

  /** A client is served exactly when its messages up to the first End are well
      formed and bring three descriptors. The program then gets the daemon's fixed
      arguments and environment followed by the client's in order, unless policy
      shuts these out, and a shell only if that leaves nothing to run. */
  lemma ConfigurationMeans(config: DaemonConfig, rs: seq<Received>, end: Received, tail: seq<Received>)
    requires NoEnd(rs) && end.message.fieldType.EndField?
    ensures var r := Configure(config, NewDraft(config), rs + [end] + tail);
            && (r.Ok? <==> AllWellFormed(config, rs) && LastFds(rs).Some?)
            && (r.Ok? ==>
                  var argv := config.fixedArgs + (if config.noClientArgv then [] else Said(rs, ArgField));
                  && r.value.argv == (if argv == [] then [SHELL] else argv)
                  && r.value.envp == config.fixedEnv + (if config.noClientEnv then [] else Said(rs, EnvField))
                  && r.value.sessionType == Or(LastSessionType(rs), NonInteractive)
                  && r.value.winsize == Or(LastWinsize(rs), DEFAULT_WINSIZE)
                  && Some(r.value.stdio) == LastFds(rs))
  {
    var d := ConfigureFrom(config, NewDraft(config), rs, end, tail);
  }

  /** The first End, if there is one. */
  lemma {:induction false} SplitAtEnd(rs: seq<Received>) returns (head: seq<Received>, tail: seq<Received>)
    ensures NoEnd(head) && head + tail == rs
    ensures tail != [] ==> tail[0].message.fieldType.EndField?
    decreases |rs|
  {
    if rs == [] || rs[0].message.fieldType.EndField? {
      head, tail := [], rs;
    } else {
      head, tail := SplitAtEnd(rs[1..]);
      assert rs == [rs[0]] + rs[1..];
      head := [rs[0]] + head;
      assert head[1..] + tail == rs[1..];
    }
  }

  /** Attenuation: whatever two clients send, a daemon with `-f` runs the same
      command line for both, and one with `-E` gives both the same environment. */
  lemma AttenuationHolds(config: DaemonConfig, rs: seq<Received>)
    requires Configure(config, NewDraft(config), rs).Ok?
    ensures var r := Configure(config, NewDraft(config), rs).value;
            && (config.noClientArgv ==> r.argv == if config.fixedArgs == [] then [SHELL] else config.fixedArgs)
            && (config.noClientEnv ==> r.envp == config.fixedEnv)
            && (config.fixedArgs <= r.argv || (config.fixedArgs == [] && r.argv == [SHELL]))
            && config.fixedEnv <= r.envp
            && |r.stdio| == 3
  {
    var head, tail := SplitAtEnd(rs);
    if tail == [] {
      assert rs == head;
      NoEndNoConfiguration(config, NewDraft(config), rs);
    } else {
      assert rs == head + [tail[0]] + tail[1..];
      ConfigurationMeans(config, head, tail[0], tail[1..]);
      ThreeDescriptors(config, head);
    }
  }

  lemma {:induction false} ThreeDescriptors(config: DaemonConfig, rs: seq<Received>)
    requires AllWellFormed(config, rs)
    ensures LastFds(rs).Some? ==> |LastFds(rs).value| == 3
  {
    if rs != [] { ThreeDescriptors(config, rs[1..]); }
  }

  // ---- client and daemon together ------------------------------------------------------

  /** What a list of messages says, and that the daemon can read all of it. */
  predicate Says(config: DaemonConfig, rs: seq<Received>, args: seq<Bytes>, env: seq<Bytes>,
                 fds: Option<seq<Fd>>, t: Option<SessionType>, w: Option<Winsize>) {
    && AllWellFormed(config, rs) && NoEnd(rs) && Said(rs, ArgField) == args && Said(rs, EnvField) == env
    && LastFds(rs) == fds && LastSessionType(rs) == t && LastWinsize(rs) == w
  }

  lemma {:induction false} EntriesSay(config: DaemonConfig, env: seq<Text>)
    ensures Says(config, Entries(env), [], env, None, None, None)
  {
    if env != [] {
      EntriesSay(config, env[1..]);
      assert Entries(env)[0] == Received(EnvMessage(env[0]), []) && Entries(env)[1..] == Entries(env[1..]);
    }
  }

  lemma {:induction false} ArgumentsSay(config: DaemonConfig, args: seq<Text>)
    ensures Says(config, Arguments(args), args, [], None, None, None)
  {
    if args != [] {
      ArgumentsSay(config, args[1..]);
      assert Arguments(args)[0] == Received(ArgMessage(args[0]), []) && Arguments(args)[1..] == Arguments(args[1..]);
    }
  }

  lemma OneSays(config: DaemonConfig, r: Received)
    requires WellFormed(config, r) && !r.message.fieldType.EndField?
    requires !r.message.fieldType.ArgField? && !r.message.fieldType.EnvField?
    ensures Says(config, [r], [], [], if r.message.fieldType.FdField? then Some(r.fds) else None, SessionTypeIn(r),
      WinsizeIn(r))
  {
    assert [r][1..] == [];
  }

  /** The script but for its End. */
  lemma ClosingSays(config: DaemonConfig, request: ClientRequest, stdio: seq<Fd>)
    requires |stdio| == 3
    ensures Says(config, Closing(request, stdio), [], [], Some(stdio), Some(request.sessionType), request.winsize)
  {
    var kind := Received(SessionTypeMessage(request.sessionType), []);
    var sizes := if request.winsize.Some? then [Received(WinsizeMessage(request.winsize.value), [])] else [];
    var fds := Received(FdsMessage(3), stdio);
    AccessorsInvertConstructors([], 0, 3, request.sessionType, Or(request.winsize, DEFAULT_WINSIZE));
    OneSays(config, kind);
    OneSays(config, fds);
    if request.winsize.Some? { OneSays(config, sizes[0]); }
    assert Says(config, sizes, [], [], None, None, request.winsize);
    BothSay(config, [kind], sizes);
    assert Says(config, [kind] + sizes, [], [], None, Some(request.sessionType), request.winsize);
    BothSay(config, [kind] + sizes, [fds]);
  }

  lemma BodySays(config: DaemonConfig, request: ClientRequest, stdio: seq<Fd>, secret: Option<Text>)
    requires |stdio| == 3
    ensures Says(config, Body(request, stdio, secret), request.args, request.env, Some(stdio),
      Some(request.sessionType), request.winsize)
  {
    if secret.Some? { OneSays(config, Opening(secret)[0]); }
    EntriesSay(config, request.env);
    ArgumentsSay(config, request.args);
    ClosingSays(config, request, stdio);
    var b1 := Opening(secret) + Entries(request.env);
    BothSay(config, Opening(secret), Entries(request.env));
    var b2 := b1 + Arguments(request.args);
    BothSay(config, b1, Arguments(request.args));
    BothSay(config, b2, Closing(request, stdio));
  }

  /** What a daemon makes of a client that sends its descriptors and no more: a shell
      if nothing else is fixed, no terminal, and a window of 24 by 80. */
  lemma Defaults(config: DaemonConfig, stdio: seq<Fd>)
    requires |stdio| == 3
    ensures Configure(config, NewDraft(config), [Received(FdsMessage(3), stdio), Received(EndMessage(), [])])
         == Ok(SessionRequest(if config.fixedArgs == [] then [[115, 104]] else config.fixedArgs, config.fixedEnv,
                              NonInteractive, stdio, Winsize(24, 80, 0, 0)))
  {
    var fds, end := Received(FdsMessage(3), stdio), Received(EndMessage(), []);
    assert [fds, end][1..] == [end];
  }

  /** Of several, the last descriptors, session type and window size count; and every
      argument and entry does, in order. */
  lemma {:induction false} LastOnesStand(rs: seq<Received>, r: Received)
    ensures LastFds(rs + [r]) == if r.message.fieldType.FdField? then Some(r.fds) else LastFds(rs)
    ensures LastSessionType(rs + [r])
         == if r.message.fieldType.SessionTypeField? && r.message.AsSessionType().Ok?
            then Some(r.message.AsSessionType().value) else LastSessionType(rs)
    ensures LastWinsize(rs + [r])
         == if r.message.fieldType.WinsizeField? && r.message.AsWinsize().Ok?
            then Some(r.message.AsWinsize().value) else LastWinsize(rs)
    ensures Said(rs + [r], ArgField)
         == Said(rs, ArgField) + if r.message.fieldType.ArgField? then [r.message.payload] else []
    ensures Said(rs + [r], EnvField)
         == Said(rs, EnvField) + if r.message.fieldType.EnvField? then [r.message.payload] else []
  {
    if rs == [] {
      assert rs + [r] == [r] && [r][1..] == [];
    } else {
      assert (rs + [r])[0] == rs[0] && (rs + [r])[1..] == rs[1..] + [r];
      LastOnesStand(rs[1..], r);
    }
  }

  // ---- the script, message by message ------------------------------------------------------

  lemma {:induction false} EntryAt(env: seq<Text>, k: nat)
    ensures |Entries(env)| == |env|
    ensures k < |env| ==> Entries(env)[k] == Received(Message(EnvField, env[k]), [])
  {
    if env != [] {
      EntryAt(env[1..], if k > 0 then k - 1 else 0);
    }
  }

  lemma {:induction false} ArgumentAt(args: seq<Text>, k: nat)
    ensures |Arguments(args)| == |args|
    ensures k < |args| ==> Arguments(args)[k] == Received(Message(ArgField, args[k]), [])
  {
    if args != [] {
      ArgumentAt(args[1..], if k > 0 then k - 1 else 0);
    }
  }

  /** What the client sends, place by place: the secret first if there is one, then
      the environment and the arguments in order, the kind of session, its size if
      it has one, the three descriptors, and End. Only the descriptors' message
      carries any. */
  lemma ScriptInOrder(request: ClientRequest, stdio: seq<Fd>, secret: Option<Text>, k: nat)
    ensures var script := Script(request, stdio, secret);
            var env := if secret.Some? then 1 else 0;
            var args := env + |request.env|;
            var kind := args + |request.args|;
            var fds := kind + 1 + if request.winsize.Some? then 1 else 0;
            && |script| == fds + 2
            && (secret.Some? ==> script[0] == Received(Message(SecretField, secret.value), []))
            && (k < |request.env| ==> script[env + k] == Received(Message(EnvField, request.env[k]), []))
            && (k < |request.args| ==> script[args + k] == Received(Message(ArgField, request.args[k]), []))
            && script[kind] == Received(SessionTypeMessage(request.sessionType), [])
            && (request.winsize.Some? ==> script[kind + 1] == Received(WinsizeMessage(request.winsize.value), []))
            && script[fds] == Received(Message(FdField, [3, 0, 0, 0]), stdio)
            && script[fds + 1] == Received(Message(EndField, []), [])
  {
    EntryAt(request.env, k);
    ArgumentAt(request.args, k);
    assert Le32(3) == [3, 0, 0, 0];
  }

  lemma {:induction false} SaidJoins(a: seq<Received>, b: seq<Received>, t: FieldType)
    ensures Said(a + b, t) == Said(a, t) + Said(b, t)
  {
    if a == [] {
      assert a + b == b;
    } else {
      assert (a + b)[0] == a[0] && (a + b)[1..] == a[1..] + b;
      SaidJoins(a[1..], b, t);
    }
  }

  lemma {:induction false} NothingElseSaid(rs: seq<Received>, t: FieldType)
    requires forall k :: 0 <= k < |rs| ==> rs[k].message.fieldType != t
    ensures Said(rs, t) == []
  {
    if rs != [] { NothingElseSaid(rs[1..], t); }
  }

  /** The secret is sent once, as it was given, and before anything else; without one
      none is. */
  lemma SecretIsSaid(request: ClientRequest, stdio: seq<Fd>, secret: Option<Text>)
    ensures Said(Script(request, stdio, secret), SecretField) == if secret.Some? then [secret.value] else []
    ensures secret.Some? ==> Script(request, stdio, secret)[0] == Received(Message(SecretField, secret.value), [])
  {
    var rest := Entries(request.env) + Arguments(request.args) + Closing(request, stdio)
                + [Received(EndMessage(), [])];
    assert Script(request, stdio, secret) == Opening(secret) + rest;
    forall k | 0 <= k < |rest|
      ensures !rest[k].message.fieldType.SecretField?
    {
      EntryAt(request.env, k);
      ArgumentAt(request.args, if k >= |request.env| then k - |request.env| else 0);
    }
    NothingElseSaid(rest, SecretField);
    SaidJoins(Opening(secret), rest, SecretField);
    if secret.Some? { assert Opening(secret)[1..] == []; }
  }

  /** The command line a daemon runs for a client's arguments. */
  function Command(config: DaemonConfig, args: seq<Text>): seq<Text> {
    var argv := config.fixedArgs + (if config.noClientArgv then [] else args);
    if argv == [] then [SHELL] else argv
  }

  /** What a client asks for is what the daemon runs, within its policy: its
      arguments and environment after the fixed ones, its session type, its window
      size or the default, and its three descriptors. */
  lemma ClientIsServed(config: DaemonConfig, request: ClientRequest, stdio: seq<Fd>, secret: Option<Text>)
    requires |stdio| == 3
    ensures Configure(config, NewDraft(config), Script(request, stdio, secret))
         == Ok(SessionRequest(Command(config, request.args),
                              config.fixedEnv + (if config.noClientEnv then [] else request.env),
                              request.sessionType, stdio, Or(request.winsize, DEFAULT_WINSIZE)))
  {
    var body, end := Body(request, stdio, secret), Received(EndMessage(), []);
    assert Script(request, stdio, secret) == body + [end] + [];
    BodySays(config, request, stdio, secret);
    ConfigurationMeans(config, body, end, []);
  }

  // ---- the outcome -----------------------------------------------------------------------

  datatype SessionOutcome = Exited(code: i32) | Failed(code: i32, message: Bytes) | Unauthorized(prompt: Bytes)

  /** "password: " and "<malformed error>" */
  const PROMPT: Bytes := [112, 97, 115, 115, 119, 111, 114, 100, 58, 32]
  const MALFORMED: Bytes := [60, 109, 97, 108, 102, 111, 114, 109, 101, 100, 32, 101, 114, 114, 111, 114, 62]

  function TextOr(m: Message, otherwise: Bytes): Bytes {
    if m.AsStr().Ok? then m.AsStr().value else otherwise
  }

  /** The message that ends a session, if `rs` holds one, with what came before. */
  function FirstTerminal(rs: seq<Received>): Option<nat>
    ensures FirstTerminal(rs).Some? ==> FirstTerminal(rs).value < |rs|
  {
    if rs == [] then None
    else if rs[0].message.fieldType.ExitField? || rs[0].message.fieldType.UnauthorizedField? then Some(0)
    else match FirstTerminal(rs[1..]) case Some(n) => Some(n + 1) case None => None
  }

  function FirstError(rs: seq<Received>): Option<Bytes> {
    if rs == [] then None
    else if rs[0].message.fieldType.ErrorField? then Some(TextOr(rs[0].message, MALFORMED))
    else FirstError(rs[1..])
  }

  function OutcomeAt(m: Message, failure: Option<Bytes>): Result<SessionOutcome, CoreError> {
    if m.fieldType.UnauthorizedField? then Ok(Unauthorized(TextOr(m, PROMPT)))
    else match m.AsI32()
      case Err(e) => Err(BadMessage(e))
      case Ok(code) => Ok(if failure.Some? then Failed(code, failure.value) else Exited(code))
  }

  /** The first exit or challenge decides, and the first error before it says why. */
  function Outcome(rs: seq<Received>): Result<SessionOutcome, CoreError> {
    match FirstTerminal(rs)
    case None => Err(DaemonClosed)
    case Some(n) => OutcomeAt(rs[n].message, FirstError(rs[..n]))
  }

  lemma {:induction false} FirstTerminalAfter(head: seq<Received>, r: Received, rest: seq<Received>)
    requires FirstTerminal(head) == None
    ensures var at := FirstTerminal(head + [r] + rest);
            if r.message.fieldType.ExitField? || r.message.fieldType.UnauthorizedField? then at == Some(|head|)
            else at == (match FirstTerminal(rest) case Some(n) => Some(|head| + 1 + n) case None => None)
  {
    var all := head + [r] + rest;
    if head == [] {
      assert all == [r] + rest && all[0] == r && all[1..] == rest;
    } else {
      assert all[0] == head[0] && all[1..] == head[1..] + [r] + rest;
      FirstTerminalAfter(head[1..], r, rest);
    }
  }

  lemma {:induction false} FirstErrorAfter(head: seq<Received>, r: Received)
    ensures FirstError(head + [r])
         == if FirstError(head).Some? || !r.message.fieldType.ErrorField? then FirstError(head)
            else Some(TextOr(r.message, MALFORMED))
  {
    if head == [] {
      assert head + [r] == [r] && [r][1..] == [];
    } else {
      assert (head + [r])[1..] == head[1..] + [r];
      FirstErrorAfter(head[1..], r);
    }
  }

  lemma {:induction false} NoTerminalAppends(head: seq<Received>, r: Received)
    requires FirstTerminal(head) == None && !r.message.fieldType.ExitField? && !r.message.fieldType.UnauthorizedField?
    ensures FirstTerminal(head + [r]) == None
  {
    FirstTerminalAfter(head, r, []);
    assert head + [r] + [] == head + [r];
  }

  method AwaitOutcome(transport: Transport) returns (r: Result<SessionOutcome, CoreError>)
    modifies transport`incoming
    ensures r == Outcome(old(transport.incoming))
  {
    ghost var all := transport.incoming;
    ghost var seen: seq<Received> := [];
    var failure: Option<Bytes> := None;
    while true
      invariant all == seen + transport.incoming && FirstTerminal(seen) == None && failure == FirstError(seen)
      decreases |transport.incoming|
    {
      var next := transport.Recv();
      if next.None? {
        assert all == seen;
        return Err(DaemonClosed);
      }
      ghost var r0 := next.value;
      ghost var rest := transport.incoming;
      assert all == seen + [r0] + rest;
      FirstTerminalAfter(seen, r0, rest);
      assert all[..|seen|] == seen;
      var message := next.value.message;
      match message.fieldType {
        case ExitField =>
          var code := message.AsI32();
          if code.Err? { return Err(BadMessage(code.error)); }
          return Ok(if failure.Some? then Failed(code.value, failure.value) else Exited(code.value));
        case UnauthorizedField =>
          var prompt := message.AsStr();
          return Ok(Unauthorized(if prompt.Ok? then prompt.value else PROMPT));
        case ErrorField =>
          if failure.None? {
            var text := message.AsStr();
            failure := Some(if text.Ok? then text.value else MALFORMED);
          }
        case _ =>
      }
      FirstErrorAfter(seen, r0);
      NoTerminalAppends(seen, r0);
      seen := seen + [r0];
    }
  }

  // ---- reporting -------------------------------------------------------------------------

  /** A refused client is told why and then that the session ended with 1. */
  method ReportRefusal(transport: Transport, why: Text)
    modifies transport`sent
    ensures transport.sent == old(transport.sent) + Refusal(why)
  {
    transport.Send(ErrorMessage(why), []);
    transport.Send(ExitMessage(1), []);
  }

  function Refusal(why: Text): seq<Received> {
    [Received(ErrorMessage(why), []), Received(ExitMessage(1), [])]
  }

  /** The words of the daemon's refusal reach the client, whatever follows; and an
      exit with no error before it is the program's own. */
  lemma OutcomeIsReported(why: Text, code: i32, rest: seq<Received>)
    ensures Outcome(Refusal(why) + rest) == Ok(Failed(1, why))
    ensures Outcome([Received(ExitMessage(code), [])] + rest) == Ok(Exited(code))
  {
    AccessorsInvertConstructors(why, 1, 0, Auto, DEFAULT_WINSIZE);
    AccessorsInvertConstructors(why, code, 0, Auto, DEFAULT_WINSIZE);
    var all := Refusal(why) + rest;
    assert all[0] == Refusal(why)[0] && all[1..][0] == Refusal(why)[1];
    assert FirstTerminal(all[1..]) == Some(0);
    assert all[..1] == [Refusal(why)[0]];
    var exited := [Received(ExitMessage(code), [])] + rest;
    assert exited[0] == Received(ExitMessage(code), []);
  }

  /** Nothing that ends a session. */
  predicate GoesOn(rs: seq<Received>) {
    forall k :: 0 <= k < |rs| ==> !rs[k].message.fieldType.ExitField? && !rs[k].message.fieldType.UnauthorizedField?
  }

  predicate Errorless(rs: seq<Received>) {
    forall k :: 0 <= k < |rs| ==> !rs[k].message.fieldType.ErrorField?
  }

  lemma {:induction false} GoesOnMeans(rs: seq<Received>)
    ensures GoesOn(rs) ==> FirstTerminal(rs) == None
    ensures Errorless(rs) ==> FirstError(rs) == None
  {
    if rs != [] { GoesOnMeans(rs[1..]); }
  }

  lemma {:induction false} FirstErrorStands(a: seq<Received>, b: seq<Received>)
    ensures FirstError(a).Some? ==> FirstError(a + b) == FirstError(a)
    ensures FirstError(a).None? ==> FirstError(a + b) == FirstError(b)
  {
    if a == [] {
      assert a + b == b;
    } else {
      assert (a + b)[0] == a[0] && (a + b)[1..] == a[1..] + b;
      FirstErrorStands(a[1..], b);
    }
  }

  /** A message that ends the session does so whatever came before and whatever
      comes after. */
  lemma EndsThere(head: seq<Received>, r: Received, rest: seq<Received>)
    requires GoesOn(head) && (r.message.fieldType.ExitField? || r.message.fieldType.UnauthorizedField?)
    ensures Outcome(head + [r] + rest) == OutcomeAt(r.message, FirstError(head))
  {
    GoesOnMeans(head);
    FirstTerminalAfter(head, r, rest);
    var all := head + [r] + rest;
    assert all[|head|] == r && all[..|head|] == head;
  }

  /** The session outlasts messages that do not end it, and a daemon that goes away
      before it does is an error. */
  lemma NothingEnds(rs: seq<Received>)
    requires GoesOn(rs)
    ensures Outcome(rs) == Err(DaemonClosed)
  {
    GoesOnMeans(rs);
  }

  /** A challenge reaches the client in the daemon's own words, or as `password: ` if
      those are no text. */
  lemma ChallengeIsReported(head: seq<Received>, prompt: Bytes, rest: seq<Received>)
    requires GoesOn(head)
    ensures Outcome(head + [Received(Message(UnauthorizedField, prompt), [])] + rest)
         == Ok(Unauthorized(if Utf8(prompt) then prompt else [112, 97, 115, 115, 119, 111, 114, 100, 58, 32]))
  {
    EndsThere(head, Received(Message(UnauthorizedField, prompt), []), rest);
  }

  /** An exit with no error before it is the program's own; an exit that holds no
      number is an error. */
  lemma ExitIsReported(head: seq<Received>, code: i32, junk: Bytes, rest: seq<Received>)
    requires GoesOn(head) && Errorless(head)
    ensures Outcome(head + [Received(ExitMessage(code), [])] + rest) == Ok(Exited(code))
    ensures |junk| != 4 ==> Outcome(head + [Received(Message(ExitField, junk), [])] + rest).Err?
  {
    GoesOnMeans(head);
    AccessorsInvertConstructors([], code, 0, Auto, DEFAULT_WINSIZE);
    EndsThere(head, Received(ExitMessage(code), []), rest);
    EndsThere(head, Received(Message(ExitField, junk), []), rest);
  }

  /** Of the errors before an exit the first one is the reason, in its own words or as
      `<malformed error>`. */
  lemma FirstErrorIsReported(before: seq<Received>, why: Bytes, between: seq<Received>, code: i32, rest: seq<Received>)
    requires GoesOn(before) && Errorless(before) && GoesOn(between)
    ensures var head := before + [Received(Message(ErrorField, why), [])] + between;
            Outcome(head + [Received(ExitMessage(code), [])] + rest)
            == Ok(Failed(code, if Utf8(why) then why
                               else [60, 109, 97, 108, 102, 111, 114, 109, 101, 100, 32, 101, 114, 114, 111, 114, 62]))
  {
    var error := Received(Message(ErrorField, why), []);
    var head := before + [error] + between;
    GoesOnMeans(before);
    FirstErrorStands(before, [error] + between);
    assert before + ([error] + between) == head;
    AccessorsInvertConstructors([], code, 0, Auto, DEFAULT_WINSIZE);
    EndsThere(head, Received(ExitMessage(code), []), rest);
  }

  // ---- the program's environment -----------------------------------------------------------

  /** Where an entry's key ends. */
  function KeyLength(entry: Bytes): Option<nat>
    ensures KeyLength(entry).Some? ==> KeyLength(entry).value < |entry|
  {
    if entry == [] then None
    else if entry[0] == 61 then Some(0)
    else match KeyLength(entry[1..]) case Some(n) => Some(n + 1) case None => None
  }

  /** The environment `build_command` installs: nothing inherited, entries without
      `=` skipped, and a later entry for a key in place of an earlier one. */
  function Environment(envp: seq<Bytes>): map<Bytes, Bytes> {
    if envp == [] then map[]
    else
      var last := envp[|envp| - 1];
      var before := Environment(envp[..|envp| - 1]);
      match KeyLength(last) case None => before case Some(n) => before[last[..n] := last[n + 1..]]
  }

  /** A key ends at the first `=`, byte 61, and an entry without one sets nothing; the
      last entry for a key stands, and its value may hold `=` itself. */
  lemma EntrySets(envp: seq<Bytes>, key: Bytes, value: Bytes)
    requires 61 !in key
    ensures Environment(envp + [key + [61] + value]) == Environment(envp)[key := value]
    ensures Environment(envp + [key]) == Environment(envp)
  {
    KeyEnds(key, value);
    var entry := key + [61] + value;
    assert (envp + [entry])[..|envp|] == envp && (envp + [key])[..|envp|] == envp;
    assert entry[..|key|] == key && entry[|key| + 1..] == value;
  }

  lemma {:induction false} KeyEnds(key: Bytes, value: Bytes)
    requires 61 !in key
    ensures KeyLength(key + [61] + value) == Some(|key|) && KeyLength(key) == None
  {
    var entry := key + [61] + value;
    if key == [] {
      assert entry[0] == 61;
    } else {
      assert entry[0] == key[0] && entry[1..] == key[1..] + [61] + value;
      KeyEnds(key[1..], value);
    }
  }

  method BuildEnvironment(envp: seq<Bytes>) returns (env: map<Bytes, Bytes>)
    ensures env == Environment(envp)
  {
    env := map[];
    var i := 0;
    while i < |envp|
      invariant 0 <= i <= |envp| && env == Environment(envp[..i])
    {
      assert envp[..i + 1][..i] == envp[..i];
      var n := KeyLength(envp[i]);
      if n.Some? { env := env[envp[i][..n.value] := envp[i][n.value + 1..]]; }
      i := i + 1;
    }
    assert envp[..i] == envp;
  }

  /** The daemon's fixed entries come first, so a client's entry for the same key
      wins, unless the policy shuts the client's environment out. */
  lemma {:induction false} ClientEntriesWin(fixed: seq<Bytes>, env: seq<Bytes>)
    ensures Environment(fixed + env) == Environment(fixed) + Environment(env)
    decreases |env|
  {
    if env == [] {
      assert fixed + env == fixed;
    } else {
      var all := fixed + env;
      assert all[..|all| - 1] == fixed + env[..|env| - 1];
      ClientEntriesWin(fixed, env[..|env| - 1]);
    }
  }
}
