/** The transport-agnostic protocol: typed messages and their framing
    (crates/capsudo-proto/src/lib.rs). */
module Proto {
  import opened ByteStrings

  const MAX_PAYLOAD: nat := 16 * 1024 * 1024
  const HEADER_SIZE: nat := 8

  datatype FieldType =
    | ArgField | EnvField | ExitField | FdField | SessionTypeField | ErrorField
    | SecretField | UnauthorizedField | WinsizeField | EndField

  datatype SessionType = Auto | Interactive | NonInteractive

  datatype ProtoError =
    | UnknownFieldType(value: u32)
    | InvalidSessionType(code: byte)
    | PayloadTooLarge(len: u32)
    | InvalidPayload(fieldType: FieldType)

  datatype Result<+T, +E> = Ok(value: T) | Err(error: E)

  function FieldCode(t: FieldType): u32 {
    match t
    case ArgField => 1
    case EnvField => 2
    case ExitField => 3
    case FdField => 4
    case SessionTypeField => 5
    case ErrorField => 6
    case SecretField => 7
    case UnauthorizedField => 8
    case WinsizeField => 9
    case EndField => 255
  }

  function FieldOf(code: u32): Result<FieldType, ProtoError> {
    match code
    case 1 => Ok(ArgField)
    case 2 => Ok(EnvField)
    case 3 => Ok(ExitField)
    case 4 => Ok(FdField)
    case 5 => Ok(SessionTypeField)
    case 6 => Ok(ErrorField)
    case 7 => Ok(SecretField)
    case 8 => Ok(UnauthorizedField)
    case 9 => Ok(WinsizeField)
    case 255 => Ok(EndField)
    case _ => Err(UnknownFieldType(code))
  }

  function SessionCode(t: SessionType): byte {
    match t
    case Auto => 1
    case Interactive => 2
    case NonInteractive => 3
  }

  function SessionOf(code: byte): Result<SessionType, ProtoError> {
    match code
    case 1 => Ok(Auto)
    case 2 => Ok(Interactive)
    case 3 => Ok(NonInteractive)
    case _ => Err(InvalidSessionType(code))
  }

  datatype Header = Header(fieldType: FieldType, len: u32) {
    function Encode(): (r: Bytes)
      ensures |r| == HEADER_SIZE
    {
      Le32(FieldCode(fieldType)) + Le32(len)
    }

    static function Decode(b: Bytes): Result<Header, ProtoError>
      requires |b| == HEADER_SIZE
    {
      match FieldOf(De32(b[..4]))
      case Err(e) => Err(e)
      case Ok(t) =>
        var len := De32(b[4..]);
        if len > MAX_PAYLOAD then Err(PayloadTooLarge(len)) else Ok(Header(t, len))
    }
  }

  datatype Message = Message(fieldType: FieldType, payload: Bytes) {
    /** The length field is a cast to `u32`, so it wraps past 4 GiB. */
    function HeaderOf(): Header {
      Header(fieldType, |payload| % 0x1_0000_0000)
    }

    function Encode(): Bytes {
      HeaderOf().Encode() + payload
    }

    function AsStr(): Result<Text, ProtoError> {
      if Utf8(payload) then Ok(payload) else Err(InvalidPayload(fieldType))
    }

    function AsU32(): Result<u32, ProtoError> {
      if |payload| == 4 then Ok(De32(payload)) else Err(InvalidPayload(fieldType))
    }

    function AsI32(): Result<i32, ProtoError> {
      match AsU32()
      case Ok(n) => Ok(ToI32(n))
      case Err(e) => Err(e)
    }

    function AsWinsize(): Result<Winsize, ProtoError> {
      if |payload| == 8
      then Ok(Winsize(De16(payload[0..2]), De16(payload[2..4]), De16(payload[4..6]), De16(payload[6..8])))
      else Err(InvalidPayload(fieldType))
    }

    function AsSessionType(): Result<SessionType, ProtoError> {
      match AsU32()
      case Err(e) => Err(e)
      case Ok(n) => if n < 0x100 then SessionOf(n) else Err(InvalidPayload(fieldType))
    }
  }

  datatype Winsize = Winsize(rows: u16, cols: u16, xpixels: u16, ypixels: u16)

  function ArgMessage(s: Text): Message { Message(ArgField, s) }
  function EnvMessage(s: Text): Message { Message(EnvField, s) }
  function ExitMessage(code: i32): Message { Message(ExitField, Le32(FromI32(code))) }
  function FdsMessage(count: u32): Message { Message(FdField, Le32(count)) }
  function ErrorMessage(s: Text): Message { Message(ErrorField, s) }
  function SecretMessage(s: Bytes): Message { Message(SecretField, s) }
  function EndMessage(): Message { Message(EndField, []) }
  function SessionTypeMessage(t: SessionType): Message { Message(SessionTypeField, Le32(SessionCode(t))) }
  function WinsizeMessage(w: Winsize): Message {
    Message(WinsizeField, Le16(w.rows) + Le16(w.cols) + Le16(w.xpixels) + Le16(w.ypixels))
  }

  /** Parses one whole encoded message, and nothing more or less
      (`decode_message` in crates/capsudo-transport/src/mux.rs). */
  function DecodeMessage(b: Bytes): Option<Message> {
    if |b| < HEADER_SIZE then None
    else match Header.Decode(b[..HEADER_SIZE])
      case Err(_) => None
      case Ok(h) =>
        if |b| != HEADER_SIZE + h.len then None
        else Some(Message(h.fieldType, b[HEADER_SIZE..]))
  }

  lemma HeaderRoundTrip(h: Header)
    ensures Header.Decode(h.Encode())
         == if h.len > MAX_PAYLOAD then Err(PayloadTooLarge(h.len)) else Ok(h)
  {
    var b := h.Encode();
    assert b[..4] == Le32(FieldCode(h.fieldType)) && b[4..] == Le32(h.len);
    Le32RoundTrip(FieldCode(h.fieldType));
    Le32RoundTrip(h.len);
  }

  /** A message survives the wire exactly when its payload is at most
      MAX_PAYLOAD; nothing larger ever decodes, not even past the 4 GiB wrap. */
  lemma MessageRoundTrip(m: Message)
    ensures DecodeMessage(m.Encode()) == if |m.payload| <= MAX_PAYLOAD then Some(m) else None
  {
    var b := m.Encode();
    assert b[..HEADER_SIZE] == m.HeaderOf().Encode() && b[HEADER_SIZE..] == m.payload;
    HeaderRoundTrip(m.HeaderOf());
  }

  /** Whatever buffer decodes is the encoding of the message it decodes to. */
  lemma DecodedReencodes(b: Bytes)
    requires DecodeMessage(b).Some?
    ensures DecodeMessage(b).value.Encode() == b
  {
    var h := Header.Decode(b[..HEADER_SIZE]).value;
    var head := b[..HEADER_SIZE];
    De32RoundTrip(head[..4]);
    De32RoundTrip(head[4..]);
    assert head == head[..4] + head[4..];
    assert b == head + b[HEADER_SIZE..];
    assert DecodeMessage(b).value.HeaderOf() == h;
  }

  /** Every typed accessor inverts its constructor. */
  lemma AccessorsInvertConstructors(s: Text, code: i32, count: u32, t: SessionType, w: Winsize)
    ensures ArgMessage(s).AsStr() == Ok(s) && EnvMessage(s).AsStr() == Ok(s) && ErrorMessage(s).AsStr() == Ok(s)
    ensures ExitMessage(code).AsI32() == Ok(code)
    ensures FdsMessage(count).AsU32() == Ok(count)
    ensures SessionTypeMessage(t).AsSessionType() == Ok(t)
    ensures WinsizeMessage(w).AsWinsize() == Ok(w)
  {
    Le32RoundTrip(FromI32(code));
    Le32RoundTrip(count);
    Le32RoundTrip(SessionCode(t));
    var p := WinsizeMessage(w).payload;
    assert p[0..2] == Le16(w.rows) && p[2..4] == Le16(w.cols) && p[4..6] == Le16(w.xpixels)
      && p[6..8] == Le16(w.ypixels);
  }
}
