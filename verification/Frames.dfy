/** The two frame enums, their validation rules and their Postcard payloads
    (protocol/src/lib.rs). */
module Frames {
  import opened Wrappers
  import opened Utf8
  import opened Postcard

  const PROTOCOL_VERSION: Byte := 1
  const MAX_FRAME_BYTES: nat := 8 * 1024
  const MAX_BODY_BYTES: nat := 4096
  const MAX_USERNAME_BYTES: nat := 32
  const MIN_USERNAME_BYTES: nat := 1

  datatype ClientFrame =
    | Hello(version: Byte, username: Str)
    | Send(body: Str)
    | Pong
    | Leave

  datatype ServerFrame =
    | Welcome(motd: Str, occupancy: U32)
    | Rejected(reason: Str)
    | Joined(username: Str)
    | Departed(username: Str)
    | Message(from: Str, body: Str)
    | Ping
    | Error(reason: Str)

  datatype ValidationError =
    | UsernameEmpty
    | UsernameTooLong(actual: nat, max: nat)
    | UsernameInvalidByte
    | BodyEmpty
    | BodyTooLong(actual: nat, max: nat)

  predicate NameByte(b: Byte) {
    || '0' as int <= b <= '9' as int
    || 'A' as int <= b <= 'Z' as int
    || 'a' as int <= b <= 'z' as int
    || b == '_' as int
    || b == '-' as int
  }

  function ValidateUsername(s: Str): (e: Option<ValidationError>)
    ensures e.None? <==>
      && 1 <= |s| <= 32
      && forall b :: b in s ==> 48 <= b <= 57 || 65 <= b <= 90 || 97 <= b <= 122 || b == 95 || b == 45
    ensures e == Some(UsernameEmpty) <==> |s| == 0
    ensures e == Some(UsernameTooLong(|s|, 32)) <==> |s| > 32
  {
    if |s| < MIN_USERNAME_BYTES then Some(UsernameEmpty)
    else if |s| > MAX_USERNAME_BYTES then Some(UsernameTooLong(|s|, MAX_USERNAME_BYTES))
    else if exists b | b in s :: !NameByte(b) then Some(UsernameInvalidByte)
    else None
  }

  function ValidateBody(s: Str): (e: Option<ValidationError>)
    ensures e.None? <==> 1 <= |s| <= 4096
    ensures e == Some(BodyEmpty) <==> |s| == 0
    ensures e == Some(BodyTooLong(|s|, 4096)) <==> |s| > 4096
  {
    if s == [] then Some(BodyEmpty)
    else if |s| > MAX_BODY_BYTES then Some(BodyTooLong(|s|, MAX_BODY_BYTES))
    else None
  }

  predicate ValidName(s: Str) { ValidateUsername(s).None? }

  predicate ValidBody(s: Str) { ValidateBody(s).None? }

  // ----- payloads: the variant's index as a u32 varint, then its fields in order -----

  function ClientTag(f: ClientFrame): U32 {
    match f
    case Hello(_, _) => 0
    case Send(_) => 1
    case Pong => 2
    case Leave => 3
  }

  function ClientFields(f: ClientFrame): Bytes {
    match f
    case Hello(version, username) => [version] + PutStr(username)
    case Send(body) => PutStr(body)
    case _ => []
  }

  function ClientPayload(f: ClientFrame): Bytes { PutVarint(ClientTag(f)) + ClientFields(f) }

  function ServerTag(f: ServerFrame): U32 {
    match f
    case Welcome(_, _) => 0
    case Rejected(_) => 1
    case Joined(_) => 2
    case Departed(_) => 3
    case Message(_, _) => 4
    case Ping => 5
    case Error(_) => 6
  }

  function ServerFields(f: ServerFrame): Bytes {
    match f
    case Welcome(motd, occupancy) => PutStr(motd) + PutVarint(occupancy)
    case Rejected(reason) => PutStr(reason)
    case Joined(username) => PutStr(username)
    case Departed(username) => PutStr(username)
    case Message(from, body) => PutStr(from) + PutStr(body)
    case Ping => []
    case Error(reason) => PutStr(reason)
  }

  function ServerPayload(f: ServerFrame): Bytes { PutVarint(ServerTag(f)) + ServerFields(f) }

  /** `postcard::from_bytes`: what follows the last field is ignored. */
  function ParseClient(s: Bytes): Result<ClientFrame, DecodeError> {
    match TakeU32(s)
    case Err(e) => Err(e)
    case Ok(Taken(tag, fields)) => ParseClientFields(tag, fields)
  }

  function ParseClientFields(tag: U32, s: Bytes): Result<ClientFrame, DecodeError> {
    match tag
    case 0 =>
      (match TakeByte(s)
       case Err(e) => Err(e)
       case Ok(version) =>
         match TakeStr(version.rest)
         case Err(e) => Err(e)
         case Ok(username) => Ok(Hello(version.value, username.value)))
    case 1 =>
      (match TakeStr(s)
       case Err(e) => Err(e)
       case Ok(body) => Ok(Send(body.value)))
    case 2 => Ok(Pong)
    case 3 => Ok(Leave)
    case _ => Err(BadVariant)
  }

  function ParseServer(s: Bytes): Result<ServerFrame, DecodeError> {
    match TakeU32(s)
    case Err(e) => Err(e)
    case Ok(Taken(tag, fields)) => ParseServerFields(tag, fields)
  }

  function ParseServerFields(tag: U32, s: Bytes): Result<ServerFrame, DecodeError> {
    match tag
    case 0 =>
      (match TakeStr(s)
       case Err(e) => Err(e)
       case Ok(motd) =>
         match TakeU32(motd.rest)
         case Err(e) => Err(e)
         case Ok(occupancy) => Ok(Welcome(motd.value, occupancy.value)))
    case 4 =>
      (match TakeStr(s)
       case Err(e) => Err(e)
       case Ok(from) =>
         match TakeStr(from.rest)
         case Err(e) => Err(e)
         case Ok(body) => Ok(Message(from.value, body.value)))
    case 5 => Ok(Ping)
    case _ =>
      if tag > 6 then Err(BadVariant)
      else
        match TakeStr(s)
        case Err(e) => Err(e)
        case Ok(text) => Ok(TextFrame(tag, text.value))
  }

  /** The variants that hold a single string. */
  function TextFrame(tag: U32, text: Str): ServerFrame {
    match tag
    case 1 => Rejected(text)
    case 2 => Joined(text)
    case 3 => Departed(text)
    case _ => Error(text)
  }

  lemma TagRoundTrip(tag: U32, fields: Bytes, trailing: Bytes)
    ensures TakeU32(PutVarint(tag) + fields + trailing) == Ok(Taken(tag, fields + trailing))
  {
    U32RoundTrip(tag, fields + trailing);
    assert PutVarint(tag) + fields + trailing == PutVarint(tag) + (fields + trailing);
  }

  lemma ClientFieldsRoundTrip(f: ClientFrame, trailing: Bytes)
    requires |ClientFields(f)| <= MAX_FRAME_BYTES
    ensures ParseClientFields(ClientTag(f), ClientFields(f) + trailing) == Ok(f)
  {
    hide TakeStr, PutStr;
    match f
    case Hello(version, username) =>
      StrSizeBound(username);
      StrRoundTrip(username, trailing);
      assert (ClientFields(f) + trailing)[1..] == PutStr(username) + trailing;
    case Send(body) =>
      StrSizeBound(body);
      StrRoundTrip(body, trailing);
    case Pong =>
    case Leave =>
  }

  lemma ServerFieldsRoundTrip(f: ServerFrame, trailing: Bytes)
    requires |ServerFields(f)| <= MAX_FRAME_BYTES
    ensures ParseServerFields(ServerTag(f), ServerFields(f) + trailing) == Ok(f)
  {
    hide TakeStr, TakeU32, PutStr;
    match f
    case Welcome(motd, occupancy) =>
      StrSizeBound(motd);
      StrRoundTrip(motd, PutVarint(occupancy) + trailing);
      U32RoundTrip(occupancy, trailing);
      assert ServerFields(f) + trailing == PutStr(motd) + (PutVarint(occupancy) + trailing);
    case Message(from, body) =>
      StrSizeBound(from);
      StrSizeBound(body);
      StrRoundTrip(from, PutStr(body) + trailing);
      StrRoundTrip(body, trailing);
      assert ServerFields(f) + trailing == PutStr(from) + (PutStr(body) + trailing);
    case Ping =>
    case Rejected(text) =>
      StrSizeBound(text);
      StrRoundTrip(text, trailing);
    case Joined(text) =>
      StrSizeBound(text);
      StrRoundTrip(text, trailing);
    case Departed(text) =>
      StrSizeBound(text);
      StrRoundTrip(text, trailing);
    case Error(text) =>
      StrSizeBound(text);
      StrRoundTrip(text, trailing);
  }

  lemma StrSizeBound(v: Str)
    ensures |v| < |PutStr(v)|
  {
  }

  /** A payload that fits a frame parses back to its frame, whatever bytes follow it inside
      the frame: the parser is a left inverse and ignores trailing bytes. */
  lemma ClientRoundTrip(f: ClientFrame, trailing: Bytes)
    requires |ClientPayload(f)| <= MAX_FRAME_BYTES
    ensures ParseClient(ClientPayload(f) + trailing) == Ok(f)
  {
    TagRoundTrip(ClientTag(f), ClientFields(f), trailing);
    ClientFieldsRoundTrip(f, trailing);
  }

  lemma ServerRoundTrip(f: ServerFrame, trailing: Bytes)
    requires |ServerPayload(f)| <= MAX_FRAME_BYTES
    ensures ParseServer(ServerPayload(f) + trailing) == Ok(f)
  {
    TagRoundTrip(ServerTag(f), ServerFields(f), trailing);
    ServerFieldsRoundTrip(f, trailing);
  }

  // ----- sizes -----

  lemma StrSize(v: Str)
    requires |v| < 16384
    ensures |PutStr(v)| == |v| + (if |v| < 128 then 1 else 2)
  {
    if |v| >= 128 {
      assert PutVarint(|v| / 128) == [|v| / 128];
    }
  }

  /** Every frame whose texts are short enough fits. A Message with the longest name and the
      longest body, 4132 bytes, is the largest frame that carries validated text. */
  lemma MessageSize(from: Str, body: Str)
    requires ValidName(from) && ValidBody(body)
    ensures |ServerPayload(Message(from, body))|
         == 2 + |from| + |body| + (if |body| < 128 then 1 else 2) <= 4132 <= MAX_FRAME_BYTES
    ensures |ServerPayload(Message(from, body))| == 4132 <==> |from| == MAX_USERNAME_BYTES && |body| == MAX_BODY_BYTES
  {
    StrSize(from);
    StrSize(body);
  }

  /** Whether `encode_frame` accepts the frame. */
  predicate Fits(f: ServerFrame) { |ServerPayload(f)| <= MAX_FRAME_BYTES }

  lemma SmallFits(f: ServerFrame)
    requires match f
             case Welcome(motd, _) => |motd| < 128
             case Rejected(reason) => |reason| < 128
             case Joined(username) => |username| < 128
             case Departed(username) => |username| < 128
             case Message(from, body) => ValidName(from) && ValidBody(body)
             case Ping => true
             case Error(reason) => |reason| < 128
    ensures Fits(f)
  {
    match f
    case Welcome(motd, occupancy) =>
      StrSize(motd);
      assert VarintLimit(3, 127) == 128 * 128 * 128;
      assert VarintLimit(5, 127) == 128 * 128 * 128 * 128 * 128;
      VarintLength(occupancy, 5);
    case Rejected(reason) => StrSize(reason);
    case Joined(username) => StrSize(username);
    case Departed(username) => StrSize(username);
    case Message(from, body) => MessageSize(from, body);
    case Ping =>
    case Error(reason) => StrSize(reason);
  }
}
