/** What one session decides: its answer to the first frame, and each turn of its serve loop
    (server/src/actor/session.rs). */
module SessionLoop {
  import opened Wrappers
  import opened Utf8
  import opened Postcard
  import opened Frames
  import opened TokenBucket

  /** The timings and limits a session reads (server/src/config.rs). Times are in seconds. */
  datatype Config = Config(
    idleTimeout: real,
    helloTimeout: real,
    goodbyeTimeout: real,
    burst: real,
    refillPerSec: real)
  {
    function Limits(): Limits { TokenBucket.Limits(burst, refillPerSec) }

    predicate Valid() { idleTimeout > 0.0 && helloTimeout > 0.0 && goodbyeTimeout > 0.0 && Limits().Valid() }
  }

  // ----- texts -----

  function Decimal(n: nat): (s: string)
    ensures s != []
    decreases n
  {
    if n < 10 then [['0', '1', '2', '3', '4', '5', '6', '7', '8', '9'][n]]
    else Decimal(n / 10) + Decimal(n % 10)
  }

  lemma DecimalLength(n: nat)
    ensures n < 10 ==> |Decimal(n)| == 1
    ensures n < 1_000 ==> |Decimal(n)| <= 3
    ensures n < 10_000 ==> |Decimal(n)| <= 4
  {
    if n >= 10 { assert |Decimal(n)| == |Decimal(n / 10)| + 1; }
    if n >= 100 { assert |Decimal(n / 10)| == |Decimal(n / 10 / 10)| + 1; }
    if n >= 1_000 { assert |Decimal(n / 10 / 10)| == |Decimal(n / 10 / 10 / 10)| + 1; }
  }

  function Welcoming(name: Str): Str { Concat(Concat(Ascii("welcome, "), name), Ascii(".")) }

  function AlreadyTaken(name: Str): Str { Concat(Concat(Ascii("username '"), name), Ascii("' is already taken")) }

  function Describe(e: ValidationError): Str {
    match e
    case UsernameEmpty => Ascii("username is empty (must be 1..=32 bytes)")
    case UsernameTooLong(actual, max) => Ascii("username is " + Decimal(actual) + " bytes; max is " + Decimal(max))
    case UsernameInvalidByte => Ascii("username contains an invalid byte (allowed: ASCII alnum, '_', '-')")
    case BodyEmpty => Ascii("body is empty")
    case BodyTooLong(actual, max) => Ascii("body is " + Decimal(actual) + " bytes; max is " + Decimal(max))
  }

  // ----- the handshake -----

  datatype Verdict = Refuse(frame: ServerFrame) | Accept(name: Str)

  function Judge(first: ClientFrame): Verdict {
    match first
    case Hello(version, username) =>
      if version != PROTOCOL_VERSION then
        Refuse(Rejected(Ascii("protocol version mismatch: server=1, client=" + Decimal(version))))
      else
        (match ValidateUsername(username)
         case Some(e) => Refuse(Rejected(Describe(e)))
         case None => Accept(username))
    case _ => Refuse(Rejected(Ascii("first frame must be Hello")))
  }

  function WelcomeFrame(name: Str, occupancy: int): ServerFrame {
    Welcome(Welcoming(name), if 0 <= occupancy < U32_LIMIT then occupancy else U32_LIMIT - 1)
  }

  // ----- one turn of the serve loop -----

  /** What the reader hands over: a frame, the end of the stream, or a decoding error. */
  datatype Inbound = Frame(frame: ClientFrame) | Eof | Garbage

  datatype Arm =
    | OnShutdown
    | OnRead(inbound: Inbound)
    | OnMail(frame: Option<ServerFrame>)
    | OnTick

  /** Which arms of the select could run. */
  datatype Ready = Ready(cancelled: bool, inbound: Option<Inbound>, mail: Option<Option<ServerFrame>>, tick: bool)

  /** The select is biased: shutdown, then the reader, then the mailbox, then the timer. */
  function Select(r: Ready): Option<Arm> {
    if r.cancelled then Some(OnShutdown)
    else if r.inbound.Some? then Some(OnRead(r.inbound.value))
    else if r.mail.Some? then Some(OnMail(r.mail.value))
    else if r.tick then Some(OnTick)
    else None
  }

  /** The loop's variables. */
  datatype Vars = Vars(lastActivity: real, bucket: Bucket)

  /** What a turn leads to; after a last write, or a stop, the loop is over. */
  datatype Reaction =
    | Write(frame: ServerFrame, last: bool)
    | Broadcast(frame: ServerFrame)
    | Continue
    | Stop

  predicate Final(r: Reaction) { r.Stop? || (r.Write? && r.last) }

  function Start(cfg: Config, now: real): Vars { Vars(now, Bucket(cfg.burst, now)) }

  const ONE_MESSAGE := 1.0

  function OnSend(cfg: Config, me: Str, v: Vars, now: real, body: Str): (Vars, Reaction) {
    match ValidateBody(body)
    case Some(e) => (v, Write(Error(Describe(e)), false))
    case None =>
      var call := Call(now, ONE_MESSAGE);
      var v' := v.(bucket := Consume(cfg.Limits(), v.bucket, call));
      if Admits(cfg.Limits(), v.bucket, call) then (v', Broadcast(Message(me, body)))
      else (v', Write(Error(Ascii("rate limit exceeded; slow down")), false))
  }

  function OnFrame(cfg: Config, me: Str, v: Vars, now: real, frame: ClientFrame): (Vars, Reaction) {
    var v := v.(lastActivity := now);
    match frame
    case Send(body) => OnSend(cfg, me, v, now, body)
    case Pong => (v, Continue)
    case Leave => (v, Stop)
    case Hello(_, _) => (v, Write(Error(Ascii("protocol violation: Hello after handshake")), true))
  }

  function React(cfg: Config, me: Str, v: Vars, now: real, arm: Arm): (Vars, Reaction) {
    match arm
    case OnShutdown => (v, Write(Error(Ascii("server shutting down")), true))
    case OnRead(Frame(frame)) => OnFrame(cfg, me, v, now, frame)
    case OnRead(_) => (v, Stop)
    case OnMail(None) => (v, Stop)
    case OnMail(Some(frame)) => (v, Write(frame, false))
    case OnTick =>
      if Elapsed(v.lastActivity, now) > cfg.idleTimeout then (v, Write(Error(Ascii("idle timeout")), true))
      else (v, Write(Ping, false))
  }

  // ----- every frame a session builds fits -----

  predicate SmallText(s: Str) { |s| < 128 }

  /** The sizes a decoded frame can have. */
  predicate FromWire(frame: ClientFrame) {
    match frame
    case Hello(_, username) => |username| <= MAX_FRAME_BYTES
    case Send(body) => |body| <= MAX_FRAME_BYTES
    case _ => true
  }

  lemma TakenIsShorter(s: Bytes, octets: nat, last: nat)
    requires TakeVarint(s, octets, last).Ok?
    ensures |TakeVarint(s, octets, last).value.rest| < |s|
    decreases octets
  {
  }

  lemma ParsedIsFromWire(payload: Bytes)
    requires |payload| <= MAX_FRAME_BYTES && ParseClient(payload).Ok?
    ensures FromWire(ParseClient(payload).value)
  {
    TakenIsShorter(payload, U32_OCTETS, U32_LAST);
    var tagged := TakeU32(payload).value;
    StrIsShorter(tagged.rest);
    if tagged.rest != [] { StrIsShorter(tagged.rest[1..]); }
  }

  lemma StrIsShorter(s: Bytes)
    ensures TakeStr(s).Ok? ==> |TakeStr(s).value.value| <= |s|
  {
    if TakeVarint(s, USIZE_OCTETS, USIZE_LAST).Ok? { TakenIsShorter(s, USIZE_OCTETS, USIZE_LAST); }
  }

  lemma UsernameErrorIsSmall(username: Str)
    requires |username| <= MAX_FRAME_BYTES && ValidateUsername(username).Some?
    ensures SmallText(Describe(ValidateUsername(username).value))
  {
    DecimalLength(|username|);
    DecimalLength(MAX_USERNAME_BYTES);
  }

  lemma BodyErrorIsSmall(body: Str)
    requires |body| <= MAX_FRAME_BYTES && ValidateBody(body).Some?
    ensures SmallText(Describe(ValidateBody(body).value))
  {
    DecimalLength(|body|);
    DecimalLength(MAX_BODY_BYTES);
  }

  /** Every answer to a first frame fits: any refusal, and the refusal, welcome and presence
      frames of any accepted name. */
  lemma HandshakeFits(first: ClientFrame, occupancy: int)
    requires FromWire(first)
    ensures match Judge(first)
            case Refuse(frame) => frame.Rejected? && Fits(frame)
            case Accept(name) =>
              && ValidName(name)
              && Fits(Rejected(AlreadyTaken(name))) && Fits(WelcomeFrame(name, occupancy))
              && Fits(Joined(name)) && Fits(Departed(name))
  {
    if first.Hello? {
      if first.version != PROTOCOL_VERSION {
        DecimalLength(first.version);
      } else if ValidateUsername(first.username).Some? {
        UsernameErrorIsSmall(first.username);
      }
    }
    match Judge(first)
    case Refuse(frame) => SmallFits(frame);
    case Accept(name) => NameFramesFit(name, occupancy);
  }

  lemma NameFramesFit(name: Str, occupancy: int)
    requires ValidName(name)
    ensures Fits(Rejected(AlreadyTaken(name))) && Fits(WelcomeFrame(name, occupancy))
    ensures Fits(Joined(name)) && Fits(Departed(name))
  {
    hide Fits;
    SmallFits(Rejected(AlreadyTaken(name)));
    SmallFits(WelcomeFrame(name, occupancy));
    SmallFits(Joined(name));
    SmallFits(Departed(name));
  }

  predicate ArmFits(arm: Arm) {
    && (arm.OnRead? && arm.inbound.Frame? ==> FromWire(arm.inbound.frame))
    && (arm.OnMail? && arm.frame.Some? ==> Fits(arm.frame.value))
  }

  /** Every frame the serve loop writes or broadcasts fits, so no encoding in it ever fails. */
  lemma ReactionFits(cfg: Config, me: Str, v: Vars, now: real, arm: Arm)
    requires ValidName(me) && ArmFits(arm)
    ensures match React(cfg, me, v, now, arm).1
            case Write(frame, _) => Fits(frame)
            case Broadcast(frame) => frame.Message? && frame.from == me && Fits(frame)
            case _ => true
  {
    hide Fits, Consume, Admits;
    if arm.OnRead? && arm.inbound.Frame? && arm.inbound.frame.Send? {
      var body := arm.inbound.frame.body;
      if ValidateBody(body).Some? { BodyErrorIsSmall(body); }
    }
    match React(cfg, me, v, now, arm).1
    case Write(frame, _) => if !arm.OnMail? { SmallFits(frame); }
    case Broadcast(frame) => SmallFits(frame);
    case _ =>
  }
}
