/** The bytes themselves: the wire format in figures (protocol/src/lib.rs). */
module WireLayout {
  import opened Wrappers
  import opened Utf8
  import opened Postcard
  import opened Frames
  import opened Codec

  // ----- varints and texts -----

  /** The value of a varint's octets: seven bits each, the least significant first. */
  function Base128(s: Bytes): nat
    requires s != []
  {
    if |s| == 1 then s[0] % 128 else s[0] % 128 + 128 * Base128(s[1..])
  }

  /** Every octet of a varint but the last has its top bit set, the octets have the number's value,
      and no octet is wasted. */
  lemma {:induction false} VarintLayout(n: nat)
    ensures var s := PutVarint(n);
            && (forall i :: 0 <= i < |s| ==> (s[i] >= 128 <==> i < |s| - 1))
            && Base128(s) == n && (|s| > 1 ==> s[|s| - 1] > 0)
    decreases n
  {
    if n >= 128 {
      VarintLayout(n / 128);
      var s := PutVarint(n);
      assert s[1..] == PutVarint(n / 128);
      assert forall i :: 0 < i < |s| ==> s[i] == s[1..][i - 1];
    }
  }

  function LengthOctets(n: nat): Bytes
    requires n < 16384
  {
    if n < 128 then [n] else [128 + n % 128, n / 128]
  }

  /** A text on the wire: its length in one or two octets, and its bytes. */
  function Text(s: Bytes): Bytes
    requires |s| < 16384
  {
    LengthOctets(|s|) + s
  }

  lemma TextLayout(v: Str)
    requires |v| < 16384
    ensures PutStr(v) == Text(v)
  {
    if |v| >= 128 { assert PutVarint(|v| / 128) == [|v| / 128]; }
  }

  /** The texts of a server frame, in the order of its fields. */
  function TextsOf(f: ServerFrame): seq<Str> {
    match f
    case Welcome(motd, _) => [motd]
    case Rejected(reason) => [reason]
    case Joined(username) => [username]
    case Departed(username) => [username]
    case Message(from, body) => [from, body]
    case Ping => []
    case Error(reason) => [reason]
  }

  lemma TextsAreShort(f: ServerFrame)
    requires Fits(f)
    ensures forall i :: 0 <= i < |TextsOf(f)| ==> |TextsOf(f)[i]| < 16384
  {
    forall i | 0 <= i < |TextsOf(f)| ensures |TextsOf(f)[i]| < 16384 { StrSizeBound(TextsOf(f)[i]); }
  }

  // ----- frames -----

  /** Every server frame on the wire: the payload's length in four octets, the most significant
      first; one octet that says which frame it is; and its fields in order. */
  lemma ServerLayout(f: ServerFrame)
    requires Fits(f)
    ensures forall i :: 0 <= i < |TextsOf(f)| ==> |TextsOf(f)[i]| < 16384
    ensures var b := WireOf(f);
            && |b| >= 5
            && |b| - 4 == ((b[0] as int * 0x100 + b[1]) * 0x100 + b[2]) * 0x100 + b[3]
            && match f
               case Welcome(motd, occupancy) => b[4..] == [0] + Text(motd) + PutVarint(occupancy)
               case Rejected(reason) => b[4..] == [1] + Text(reason)
               case Joined(username) => b[4..] == [2] + Text(username)
               case Departed(username) => b[4..] == [3] + Text(username)
               case Message(from, body) => b[4..] == [4] + Text(from) + Text(body)
               case Ping => b == [0, 0, 0, 1, 5]
               case Error(reason) => b[4..] == [6] + Text(reason)
  {
    TextsAreShort(f);
    PrefixLayout(ServerPayload(f));
    var b := WireOf(f);
    assert b[4..] == ServerPayload(f);
    match f
    case Welcome(motd, occupancy) => TextLayout(motd);
    case Rejected(reason) => TextLayout(reason);
    case Joined(username) => TextLayout(username);
    case Departed(username) => TextLayout(username);
    case Message(from, body) =>
      TextLayout(from);
      TextLayout(body);
    case Ping => assert b == b[..4] + b[4..];
    case Error(reason) => TextLayout(reason);
  }

  lemma TagOctet(tag: nat)
    requires tag < 128
    ensures PutVarint(tag) == [tag as Byte]
  {
  }

  /** Every client frame's payload. */
  lemma ClientLayout(f: ClientFrame)
    requires |ClientPayload(f)| <= 8192
    ensures match f
            case Hello(version, username) =>
              |username| < 16384 && ClientPayload(f) == [0, version] + Text(username)
            case Send(body) => |body| < 16384 && ClientPayload(f) == [1] + Text(body)
            case Pong => ClientPayload(f) == [2]
            case Leave => ClientPayload(f) == [3]
  {
    hide Text, PutStr, PutVarint;
    TagOctet(ClientTag(f));
    match f
    case Hello(version, username) =>
      StrSizeBound(username);
      TextLayout(username);
      assert ClientPayload(f) == [0] + ([version] + PutStr(username));
    case Send(body) =>
      StrSizeBound(body);
      TextLayout(body);
    case Pong =>
    case Leave =>
  }

  /** Readers take needless octets, but no more octets and no more bits than the type has. */
  lemma VarintExamples(rest: Bytes)
    ensures TakeU32([0x80, 0x00] + rest) == Ok(Taken(0, rest))
    ensures TakeU32([0xFF, 0xFF, 0xFF, 0xFF, 0x0F] + rest) == Ok(Taken(0xFFFF_FFFF, rest))
    ensures TakeU32([0xFF, 0xFF, 0xFF, 0xFF, 0x10] + rest) == Err(BadVarint)
    ensures TakeU32([0x80, 0x80, 0x80, 0x80, 0x80, 0x00] + rest) == Err(BadVarint)
    ensures TakeU32([0xFF, 0xFF]) == Err(UnexpectedEnd)
  {
    hide TakeVarint;
    PaddedZero(rest);
    LargestAndOver(rest);
    assert [0x80, 0x80, 0x80, 0x80, 0x80, 0x00] + rest == [0x80, 0x80, 0x80, 0x80, 0x80] + ([0x00] + rest);
    FiveAreEnough([0x00] + rest);
    TwoAreNotAll();
  }

  lemma PaddedZero(rest: Bytes)
    ensures TakeVarint([0x80, 0x00] + rest, 5, 15) == Ok(Taken(0, rest))
  {
    assert [0x80, 0x00] + rest == [0x80] + ([0x00] + rest);
    Continued(0x80, [0x00] + rest, 5);
    LastOctet(0x00, rest, 4);
  }

  lemma LargestAndOver(rest: Bytes)
    ensures TakeVarint([0xFF, 0xFF, 0xFF, 0xFF, 0x0F] + rest, 5, 15) == Ok(Taken(0xFFFF_FFFF, rest))
    ensures TakeVarint([0xFF, 0xFF, 0xFF, 0xFF, 0x10] + rest, 5, 15) == Err(BadVarint)
  {
    hide TakeVarint;
    assert [0xFF, 0xFF, 0xFF, 0xFF, 0x0F] + rest == [0xFF, 0xFF, 0xFF, 0xFF] + ([0x0F] + rest);
    FourContinued([0x0F] + rest);
    LastOctet(0x0F, rest, 1);
    assert [0xFF, 0xFF, 0xFF, 0xFF, 0x10] + rest == [0xFF, 0xFF, 0xFF, 0xFF] + ([0x10] + rest);
    FourContinued([0x10] + rest);
    LastOctet(0x10, rest, 1);
  }

  lemma TwoAreNotAll()
    ensures TakeVarint([0xFF, 0xFF], 5, 15) == Err(UnexpectedEnd)
  {
    assert [0xFF, 0xFF] == [0xFF] + [0xFF] && [0xFF] == [0xFF] + [];
    Continued(0xFF, [0xFF], 5);
    Continued(0xFF, [], 4);
    NoOctet();
  }

  lemma NoOctet()
    ensures TakeVarint([], 3, 15) == Err(UnexpectedEnd)
  {
  }

  lemma Continued(b: Byte, r: Bytes, octets: nat)
    requires b >= 128 && octets > 0
    ensures TakeVarint([b] + r, octets, 15)
         == match TakeVarint(r, octets - 1, 15)
            case Err(e) => Err(e)
            case Ok(Taken(high, rest)) => Ok(Taken(b - 128 + 128 * high, rest))
  {
    assert ([b] + r)[0] == b && ([b] + r)[1..] == r;
  }

  lemma LastOctet(b: Byte, r: Bytes, octets: nat)
    requires b < 128 && octets > 0
    ensures TakeVarint([b] + r, octets, 15) == if octets == 1 && b > 15 then Err(BadVarint) else Ok(Taken(b, r))
  {
    assert ([b] + r)[0] == b && ([b] + r)[1..] == r;
  }

  lemma FourContinued(r: Bytes)
    ensures TakeVarint([0xFF, 0xFF, 0xFF, 0xFF] + r, 5, 15)
         == match TakeVarint(r, 1, 15)
            case Err(e) => Err(e)
            case Ok(Taken(high, rest)) => Ok(Taken(0xFFF_FFFF + 0x1000_0000 * high, rest))
  {
    assert [0xFF, 0xFF, 0xFF, 0xFF] + r == [0xFF] + ([0xFF] + ([0xFF] + ([0xFF] + r)));
    Continued(0xFF, [0xFF] + ([0xFF] + ([0xFF] + r)), 5);
    Continued(0xFF, [0xFF] + ([0xFF] + r), 4);
    Continued(0xFF, [0xFF] + r, 3);
    Continued(0xFF, r, 2);
  }

  lemma FiveAreEnough(r: Bytes)
    ensures TakeVarint([0x80, 0x80, 0x80, 0x80, 0x80] + r, 5, 15) == Err(BadVarint)
  {
    assert [0x80, 0x80, 0x80, 0x80, 0x80] + r == [0x80] + ([0x80] + ([0x80] + ([0x80] + ([0x80] + r))));
    Continued(0x80, [0x80] + ([0x80] + ([0x80] + ([0x80] + r))), 5);
    Continued(0x80, [0x80] + ([0x80] + ([0x80] + r)), 4);
    Continued(0x80, [0x80] + ([0x80] + r), 3);
    Continued(0x80, [0x80] + r, 2);
    Continued(0x80, r, 1);
  }

  // ----- what is refused -----

  /** A variant that the protocol does not have is refused, whatever follows it. */
  lemma UnknownVariantsRefused(s: Bytes)
    requires s != []
    ensures 4 <= s[0] < 128 ==> ParseClient(s) == Err(BadVariant)
    ensures 7 <= s[0] < 128 ==> ParseServer(s) == Err(BadVariant)
    ensures TakeU32(s).Ok? && TakeU32(s).value.value > 3 ==> ParseClient(s) == Err(BadVariant)
    ensures TakeU32(s).Ok? && TakeU32(s).value.value > 6 ==> ParseServer(s) == Err(BadVariant)
  {
  }

  /** When the decoder waits, refuses and reads. A prefix over 8192 is refused as soon as its four
      octets are in, and nothing is consumed; any other frame is taken off whole, and only then. */
  lemma DecoderReads<D>(parse: Parser<D>, s: Bytes)
    ensures |s| < 4 ==> DecodeStep(parse, s) == NeedMore
    ensures |s| >= 4 ==>
      var len := ((s[0] as int * 0x100 + s[1]) * 0x100 + s[2]) * 0x100 + s[3];
      if len > 8192 then DecodeStep(parse, s) == Failed(OversizeFrame(len), s)
      else if |s| < 4 + len then DecodeStep(parse, s) == NeedMore
      else
        match parse(s[4..4 + len])
        case Ok(item) => DecodeStep(parse, s) == Got(item, s[4 + len..])
        case Err(e) => DecodeStep(parse, s) == Failed(Malformed(e), s[4 + len..])
  {
  }
}
