/** Length-delimited framing: the decoder over a growing buffer and the two encoders
    (protocol/src/lib.rs). The frame type is a parameter, as it is in the source. */
module Codec {
  import opened Wrappers
  import opened Utf8
  import opened Postcard
  import opened Frames

  datatype ProtocolError = OversizeFrame(len: nat) | Malformed(error: DecodeError)

  type Parser<!D> = Bytes -> Result<D, DecodeError>

  // ----- the length prefix -----

  function PutU32(n: U32): (s: Bytes)
    ensures |s| == 4
  {
    [n / 0x100_0000, n / 0x1_0000 % 0x100, n / 0x100 % 0x100, n % 0x100]
  }

  function GetU32(s: Bytes): U32
    requires |s| >= 4
  {
    ((s[0] as int * 0x100 + s[1]) * 0x100 + s[2]) * 0x100 + s[3]
  }

  lemma GetPutU32(n: U32, rest: Bytes)
    ensures GetU32(PutU32(n) + rest) == n
  {
    var s := PutU32(n) + rest;
    assert s[0] == n / 0x100_0000 && s[1] == n / 0x1_0000 % 0x100;
    assert s[2] == n / 0x100 % 0x100 && s[3] == n % 0x100;
    Digits(n / 0x1_0000);
    Digits(n / 0x100);
    assert n / 0x1_0000 / 0x100 == n / 0x100_0000 && n / 0x100 / 0x100 == n / 0x1_0000;
    Digits(n);
  }

  lemma Digits(n: nat)
    ensures n / 0x100 * 0x100 + n % 0x100 == n
  {
  }

  lemma PutGetU32(s: Bytes)
    requires |s| >= 4
    ensures PutU32(GetU32(s)) == s[..4]
  {
    var n := GetU32(s);
    var h := s[0] as int * 0x100 + s[1];
    assert n / 0x1_0000 == h && n / 0x100 == h * 0x100 + s[2];
    assert h / 0x100 == s[0];
    assert n / 0x100_0000 == h / 0x100;
  }

  // ----- one frame -----

  /** `[u32 BE len][payload]`. */
  function Framed(payload: Bytes): Bytes
    requires |payload| <= MAX_FRAME_BYTES
  {
    PutU32(|payload|) + payload
  }

  /** The length comes first, in network order. */
  lemma PrefixLayout(payload: Bytes)
    requires |payload| <= 8192
    ensures var b := Framed(payload);
            && |b| == 4 + |payload| && b[4..] == payload
            && |payload| == ((b[0] as int * 0x100 + b[1]) * 0x100 + b[2]) * 0x100 + b[3]
  {
    var n := |payload|;
    Digits(n / 0x1_0000);
    Digits(n / 0x100);
    assert n / 0x1_0000 / 0x100 == n / 0x100_0000 && n / 0x100 / 0x100 == n / 0x1_0000;
    Digits(n);
  }

  /** What both encoders produce for a payload. */
  function EncodePayload(payload: Bytes): Result<Bytes, ProtocolError> {
    if |payload| > MAX_FRAME_BYTES then Err(OversizeFrame(|payload|)) else Ok(Framed(payload))
  }

  /** The bytes of a server frame; none if it is too long to send. */
  function WireOf(f: ServerFrame): Bytes {
    if Fits(f) then Framed(ServerPayload(f)) else []
  }

  /** One call of the decoder: either it needs more input, or it takes a frame off the front,
      or it fails. A malformed payload has been taken off the buffer, an oversize prefix has not. */
  datatype Step<+D> =
    | NeedMore
    | Got(item: D, rest: Bytes)
    | Failed(error: ProtocolError, rest: Bytes)

  function DecodeStep<D>(parse: Parser<D>, s: Bytes): (r: Step<D>)
    ensures r.Got? ==> |r.rest| < |s|
  {
    if |s| < 4 then NeedMore
    else
      var len := GetU32(s);
      if len > MAX_FRAME_BYTES then Failed(OversizeFrame(len), s)
      else if |s| < 4 + len then NeedMore
      else
        match parse(s[4..4 + len])
        case Ok(item) => Got(item, s[4 + len..])
        case Err(e) => Failed(Malformed(e), s[4 + len..])
  }

  // ----- a whole stream -----

  datatype End = Pending(rest: Bytes) | Broken(error: ProtocolError)

  datatype Parsed<+D> = Parsed(frames: seq<D>, end: End)

  /** Decode until the decoder asks for more or fails. */
  function ParseAll<D>(parse: Parser<D>, s: Bytes): Parsed<D>
    decreases |s|
  {
    match DecodeStep(parse, s)
    case NeedMore => Parsed([], Pending(s))
    case Failed(e, _) => Parsed([], Broken(e))
    case Got(item, rest) => Then([item], ParseAll(parse, rest))
  }

  function Then<D>(frames: seq<D>, p: Parsed<D>): Parsed<D> { Parsed(frames + p.frames, p.end) }

  function Flatten(chunks: seq<Bytes>): Bytes {
    if chunks == [] then [] else chunks[0] + Flatten(chunks[1..])
  }

  /** The reader's life: append each chunk to the buffer, then decode until nothing more comes
      out; stop at the first error. */
  function Feed<D>(parse: Parser<D>, buffer: Bytes, chunks: seq<Bytes>): Parsed<D>
    decreases |chunks|
  {
    if chunks == [] then Parsed([], Pending(buffer))
    else
      var p := ParseAll(parse, buffer + chunks[0]);
      match p.end
      case Broken(_) => p
      case Pending(rest) => Then(p.frames, Feed(parse, rest, chunks[1..]))
  }

  /** More input never changes what a decoder call that came to a decision decided. */
  lemma StepMonotone<D>(parse: Parser<D>, s: Bytes, more: Bytes)
    ensures match DecodeStep(parse, s)
            case NeedMore => true
            case Got(item, rest) => DecodeStep(parse, s + more) == Got(item, rest + more)
            case Failed(e, rest) => DecodeStep(parse, s + more) == Failed(e, rest + more)
  {
    if |s| >= 4 {
      var t := s + more;
      assert GetU32(t) == GetU32(s);
      var len := GetU32(s);
      if |s| >= 4 + len && len <= MAX_FRAME_BYTES {
        assert t[4..4 + len] == s[4..4 + len];
        assert t[4 + len..] == s[4 + len..] + more;
      }
    }
  }

  lemma {:induction false} ParseAllAppend<D>(parse: Parser<D>, s: Bytes, more: Bytes)
    ensures var p := ParseAll(parse, s);
            match p.end
            case Broken(_) => ParseAll(parse, s + more) == p
            case Pending(rest) => ParseAll(parse, s + more) == Then(p.frames, ParseAll(parse, rest + more))
    decreases |s|
  {
    hide DecodeStep;
    StepMonotone(parse, s, more);
    match DecodeStep(parse, s)
    case NeedMore =>
    case Failed(_, _) =>
    case Got(item, rest) =>
      ParseAllAppend(parse, rest, more);
      var q := ParseAll(parse, rest);
      if q.end.Pending? {
        ThenAssoc([item], q.frames, ParseAll(parse, q.end.rest + more));
      }
  }

  /** Decoding stops at the first error: the frames before it are kept, it is the one reported, and
      what follows it is never looked at. */
  lemma FirstErrorStops<D>(parse: Parser<D>, s: Bytes, t: Bytes, more: Bytes)
    requires ParseAll(parse, s).end == Pending([]) && DecodeStep(parse, t).Failed?
    ensures ParseAll(parse, s + t + more) == Parsed(ParseAll(parse, s).frames, Broken(DecodeStep(parse, t).error))
  {
    hide DecodeStep;
    StepMonotone(parse, t, more);
    ParseAllAppend(parse, s, t + more);
    assert [] + (t + more) == t + more && s + t + more == s + (t + more);
    assert ParseAll(parse, s).frames + [] == ParseAll(parse, s).frames;
  }

  lemma ThenAssoc<D>(a: seq<D>, b: seq<D>, p: Parsed<D>)
    ensures Then(a, Then(b, p)) == Then(a + b, p)
  {
    assert a + (b + p.frames) == a + b + p.frames;
  }

  /** What is left over after the decoder has asked for more is less than one frame. */
  lemma {:induction false} ResidueBound<D>(parse: Parser<D>, s: Bytes)
    ensures var end := ParseAll(parse, s).end;
            end.Pending? ==> |end.rest| < 4 + MAX_FRAME_BYTES && DecodeStep(parse, end.rest).NeedMore?
    decreases |s|
  {
    match DecodeStep(parse, s)
    case NeedMore =>
    case Failed(_, _) =>
    case Got(_, rest) => ResidueBound(parse, rest);
  }

  lemma NeedMoreStops<D>(parse: Parser<D>, s: Bytes)
    requires DecodeStep(parse, s).NeedMore?
    ensures ParseAll(parse, s) == Parsed([], Pending(s))
  {
  }

  lemma {:induction false} FeedIsParse<D>(parse: Parser<D>, buffer: Bytes, chunks: seq<Bytes>)
    requires DecodeStep(parse, buffer).NeedMore?
    ensures Feed(parse, buffer, chunks) == ParseAll(parse, buffer + Flatten(chunks))
    decreases |chunks|
  {
    if chunks == [] {
      assert buffer + Flatten(chunks) == buffer;
    } else {
      var s, more := buffer + chunks[0], Flatten(chunks[1..]);
      assert buffer + Flatten(chunks) == s + more;
      ParseAllAppend(parse, s, more);
      ResidueBound(parse, s);
      var p := ParseAll(parse, s);
      if p.end.Pending? {
        FeedIsParse(parse, p.end.rest, chunks[1..]);
      }
    }
  }

  /** Chunking does not matter: for any bytes, valid or not, cut into reads in any way, the
      frames, the first error and the residue are those of the whole stream; and after any
      number of reads the buffer holds less than one frame. */
  lemma ChunkingDoesNotMatter<D>(parse: Parser<D>, chunks: seq<Bytes>)
    ensures Feed(parse, [], chunks) == ParseAll(parse, Flatten(chunks))
    ensures Feed(parse, [], chunks).end.Pending? ==> |Feed(parse, [], chunks).end.rest| < 4 + MAX_FRAME_BYTES
  {
    FeedIsParse(parse, [], chunks);
    assert [] + Flatten(chunks) == Flatten(chunks);
    ResidueBound(parse, Flatten(chunks));
  }

  // ----- the grammar of streams -----

  /** `s` is the concatenation of frames with these payloads. */
  predicate IsStream(payloads: seq<Bytes>, s: Bytes) {
    if payloads == [] then s == []
    else
      && |payloads[0]| <= MAX_FRAME_BYTES
      && Framed(payloads[0]) <= s
      && IsStream(payloads[1..], s[4 + |payloads[0]|..])
  }

  /** The payloads the decoder takes off the front of `s`. */
  function Payloads<D>(parse: Parser<D>, s: Bytes): seq<Bytes>
    decreases |s|
  {
    match DecodeStep(parse, s)
    case Got(_, rest) => [s[4..4 + GetU32(s)]] + Payloads(parse, rest)
    case _ => []
  }

  lemma DecodeFramed<D>(parse: Parser<D>, payload: Bytes, rest: Bytes)
    requires |payload| <= MAX_FRAME_BYTES
    ensures DecodeStep(parse, Framed(payload) + rest)
         == match parse(payload)
            case Ok(item) => Got(item, rest)
            case Err(e) => Failed(Malformed(e), rest)
  {
    var s := Framed(payload) + rest;
    GetPutU32(|payload|, payload + rest);
    assert s == PutU32(|payload|) + (payload + rest);
    assert s[4..4 + |payload|] == payload;
    assert s[4 + |payload|..] == rest;
  }

  /** A proper prefix of a frame never decodes to anything. */
  lemma CutFrameNeedsMore<D>(parse: Parser<D>, payload: Bytes, k: nat)
    requires |payload| <= MAX_FRAME_BYTES && k < 4 + |payload|
    ensures DecodeStep(parse, Framed(payload)[..k]).NeedMore?
  {
    var s := Framed(payload)[..k];
    if k >= 4 {
      GetPutU32(|payload|, payload);
      assert GetU32(s) == GetU32(Framed(payload));
    }
  }

  /** `s` is a stream of frames with payloads `ps`, parsing to `items`, then `rest`, which does
      not yet hold a whole frame. */
  predicate Reads<D(==)>(parse: Parser<D>, s: Bytes, ps: seq<Bytes>, items: seq<D>, rest: Bytes) {
    && DecodeStep(parse, rest).NeedMore?
    && |rest| <= |s| && s == s[..|s| - |rest|] + rest
    && IsStream(ps, s[..|s| - |rest|])
    && |ps| == |items| && forall i :: 0 <= i < |ps| ==> parse(ps[i]) == Ok(items[i])
  }

  /** The decoder is sound and complete for the grammar: it ends by asking for more, having
      produced `items` and left `rest`, exactly when the input is a stream of frames that parse
      to `items`, followed by `rest`. */
  lemma ParseIsGrammar<D>(parse: Parser<D>, s: Bytes, items: seq<D>, rest: Bytes)
    ensures ParseAll(parse, s) == Parsed(items, Pending(rest)) <==> exists ps :: Reads(parse, s, ps, items, rest)
  {
    if ParseAll(parse, s) == Parsed(items, Pending(rest)) {
      ParseSound(parse, s);
    }
    if ps :| Reads(parse, s, ps, items, rest) {
      ParseComplete(parse, s, ps, items, rest);
    }
  }

  lemma {:induction false} ParseSound<D>(parse: Parser<D>, s: Bytes)
    requires ParseAll(parse, s).end.Pending?
    ensures var p := ParseAll(parse, s); Reads(parse, s, Payloads(parse, s), p.frames, p.end.rest)
    decreases |s|
  {
    hide DecodeStep;
    match DecodeStep(parse, s)
    case NeedMore =>
      assert s[..0] == [];
      assert s[..0] + s == s;
    case Got(item, rest) =>
      GotIsFramed(parse, s);
      ParseSound(parse, rest);
      var q := ParseAll(parse, rest);
      ReadsCons(parse, s[4..4 + GetU32(s)], item, rest, Payloads(parse, rest), q.frames, q.end.rest);
  }

  lemma {:induction false} ParseComplete<D>(parse: Parser<D>, s: Bytes, ps: seq<Bytes>, items: seq<D>, rest: Bytes)
    requires Reads(parse, s, ps, items, rest)
    ensures ParseAll(parse, s) == Parsed(items, Pending(rest))
    decreases |ps|
  {
    if ps == [] {
      assert s == rest;
    } else {
      hide Reads, DecodeStep;
      ReadsTail(parse, s, ps, items, rest);
      var tail := s[|Framed(ps[0])|..];
      DecodeFramed(parse, ps[0], tail);
      ParseComplete(parse, tail, ps[1..], items[1..], rest);
      assert items == [items[0]] + items[1..];
    }
  }

  lemma ReadsTail<D>(parse: Parser<D>, s: Bytes, ps: seq<Bytes>, items: seq<D>, rest: Bytes)
    requires Reads(parse, s, ps, items, rest) && ps != []
    ensures |items| == |ps| && |ps[0]| <= MAX_FRAME_BYTES && parse(ps[0]) == Ok(items[0])
    ensures var head := Framed(ps[0]);
            && head <= s && s == head + s[|head|..]
            && Reads(parse, s[|head|..], ps[1..], items[1..], rest)
  {
    hide DecodeStep;
    var head, used := Framed(ps[0]), s[..|s| - |rest|];
    var tail := s[|head|..];
    assert used == head + used[|head|..];
    assert s == head + tail && tail[..|tail| - |rest|] == used[|head|..];
  }

  lemma ReadsCons<D>(parse: Parser<D>, payload: Bytes, item: D, t: Bytes, ps: seq<Bytes>, items: seq<D>, rest: Bytes)
    requires |payload| <= MAX_FRAME_BYTES && parse(payload) == Ok(item)
    requires Reads(parse, t, ps, items, rest)
    ensures Reads(parse, Framed(payload) + t, [payload] + ps, [item] + items, rest)
  {
    hide DecodeStep;
    var used := t[..|t| - |rest|];
    StreamCons(payload, ps, used);
    var s := Framed(payload) + t;
    assert s[..|s| - |rest|] == Framed(payload) + used;
  }

  lemma GotIsFramed<D>(parse: Parser<D>, s: Bytes)
    requires DecodeStep(parse, s).Got?
    ensures 4 + GetU32(s) <= |s| && GetU32(s) <= MAX_FRAME_BYTES
    ensures var payload := s[4..4 + GetU32(s)];
            && parse(payload) == Ok(DecodeStep(parse, s).item)
            && s == Framed(payload) + DecodeStep(parse, s).rest
  {
    PutGetU32(s);
  }

  lemma StreamCons(payload: Bytes, ps: seq<Bytes>, s: Bytes)
    requires |payload| <= MAX_FRAME_BYTES && IsStream(ps, s)
    ensures IsStream([payload] + ps, Framed(payload) + s)
  {
    assert ([payload] + ps)[1..] == ps;
    assert (Framed(payload) + s)[4 + |payload|..] == s;
  }

  // ----- lists of frames -----

  type Renderer<!F> = F -> Bytes

  /** `parse` undoes `print` on every value whose payload fits a frame. */
  ghost predicate Inverse<F(!new)>(parse: Parser<F>, render: Renderer<F>) {
    forall f :: |render(f)| <= MAX_FRAME_BYTES ==> parse(render(f)) == Ok(f)
  }

  lemma ServerInverse()
    ensures Inverse(ParseServer, ServerPayload)
  {
    forall f | |ServerPayload(f)| <= MAX_FRAME_BYTES ensures ParseServer(ServerPayload(f)) == Ok(f) {
      ServerRoundTrip(f, []);
      assert ServerPayload(f) + [] == ServerPayload(f);
    }
  }

  lemma ClientInverse()
    ensures Inverse(ParseClient, ClientPayload)
  {
    forall f | |ClientPayload(f)| <= MAX_FRAME_BYTES ensures ParseClient(ClientPayload(f)) == Ok(f) {
      ClientRoundTrip(f, []);
      assert ClientPayload(f) + [] == ClientPayload(f);
    }
  }

  predicate AllFit<F>(render: Renderer<F>, frames: seq<F>) {
    forall i :: 0 <= i < |frames| ==> |render(frames[i])| <= MAX_FRAME_BYTES
  }

  function EncodeAll<F>(render: Renderer<F>, frames: seq<F>): Bytes
    requires AllFit(render, frames)
  {
    if frames == [] then [] else Framed(render(frames[0])) + EncodeAll(render, frames[1..])
  }

  lemma {:induction false} ParseEncoded<F(!new)>(parse: Parser<F>, render: Renderer<F>, frames: seq<F>, rest: Bytes)
    requires Inverse(parse, render) && AllFit(render, frames)
    ensures ParseAll(parse, EncodeAll(render, frames) + rest) == Then(frames, ParseAll(parse, rest))
    decreases |frames|
  {
    hide DecodeStep;
    if frames == [] {
      assert EncodeAll(render, frames) + rest == rest;
      assert Then(frames, ParseAll(parse, rest)).frames == ParseAll(parse, rest).frames;
    } else {
      var head, tail := render(frames[0]), EncodeAll(render, frames[1..]) + rest;
      assert EncodeAll(render, frames) + rest == Framed(head) + tail;
      DecodeFramed(parse, head, tail);
      ParseEncoded(parse, render, frames[1..], rest);
      ThenAssoc([frames[0]], frames[1..], ParseAll(parse, rest));
      assert frames == [frames[0]] + frames[1..];
    }
  }

  /** Any list of frames, followed by a proper prefix of one more frame, decodes to exactly the
      list and leaves exactly that prefix. With an empty prefix this is the stream round trip. */
  lemma StreamRoundTrip<F(!new)>(parse: Parser<F>, render: Renderer<F>, frames: seq<F>, next: F, k: nat)
    requires Inverse(parse, render) && AllFit(render, frames)
    requires |render(next)| <= MAX_FRAME_BYTES && k < 4 + |render(next)|
    ensures var cut := Framed(render(next))[..k];
            ParseAll(parse, EncodeAll(render, frames) + cut) == Parsed(frames, Pending(cut))
  {
    var cut := Framed(render(next))[..k];
    CutFrameNeedsMore(parse, render(next), k);
    NeedMoreStops(parse, cut);
    ParseEncoded(parse, render, frames, cut);
    assert frames + [] == frames;
  }

  /** How many whole frames of the list lie in the first `k` bytes of its encoding. */
  function WholeFrames<F>(render: Renderer<F>, frames: seq<F>, k: nat): (n: nat)
    ensures n <= |frames|
  {
    if frames == [] || k < 4 + |render(frames[0])| then 0
    else 1 + WholeFrames(render, frames[1..], k - 4 - |render(frames[0])|)
  }

  lemma NothingParsed<D>(parse: Parser<D>)
    ensures ParseAll(parse, []) == Parsed([], Pending([]))
  {
  }

  /** Cutting the encoding of a list of frames at any byte yields a prefix of the list and leaves
      a proper prefix of the next frame's encoding (nothing when no frame is next). */
  lemma {:induction false} CutAnywhere<F(!new)>(parse: Parser<F>, render: Renderer<F>, frames: seq<F>, k: nat)
    requires Inverse(parse, render) && AllFit(render, frames)
    requires k <= |EncodeAll(render, frames)|
    ensures var n := WholeFrames(render, frames, k);
            var p := ParseAll(parse, EncodeAll(render, frames)[..k]);
            && p.frames == frames[..n]
            && p.end.Pending?
            && (if n == |frames| then p.end.rest == []
                else p.end.rest < Framed(render(frames[n])))
    decreases |frames|
  {
    hide DecodeStep;
    if frames == [] {
      NothingParsed(parse);
    } else {
      var payload := render(frames[0]);
      var head, tail := Framed(payload), EncodeAll(render, frames[1..]);
      var s := EncodeAll(render, frames)[..k];
      if k < |head| {
        assert s == head[..k];
        CutFrameNeedsMore(parse, payload, k);
        NeedMoreStops(parse, s);
      } else {
        var j := k - |head|;
        assert s == head + tail[..j] && parse(payload) == Ok(frames[0]);
        DecodeFramed(parse, payload, tail[..j]);
        CutAnywhere(parse, render, frames[1..], j);
        var n := WholeFrames(render, frames[1..], j);
        assert frames[..n + 1] == [frames[0]] + frames[1..][..n];
      }
    }
  }
}
