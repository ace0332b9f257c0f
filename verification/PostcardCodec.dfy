/** The codec as the source runs it: in place, on a byte buffer (protocol/src/lib.rs). */
module PostcardCodec {
  import opened Wrappers
  import opened Utf8
  import opened Frames
  import opened Codec

  /** The growable buffer of the `bytes` crate. */
  class BytesMut {
    var data: Bytes

    constructor ()
      ensures data == []
    {
      data := [];
    }

    method Advance(n: nat)
      requires n <= |data|
      modifies this
      ensures data == old(data)[n..]
    {
      data := data[n..];
    }

    method SplitTo(n: nat) returns (front: Bytes)
      requires n <= |data|
      modifies this
      ensures front == old(data)[..n] && data == old(data)[n..]
    {
      front, data := data[..n], data[n..];
    }

    method Extend(s: Bytes)
      modifies this
      ensures data == old(data) + s
    {
      data := data + s;
    }
  }

  /** Decodes `D`s and encodes `E`s, given how their payloads are parsed and rendered. */
  class PostcardCodec<!D, !E> {
    const parse: Parser<D>
    const render: Renderer<E>

    constructor (parse: Parser<D>, render: Renderer<E>)
      ensures this.parse == parse && this.render == render
    {
      this.parse := parse;
      this.render := render;
    }

    method Decode(src: BytesMut) returns (r: Result<Option<D>, ProtocolError>)
      modifies src
      ensures match DecodeStep(parse, old(src.data))
              case NeedMore => r == Ok(None) && src.data == old(src.data)
              case Got(item, rest) => r == Ok(Some(item)) && src.data == rest
              case Failed(e, rest) => r == Err(e) && src.data == rest
      ensures var s := old(src.data);
              |s| >= 4 && ((s[0] as int * 0x100 + s[1]) * 0x100 + s[2]) * 0x100 + s[3] > 8192 ==>
                r.Err? && r.error.OversizeFrame? && src.data == s
    {
      if |src.data| < 4 {
        return Ok(None);
      }
      var len := GetU32(src.data);
      if len > MAX_FRAME_BYTES {
        return Err(OversizeFrame(len));
      }
      if |src.data| < 4 + len {
        return Ok(None);
      }
      ghost var s := src.data;
      src.Advance(4);
      var payload := src.SplitTo(len);
      assert payload == s[4..4 + len] && src.data == s[4 + len..];
      match parse(payload) {
        case Ok(item) => r := Ok(Some(item));
        case Err(e) => r := Err(Malformed(e));
      }
    }

    method Encode(item: E, dst: BytesMut) returns (r: Result<(), ProtocolError>)
      modifies dst
      ensures match EncodePayload(render(item))
              case Ok(bytes) => r == Ok(()) && dst.data == old(dst.data) + bytes
              case Err(e) => r == Err(e) && dst.data == old(dst.data)
      ensures r.Ok? <==> |render(item)| <= 8192
      ensures r.Ok? ==>
        && |dst.data| == |old(dst.data)| + 4 + |render(item)| && old(dst.data) <= dst.data
        && var b := dst.data[|old(dst.data)|..];
           && |render(item)| == ((b[0] as int * 0x100 + b[1]) * 0x100 + b[2]) * 0x100 + b[3]
           && b[4..] == render(item)
    {
      var payload := render(item);
      if |payload| > MAX_FRAME_BYTES {
        return Err(OversizeFrame(|payload|));
      }
      dst.Extend(PutU32(|payload|));
      dst.Extend(payload);
      assert dst.data == old(dst.data) + Framed(payload);
      assert dst.data[|old(dst.data)|..] == Framed(payload);
      PrefixLayout(payload);
      r := Ok(());
    }
  }

  /** The server's stand-alone encoder. */
  method EncodeFrame<F>(render: Renderer<F>, frame: F) returns (r: Result<Bytes, ProtocolError>)
    ensures r == EncodePayload(render(frame)) && (r.Ok? <==> |render(frame)| <= 8192)
    ensures r.Ok? ==>
      var b := r.value;
      && |b| == 4 + |render(frame)| && b[4..] == render(frame)
      && |render(frame)| == ((b[0] as int * 0x100 + b[1]) * 0x100 + b[2]) * 0x100 + b[3]
  {
    var payload := render(frame);
    if |payload| > MAX_FRAME_BYTES {
      return Err(OversizeFrame(|payload|));
    }
    var buf := new BytesMut();
    buf.Extend(PutU32(|payload|));
    buf.Extend(payload);
    assert buf.data == Framed(payload);
    PrefixLayout(payload);
    r := Ok(buf.data);
  }
}
