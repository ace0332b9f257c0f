/** The parts of the Postcard wire format that the frames use: varint integers, tagged
    unions and strings. */
module Postcard {
  import opened Wrappers
  import opened Utf8

  datatype DecodeError = UnexpectedEnd | BadVarint | BadUtf8 | BadVariant

  /** A value read off the front of a payload, and what is left of the payload. */
  datatype Taken<+T> = Taken(value: T, rest: Bytes)

  const U32_LIMIT := 0x1_0000_0000
  const U64_LIMIT := 0x1_0000_0000_0000_0000

  type U32 = n: int | 0 <= n < U32_LIMIT

  // A varint holds seven bits an octet. A u32 takes at most 5 octets, the last at most 15;
  // a usize, 64 bits wide, takes at most 10, the last at most 1.
  const U32_OCTETS: nat := 5
  const U32_LAST: nat := 15
  const USIZE_OCTETS: nat := 10
  const USIZE_LAST: nat := 1

  function PutVarint(n: nat): (s: Bytes)
    ensures s != []
    decreases n
  {
    if n < 128 then [n] else [128 + n % 128] + PutVarint(n / 128)
  }

  /** Reads at most `octets` octets, the last of which may not exceed `last`. Padding with
      needless continuation octets is accepted. */
  function TakeVarint(s: Bytes, octets: nat, last: nat): Result<Taken<nat>, DecodeError>
    decreases octets
  {
    if octets == 0 then Err(BadVarint)
    else if s == [] then Err(UnexpectedEnd)
    else if s[0] < 128 then
      if octets == 1 && s[0] > last then Err(BadVarint) else Ok(Taken(s[0], s[1..]))
    else
      match TakeVarint(s[1..], octets - 1, last)
      case Err(e) => Err(e)
      case Ok(Taken(high, rest)) => Ok(Taken(s[0] - 128 + 128 * high, rest))
  }

  /** One more than the largest value that fits `octets` octets. */
  function VarintLimit(octets: nat, last: nat): nat
    requires octets > 0
  {
    if octets == 1 then last + 1 else 128 * VarintLimit(octets - 1, last)
  }

  lemma VarintLimits()
    ensures VarintLimit(U32_OCTETS, U32_LAST) == U32_LIMIT
    ensures VarintLimit(USIZE_OCTETS, USIZE_LAST) == U64_LIMIT
  {
    assert VarintLimit(2, 1) == 256;
    assert VarintLimit(4, 1) == 256 * 128 * 128;
    assert VarintLimit(6, 1) == 256 * 128 * 128 * 128 * 128;
    assert VarintLimit(8, 1) == 256 * 128 * 128 * 128 * 128 * 128 * 128;
    assert VarintLimit(2, 15) == 2048;
    assert VarintLimit(4, 15) == 2048 * 128 * 128;
  }

  lemma {:induction false} VarintRoundTrip(n: nat, octets: nat, last: nat, rest: Bytes)
    requires 0 < octets && last < 128 && n < VarintLimit(octets, last)
    ensures TakeVarint(PutVarint(n) + rest, octets, last) == Ok(Taken(n, rest))
    decreases octets
  {
    var s := PutVarint(n) + rest;
    if n < 128 {
      assert s[0] == n && s[1..] == rest;
    } else {
      VarintRoundTrip(n / 128, octets - 1, last, rest);
      assert s[0] == 128 + n % 128 && s[1..] == PutVarint(n / 128) + rest;
    }
  }

  /** Every value a reader accepts fits its type. */
  lemma {:induction false} VarintInRange(s: Bytes, octets: nat, last: nat)
    requires 0 < octets && last < 128 && TakeVarint(s, octets, last).Ok?
    ensures TakeVarint(s, octets, last).value.value < VarintLimit(octets, last)
    decreases octets
  {
    if s[0] >= 128 {
      VarintInRange(s[1..], octets - 1, last);
    } else if octets > 1 {
      LimitAtLeast(octets, last);
    }
  }

  lemma {:induction false} LimitAtLeast(octets: nat, last: nat)
    requires octets > 1
    ensures VarintLimit(octets, last) >= 128
  {
    if octets > 2 { LimitAtLeast(octets - 1, last); }
  }

  lemma {:induction false} VarintLength(n: nat, octets: nat)
    requires 0 < octets && n < VarintLimit(octets, 127)
    ensures 1 <= |PutVarint(n)| <= octets
    decreases octets
  {
    if n >= 128 { VarintLength(n / 128, octets - 1); }
  }

  function TakeU32(s: Bytes): (r: Result<Taken<U32>, DecodeError>) {
    match TakeVarint(s, U32_OCTETS, U32_LAST)
    case Err(e) => Err(e)
    case Ok(t) =>
      VarintInRange(s, U32_OCTETS, U32_LAST);
      VarintLimits();
      Ok(Taken(t.value, t.rest))
  }

  function TakeByte(s: Bytes): Result<Taken<Byte>, DecodeError> {
    if s == [] then Err(UnexpectedEnd) else Ok(Taken(s[0], s[1..]))
  }

  function PutStr(v: Str): Bytes { PutVarint(|v|) + v }

  function TakeStr(s: Bytes): Result<Taken<Str>, DecodeError> {
    match TakeVarint(s, USIZE_OCTETS, USIZE_LAST)
    case Err(e) => Err(e)
    case Ok(Taken(n, rest)) =>
      if n > |rest| then Err(UnexpectedEnd)
      else if !Valid(rest[..n]) then Err(BadUtf8)
      else Ok(Taken(rest[..n], rest[n..]))
  }

  lemma U32RoundTrip(n: U32, rest: Bytes)
    ensures TakeU32(PutVarint(n) + rest) == Ok(Taken(n, rest))
  {
    VarintLimits();
    VarintRoundTrip(n, U32_OCTETS, U32_LAST, rest);
  }

  lemma StrRoundTrip(v: Str, rest: Bytes)
    requires |v| < U64_LIMIT
    ensures TakeStr(PutStr(v) + rest) == Ok(Taken(v, rest))
  {
    VarintLimits();
    VarintRoundTrip(|v|, USIZE_OCTETS, USIZE_LAST, v + rest);
    assert PutStr(v) + rest == PutVarint(|v|) + (v + rest);
    assert (v + rest)[..|v|] == v && (v + rest)[|v|..] == rest;
  }
}
