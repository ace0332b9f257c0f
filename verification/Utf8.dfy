/** Octets, and the UTF-8 encoding of sections 3 and 4 of RFC 3629. */
module Utf8 {

  type Byte = b: int | 0 <= b < 256
  type Bytes = seq<Byte>

  /** A Unicode scalar value: any code point that is not a surrogate. */
  type Scalar = c: int | 0 <= c < 0xD800 || 0xE000 <= c < 0x11_0000

  predicate Tail(b: Byte) { 0x80 <= b < 0xC0 }

  /** The length of the well-formed character at the front of `s`, by the ABNF
      of section 4 of RFC 3629; 0 when there is none. */
  function HeadLength(s: Bytes): (n: nat)
    ensures n <= |s|
  {
    if s == [] then 0
    else if s[0] < 0x80 then 1
    else if 0xC2 <= s[0] < 0xE0 then
      if |s| >= 2 && Tail(s[1]) then 2 else 0
    else if 0xE0 <= s[0] < 0xF0 then
      if |s| >= 3 && Tail(s[1]) && Tail(s[2])
         && (s[0] == 0xE0 ==> 0xA0 <= s[1]) && (s[0] == 0xED ==> s[1] < 0xA0) then 3 else 0
    else if 0xF0 <= s[0] < 0xF5 then
      if |s| >= 4 && Tail(s[1]) && Tail(s[2]) && Tail(s[3])
         && (s[0] == 0xF0 ==> 0x90 <= s[1]) && (s[0] == 0xF4 ==> s[1] < 0x90) then 4 else 0
    else 0
  }

  /** What `str::from_utf8` accepts. */
  predicate Valid(s: Bytes)
    decreases |s|
  {
    s == [] || (HeadLength(s) > 0 && Valid(s[HeadLength(s)..]))
  }

  /** A Rust `String`: its bytes, which are always well-formed UTF-8. */
  type Str = s: Bytes | Valid(s) witness []

  /** The table of section 3 of RFC 3629. */
  function EncodeScalar(c: Scalar): Bytes {
    if c < 0x80 then [c]
    else if c < 0x800 then [0xC0 + c / 0x40, 0x80 + c % 0x40]
    else if c < 0x1_0000 then [0xE0 + c / 0x1000, 0x80 + c / 0x40 % 0x40, 0x80 + c % 0x40]
    else [0xF0 + c / 0x4_0000, 0x80 + c / 0x1000 % 0x40, 0x80 + c / 0x40 % 0x40, 0x80 + c % 0x40]
  }

  function Encode(cs: seq<Scalar>): Bytes {
    if cs == [] then [] else EncodeScalar(cs[0]) + Encode(cs[1..])
  }

  /** The scalar value of the well-formed character at the front of `s`. */
  function HeadScalar(s: Bytes): Scalar
    requires HeadLength(s) > 0
  {
    var n := HeadLength(s);
    if n == 1 then s[0]
    else if n == 2 then Bits(s[0] - 0xC0, s[1])
    else if n == 3 then Bits(Bits(s[0] - 0xE0, s[1]), s[2])
    else Bits(Bits(Bits(s[0] - 0xF0, s[1]), s[2]), s[3])
  }

  /** Shift six payload bits of the tail octet `b` into `acc`. */
  function Bits(acc: int, b: int): int { acc * 0x40 + (b - 0x80) }

  function Decode(s: Str): seq<Scalar>
    decreases |s|
  {
    if s == [] then [] else [HeadScalar(s)] + Decode(s[HeadLength(s)..])
  }

  lemma EncodeScalarHead(c: Scalar, rest: Bytes)
    ensures HeadLength(EncodeScalar(c) + rest) == |EncodeScalar(c)| > 0
    ensures HeadScalar(EncodeScalar(c) + rest) == c
  {
    var e := EncodeScalar(c);
    var s := e + rest;
    assert s[..|e|] == e;
    var t0, t1 := c / 0x40, c / 0x1000;
    assert t1 == t0 / 0x40 && c / 0x4_0000 == t1 / 0x40;
    assert |e| >= 2 ==> s[1] == e[1];
    assert |e| >= 3 ==> s[2] == e[2];
    assert |e| >= 4 ==> s[3] == e[3];
    assert HeadLength(s) == |e|;
    assert |e| == 3 ==> Bits(s[0] - 0xE0, s[1]) == t0;
    assert |e| == 4 ==> Bits(s[0] - 0xF0, s[1]) == t1 && Bits(t1, s[2]) == t0;
  }

  /** The six bits of a tail octet come back out. */
  lemma BitsSplit(acc: nat, b: Byte)
    requires Tail(b)
    ensures Bits(acc, b) / 0x40 == acc && Bits(acc, b) % 0x40 == b - 0x80
  {
  }

  lemma Shifted(c: nat)
    ensures c / 0x1000 == c / 0x40 / 0x40 && c / 0x4_0000 == c / 0x1000 / 0x40
  {
  }

  lemma HeadScalarEncodes(s: Bytes)
    requires HeadLength(s) > 0
    ensures EncodeScalar(HeadScalar(s)) == s[..HeadLength(s)]
  {
    match HeadLength(s)
    case 1 =>
    case 2 => BitsSplit(s[0] - 0xC0, s[1]);
    case 3 => ThreeOctets(s);
    case _ => FourOctets(s);
  }

  lemma ThreeOctets(s: Bytes)
    requires HeadLength(s) == 3
    ensures EncodeScalar(HeadScalar(s)) == s[..3]
  {
    hide Bits;
    var t := Bits(s[0] - 0xE0, s[1]);
    BitsSplit(s[0] - 0xE0, s[1]);
    BitsSplit(t, s[2]);
    Shifted(HeadScalar(s));
  }

  lemma FourOctets(s: Bytes)
    requires HeadLength(s) == 4
    ensures EncodeScalar(HeadScalar(s)) == s[..4]
  {
    hide Bits;
    var u := Bits(s[0] - 0xF0, s[1]);
    var t := Bits(u, s[2]);
    BitsSplit(s[0] - 0xF0, s[1]);
    BitsSplit(u, s[2]);
    BitsSplit(t, s[3]);
    Shifted(HeadScalar(s));
  }

  /** Encoding always produces bytes the validator accepts, and decoding them gives the
      characters back. */
  lemma {:induction false} DecodeEncode(cs: seq<Scalar>)
    ensures Valid(Encode(cs)) && Decode(Encode(cs)) == cs
  {
    if cs != [] {
      var head, rest := EncodeScalar(cs[0]), Encode(cs[1..]);
      EncodeScalarHead(cs[0], rest);
      DecodeEncode(cs[1..]);
      assert (head + rest)[|head|..] == rest;
    }
  }

  lemma EncodeCons(c: Scalar, cs: seq<Scalar>)
    ensures Encode([c] + cs) == EncodeScalar(c) + Encode(cs)
  {
    assert ([c] + cs)[1..] == cs;
  }

  /** Every accepted byte string is the encoding of exactly the characters it decodes to, so
      the grammar of section 4 is the image of the table of section 3: no overlong forms, no
      surrogates, nothing past U+10FFFF. */
  lemma {:induction false} EncodeDecode(s: Str)
    ensures Encode(Decode(s)) == s
    decreases |s|
  {
    if s != [] {
      EncodeDecode(s[HeadLength(s)..]);
      EncodeDecodeHead(s, s[HeadLength(s)..]);
    }
  }

  lemma EncodeDecodeHead(s: Str, t: Str)
    requires HeadLength(s) > 0 && t == s[HeadLength(s)..]
    requires Encode(Decode(t)) == t
    ensures Encode(Decode(s)) == s
  {
    hide HeadScalar, HeadLength, EncodeScalar;
    HeadScalarEncodes(s);
    EncodeCons(HeadScalar(s), Decode(t));
    assert s == s[..HeadLength(s)] + t;
  }

  lemma {:induction false} ValidConcat(a: Str, b: Str)
    ensures Valid(a + b)
    decreases |a|
  {
    if a == [] {
      assert a + b == b;
    } else {
      var n := HeadLength(a);
      assert HeadLength(a + b) == n;
      assert (a + b)[n..] == a[n..] + b;
      ValidConcat(a[n..], b);
    }
  }

  function Concat(a: Str, b: Str): (r: Str)
    ensures r == a + b
  {
    ValidConcat(a, b);
    a + b
  }

  lemma {:induction false} AsciiValid(s: Bytes)
    requires forall i :: 0 <= i < |s| ==> s[i] < 0x80
    ensures Valid(s)
    decreases |s|
  {
    if s != [] { AsciiValid(s[1..]); }
  }

  /** The bytes of a text literal; a character outside ASCII becomes a question mark. */
  function Ascii(s: string): (r: Str)
    ensures |r| == |s| && forall i :: 0 <= i < |s| && s[i] as int < 0x80 ==> r[i] == s[i] as int
  {
    var bs: Bytes := seq(|s|, i requires 0 <= i < |s| => if s[i] as int < 0x80 then s[i] as int else 0x3F);
    AsciiValid(bs);
    bs
  }

  // ----- in figures -----

  /** The examples of section 7 of RFC 3629: "A<NOT IDENTICAL TO><ALPHA>.", and U+233B4 after a
      byte order mark. */
  lemma Examples()
    ensures Encode([0x41, 0x2262, 0x391, 0x2E]) == [0x41, 0xE2, 0x89, 0xA2, 0xCE, 0x91, 0x2E]
    ensures Encode([0xFEFF, 0x2_33B4]) == [0xEF, 0xBB, 0xBF, 0xF0, 0xA3, 0x8E, 0xB4]
  {
    EncodeTwo(0x391, 0x2E);
    EncodeCons(0x2262, [0x391, 0x2E]);
    EncodeCons(0x41, [0x2262, 0x391, 0x2E]);
    assert [0x2262] + [0x391, 0x2E] == [0x2262, 0x391, 0x2E];
    assert [0x41] + [0x2262, 0x391, 0x2E] == [0x41, 0x2262, 0x391, 0x2E];
    EncodeTwo(0xFEFF, 0x2_33B4);
  }

  lemma EncodeTwo(c: Scalar, d: Scalar)
    ensures Encode([c, d]) == EncodeScalar(c) + EncodeScalar(d)
  {
    assert [c, d] == [c] + [d] && [d] == [d] + [];
    EncodeCons(c, [d]);
    EncodeCons(d, []);
    assert EncodeScalar(d) + [] == EncodeScalar(d);
  }

  /** What sections 3 and 10 of RFC 3629 forbid: overlong forms, surrogates, what lies beyond
      U+10FFFF, and a tail octet on its own. */
  lemma Forbidden(rest: Bytes)
    ensures !Valid([0xC0, 0x80] + rest) && !Valid([0xC1, 0xBF] + rest)
    ensures !Valid([0xE0, 0x9F, 0xBF] + rest) && !Valid([0xF0, 0x8F, 0xBF, 0xBF] + rest)
    ensures !Valid([0xED, 0xA0, 0x80] + rest) && !Valid([0xED, 0xBF, 0xBF] + rest)
    ensures !Valid([0xF4, 0x90, 0x80, 0x80] + rest) && !Valid([0xF5] + rest) && !Valid([0xFF] + rest)
    ensures forall b: Byte :: 0x80 <= b < 0xC0 ==> !Valid([b] + rest)
  {
    forall b: Byte | 0x80 <= b < 0xC0 ensures !Valid([b] + rest) {
      assert ([b] + rest)[0] == b;
    }
    assert ([0xF5] + rest)[0] == 0xF5 && ([0xFF] + rest)[0] == 0xFF;
  }
}
