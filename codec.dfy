/**
 * The text codecs of src/amber_sdk.cpp: the base64 encoder that packs sensor data
 * for the chunked pretrain upload, the HTTP response header parser, and the
 * bracketed integer lists sent as query parameters.
 */
module Codec {
  import opened Wrappers
  import opened Strings

  // ----- base64 ----------------------------------------------------------------

  /** `n` consecutive characters starting at `first`. */
  function Run(first: char, n: nat): (s: string)
    requires first as int + n <= 0xD800
    ensures |s| == n
  {
    seq(n, i requires 0 <= i < n => (first as int + i) as char)
  }

  /** The base64 alphabet of RFC 4648 section 4: A-Z, a-z, 0-9, '+', '/'. */
  const Alphabet: string := Run('A', 26) + Run('a', 26) + Run('0', 10) + ['+', '/']

  /** The position of a character in the alphabet, -1 for any other character. */
  function SextetValue(c: char): int {
    if 'A' <= c <= 'Z' then c as int - 'A' as int
    else if 'a' <= c <= 'z' then c as int - 'a' as int + 26
    else if '0' <= c <= '9' then c as int - '0' as int + 52
    else if c == '+' then 62
    else if c == '/' then 63
    else -1
  }

  lemma SmallIndex(v: bv32)
    requires v < 64
    ensures v as int < 64
  {
  }

  /** The alphabet character of a sextet. */
  function Digit(v: bv32): char
    requires v < 64
  {
    SmallIndex(v);
    Alphabet[v as int]
  }

  /** Every alphabet character gives back its position; in particular the alphabet has no '='. */
  lemma AlphabetIndex(i: nat)
    requires i < 64
    ensures SextetValue(Alphabet[i]) == i && Alphabet[i] != '='
  {
  }

  /** Byte `j` of the input widened to 32 bits, zero past the end. */
  function ByteAt(bs: seq<bv8>, j: int): bv32 {
    if 0 <= j < |bs| then bs[j] as bv32 else 0
  }

  /**
   * Sextet `k` of the input read as a stream of bits, most significant bit first,
   * with zero bits appended past its end (RFC 4648 section 4).
   */
  function Sextet(bs: seq<bv8>, k: nat): (v: bv32)
    ensures v < 64
  {
    var g := 3 * (k / 4);
    var a, b, c := ByteAt(bs, g), ByteAt(bs, g + 1), ByteAt(bs, g + 2);
    if k % 4 == 0 then a >> 2
    else if k % 4 == 1 then ((a & 3) << 4) | (b >> 4)
    else if k % 4 == 2 then ((b & 15) << 2) | (c >> 6)
    else c & 63
  }

  /** Characters that carry input bits: ceil(8n / 6). */
  function SignificantChars(n: nat): nat {
    (8 * n + 5) / 6
  }

  /** Encoded length: whole quanta of four characters, ceil(n / 3) of them. */
  function EncodedLength(n: nat): nat {
    4 * ((n + 2) / 3)
  }

  /** The padded base64 encoding of RFC 4648 section 4. */
  function Base64(bs: seq<bv8>): (s: string)
    ensures |s| == EncodedLength(|bs|)
  {
    seq(EncodedLength(|bs|), k requires 0 <= k < EncodedLength(|bs|) =>
      if k < SignificantChars(|bs|) then Digit(Sextet(bs, k)) else '=')
  }

  /** Shifting a byte into the accumulator keeps the previous byte just above it. */
  lemma ShiftInByte(p: bv32, prevByte: bv32, c: bv32)
    requires c < 256 && p & 0xFF == prevByte
    ensures ((p << 8) + c) & 0xFFFF == (prevByte << 8) | c
    ensures ((p << 8) + c) & 0xFF == c
  {
  }

  /** The flush of a partial sextet: the pending bits of the last byte followed by zero bits. */
  lemma FlushBits(v: bv32, last: bv32)
    requires v & 0xFF == last
    ensures ((v << 8) >> 4) & 0x3F == (last & 3) << 4
    ensures ((v << 8) >> 6) & 0x3F == (last & 15) << 2
  {
  }

  /**
   * Where the bit counts put the emitted sextet: sextet `p` of quantum `q`, with
   * `valb + 6` bits pending.
   */
  lemma EmitPosition(idx: nat, valb: int, k: nat) returns (q: nat, p: nat)
    requires valb + 6 == 8 * (idx + 1) - 6 * k && 0 <= valb <= 6
    ensures k == 4 * q + p && p < 4
    ensures p == 0 ==> idx == 3 * q && valb == 2
    ensures p == 1 ==> idx == 3 * q + 1 && valb == 4
    ensures p == 2 ==> idx == 3 * q + 2 && valb == 6
    ensures p == 3 ==> idx == 3 * q + 2 && valb == 0
  {
    q, p := k / 4, k % 4;
  }

  /** Sextet `k`, which is sextet `p` of quantum `q`, written out. */
  lemma SextetOfQuantum(bs: seq<bv8>, k: nat, q: nat, p: nat)
    requires k == 4 * q + p && p < 4
    ensures p == 0 ==> Sextet(bs, k) == ByteAt(bs, 3 * q) >> 2
    ensures p == 1 ==> Sextet(bs, k) == ((ByteAt(bs, 3 * q) & 3) << 4) | (ByteAt(bs, 3 * q + 1) >> 4)
    ensures p == 2 ==> Sextet(bs, k) == ((ByteAt(bs, 3 * q + 1) & 15) << 2) | (ByteAt(bs, 3 * q + 2) >> 6)
    ensures p == 3 ==> Sextet(bs, k) == ByteAt(bs, 3 * q + 2) & 63
  {
    assert k / 4 == q && k % 4 == p;
  }

  /** `ByteAt` is a byte. */
  lemma ByteBound(bs: seq<bv8>, j: int)
    ensures ByteAt(bs, j) < 256
  {
  }

  /** Reading six bits at one of the pending-bit counts is reading them at that constant. */
  lemma ShiftedSextet(val: bv32, n: int, expected: bv32)
    requires n in {0, 2, 4, 6}
    requires n == 0 ==> val & 0x3F == expected
    requires n == 2 ==> (val >> 2) & 0x3F == expected
    requires n == 4 ==> (val >> 4) & 0x3F == expected
    requires n == 6 ==> (val >> 6) & 0x3F == expected
    ensures (val >> n) & 0x3F == expected
  {
  }

  /** The same for the flush, which reads at four or six bits. */
  lemma FlushShift(v: bv32, n: int, expected: bv32)
    requires n in {4, 6}
    requires n == 4 ==> (v >> 4) & 0x3F == expected
    requires n == 6 ==> (v >> 6) & 0x3F == expected
    ensures (v >> n) & 0x3F == expected
  {
  }

  /**
   * The sextet emitted from the accumulator while `valb + 6` bits are pending: the
   * low sixteen bits of the accumulator hold the previous byte and the current one.
   */
  lemma EmitCorrect(input: seq<bv8>, idx: nat, val: bv32, valb: int, k: nat)
    requires idx < |input|
    requires val & 0xFFFF == (ByteAt(input, idx - 1) << 8) | ByteAt(input, idx)
    requires valb + 6 == 8 * (idx + 1) - 6 * k && 0 <= valb <= 6
    ensures (val >> valb) & 0x3F == Sextet(input, k)
  {
    var q, p := EmitPosition(idx, valb, k);
    var expected := Sextet(input, k);
    EmitAt(input, idx, val, k, q, p);
    ShiftedSextet(val, valb, expected);
  }

  /** The same, with the position of the sextet already worked out. */
  lemma EmitAt(input: seq<bv8>, idx: nat, val: bv32, k: nat, q: nat, p: nat)
    requires idx < |input| && k == 4 * q + p && p < 4
    requires val & 0xFFFF == (ByteAt(input, idx - 1) << 8) | ByteAt(input, idx)
    requires p == 0 ==> idx == 3 * q
    requires p == 1 ==> idx == 3 * q + 1
    requires p >= 2 ==> idx == 3 * q + 2
    ensures p == 0 ==> (val >> 2) & 0x3F == Sextet(input, k)
    ensures p == 1 ==> (val >> 4) & 0x3F == Sextet(input, k)
    ensures p == 2 ==> (val >> 6) & 0x3F == Sextet(input, k)
    ensures p == 3 ==> val & 0x3F == Sextet(input, k)
  {
    SextetOfQuantum(input, k, q, p);
    ByteBound(input, idx - 1);
    ByteBound(input, idx);
    var hi, lo := ByteAt(input, idx - 1), ByteAt(input, idx);
    if p == 0 {
      LowBits(val, hi, lo, 2);
    } else if p == 1 {
      LowBits(val, hi, lo, 4);
    } else if p == 2 {
      LowBits(val, hi, lo, 6);
    } else {
      LowBits(val, hi, lo, 0);
    }
  }

  /** Six bits read from the two low bytes `hi` and `lo` of the accumulator. */
  lemma LowBits(val: bv32, hi: bv32, lo: bv32, at: nat)
    requires hi < 256 && lo < 256 && at in {0, 2, 4, 6}
    requires val & 0xFFFF == (hi << 8) | lo
    ensures at == 2 ==> (val >> 2) & 0x3F == lo >> 2
    ensures at == 4 ==> (val >> 4) & 0x3F == ((hi & 3) << 4) | (lo >> 4)
    ensures at == 6 ==> (val >> 6) & 0x3F == ((hi & 15) << 2) | (lo >> 6)
    ensures at == 0 ==> val & 0x3F == lo & 63
  {
  }

  /** The final flush emits the sextet that ends the input, padded with zero bits. */
  lemma FlushCorrect(input: seq<bv8>, val: bv32, valb: int, k: nat)
    requires |input| > 0 && val & 0xFF == ByteAt(input, |input| - 1)
    requires valb + 6 == 8 * |input| - 6 * k && -6 < valb < 0
    ensures ((val << 8) >> (valb + 8)) & 0x3F == Sextet(input, k)
    ensures k + 1 == SignificantChars(|input|)
  {
    var q, p := FlushPosition(|input|, valb, k);
    SextetOfQuantum(input, k, q, p);
    ByteBound(input, |input| - 1);
    if p == 1 {
      FlushBits(val, ByteAt(input, 3 * q));
    } else {
      FlushBits(val, ByteAt(input, 3 * q + 1));
    }
    FlushShift(val << 8, valb + 8, Sextet(input, k));
  }

  /** Where the bit counts put the flushed sextet: sextet `p` of the last, partial quantum `q`. */
  lemma FlushPosition(n: nat, valb: int, k: nat) returns (q: nat, p: nat)
    requires valb + 6 == 8 * n - 6 * k && -6 < valb < 0
    ensures k == 4 * q + p && k + 1 == SignificantChars(n)
    ensures (p == 1 && valb == -4 && n == 3 * q + 1) || (p == 2 && valb == -2 && n == 3 * q + 2)
  {
    q, p := k / 4, k % 4;
  }

  /** The first `m` sextets of the input as alphabet characters. */
  function SextetChars(input: seq<bv8>, m: nat): (s: string)
    ensures |s| == m
  {
    seq(m, k requires 0 <= k < m => Digit(Sextet(input, k)))
  }

  lemma SextetCharsSnoc(input: seq<bv8>, m: nat)
    ensures SextetChars(input, m + 1) == SextetChars(input, m) + [Digit(Sextet(input, m))]
  {
  }

  /** `m` padding characters. */
  function Padding(m: nat): (s: string)
    ensures |s| == m
  {
    seq(m, _ => '=')
  }

  lemma PaddingSnoc(prefix: string, m: nat)
    ensures prefix + Padding(m + 1) == prefix + Padding(m) + ['=']
  {
    assert Padding(m + 1) == Padding(m) + ['='];
  }

  /** With no bits pending, every input bit went into a whole sextet. */
  lemma WholeSextets(n: nat, m: nat)
    requires 6 * m == 8 * n
    ensures m == SignificantChars(n)
  {
  }

  /** The encoding is its significant characters followed by the padding. */
  lemma EncodingSplits(input: seq<bv8>)
    ensures SignificantChars(|input|) <= EncodedLength(|input|) && EncodedLength(|input|) % 4 == 0
    ensures Base64(input) == SextetChars(input, SignificantChars(|input|))
                             + Padding(EncodedLength(|input|) - SignificantChars(|input|))
  {
    var n := |input|;
    QuantumBounds(n);
    var sig, pad := SextetChars(input, SignificantChars(n)), Padding(EncodedLength(n) - SignificantChars(n));
    forall k | 0 <= k < EncodedLength(n)
      ensures Base64(input)[k] == (sig + pad)[k]
    {
      if k < SignificantChars(n) {
        assert (sig + pad)[k] == sig[k];
      } else {
        assert (sig + pad)[k] == pad[k - SignificantChars(n)];
      }
    }
  }

  lemma QuantumBounds(n: nat)
    ensures SignificantChars(n) <= EncodedLength(n) && EncodedLength(n) % 4 == 0
  {
  }

  /** No multiple of four lies between the significant characters and the end of the encoding. */
  lemma PaddingEnds(n: nat, m: nat)
    requires SignificantChars(n) <= m <= EncodedLength(n) && m % 4 == 0
    ensures m == EncodedLength(n)
  {
  }

  /**
   * The inner loop of `base64_encode`: while at least six bits are pending, emit
   * the top six of them.
   */
  method EmitPending(ghost input: seq<bv8>, ghost idx: nat, out0: string, val: bv32, valb0: int)
    returns (out: string, valb: int)
    requires idx < |input| && out0 == SextetChars(input, |out0|)
    requires valb0 + 6 == 8 * (idx + 1) - 6 * |out0| && -6 <= valb0 <= 6
    requires val & 0xFFFF == (ByteAt(input, idx - 1) << 8) | ByteAt(input, idx)
    ensures out == SextetChars(input, |out|)
    ensures valb + 6 == 8 * (idx + 1) - 6 * |out| && -6 <= valb < 0
  {
    out, valb := out0, valb0;
    while valb >= 0
      invariant valb + 6 == 8 * (idx + 1) - 6 * |out| && -6 <= valb <= 6
      invariant out == SextetChars(input, |out|)
      decreases valb
    {
      EmitCorrect(input, idx, val, valb, |out|);
      SmallIndex((val >> valb) & 0x3F);
      SextetCharsSnoc(input, |out|);
      out := out + [Alphabet[((val >> valb) & 0x3F) as int]];
      valb := valb - 6;
    }
  }

  /**
   * `base64_encode`: the bytes are shifted into a 32-bit accumulator `val` (the
   * source's `int`, whose high bits wrap away unused) and six bits are emitted
   * whenever at least six are pending; a partial sextet is flushed with zero bits
   * and the output is padded with '=' to a multiple of four.
   */
  method Base64Encode(input: seq<bv8>) returns (out: string)
    ensures out == Base64(input)
  {
    out := [];
    var val: bv32 := 0;
    var valb: int := -6;
    var idx := 0;
    while idx < |input|
      invariant 0 <= idx <= |input|
      invariant valb + 6 == 8 * idx - 6 * |out| && -6 <= valb < 0
      invariant val & 0xFF == ByteAt(input, idx - 1)
      invariant out == SextetChars(input, |out|)
    {
      var c := input[idx];
      assert ByteAt(input, idx) == c as bv32;
      ShiftInByte(val, ByteAt(input, idx - 1), ByteAt(input, idx));
      val := (val << 8) + c as bv32;
      valb := valb + 8;
      out, valb := EmitPending(input, idx, out, val, valb);
      idx := idx + 1;
    }
    if valb > -6 {
      FlushCorrect(input, val, valb, |out|);
      SmallIndex(((val << 8) >> (valb + 8)) & 0x3F);
      SextetCharsSnoc(input, |out|);
      out := out + [Alphabet[(((val << 8) >> (valb + 8)) & 0x3F) as int]];
    } else {
      WholeSextets(|input|, |out|);
    }
    ghost var significant, pads := out, 0;
    EncodingSplits(input);
    while |out| % 4 != 0
      invariant |out| == |significant| + pads <= EncodedLength(|input|)
      invariant out == significant + Padding(pads)
      decreases EncodedLength(|input|) - |out|
    {
      PaddingSnoc(significant, pads);
      out, pads := out + ['='], pads + 1;
    }
    PaddingEnds(|input|, |out|);
  }

  // ----- properties of the encoding -------------------------------------------

  /**
   * The shape of the output: whole quanta of four characters; alphabet characters
   * exactly up to ceil(8n / 6); then at most two '=' (two for one trailing byte,
   * one for two, none for a whole quantum).
   */
  lemma Base64Shape(bs: seq<bv8>)
    ensures |Base64(bs)| % 4 == 0 && |Base64(bs)| == 4 * ((|bs| + 2) / 3)
    ensures forall k :: 0 <= k < |Base64(bs)| ==> (Base64(bs)[k] == '=' <==> k >= SignificantChars(|bs|))
    ensures forall k :: 0 <= k < SignificantChars(|bs|) ==> 0 <= SextetValue(Base64(bs)[k]) < 64
    ensures |Base64(bs)| - SignificantChars(|bs|) == (if |bs| % 3 == 0 then 0 else 3 - |bs| % 3)
  {
    PadCount(|bs|);
    PaddingPositions(bs);
    forall k | 0 <= k < SignificantChars(|bs|)
      ensures 0 <= SextetValue(Base64(bs)[k]) < 64
    {
      AlphabetIndex(Sextet(bs, k) as int);
    }
  }

  lemma PadCount(n: nat)
    ensures EncodedLength(n) % 4 == 0 && EncodedLength(n) == 4 * ((n + 2) / 3)
    ensures EncodedLength(n) - SignificantChars(n) == (if n % 3 == 0 then 0 else 3 - n % 3)
  {
    var q, r := n / 3, n % 3;
    assert n == 3 * q + r;
    if r == 0 {
      assert (n + 2) / 3 == q && (8 * n + 5) / 6 == 4 * q;
    } else if r == 1 {
      assert (n + 2) / 3 == q + 1 && (8 * n + 5) / 6 == 4 * q + 2;
    } else {
      assert (n + 2) / 3 == q + 1 && (8 * n + 5) / 6 == 4 * q + 3;
    }
  }

  /** Byte `j` reassembled from the sextets that carry its bits. */
  function ReassembledByte(bs: seq<bv8>, j: nat): bv32 {
    var g := 4 * (j / 3);
    if j % 3 == 0 then ((Sextet(bs, g) << 2) | (Sextet(bs, g + 1) >> 4)) & 0xFF
    else if j % 3 == 1 then ((Sextet(bs, g + 1) << 4) | (Sextet(bs, g + 2) >> 2)) & 0xFF
    else ((Sextet(bs, g + 2) << 6) | Sextet(bs, g + 3)) & 0xFF
  }

  /** The sextets lose no bit: every input byte can be reassembled from them. */
  lemma Reassemble(bs: seq<bv8>, j: nat)
    requires j < |bs|
    ensures ReassembledByte(bs, j) == bs[j] as bv32
  {
    var q := j / 3;
    SextetOfQuantum(bs, 4 * q, q, 0);
    SextetOfQuantum(bs, 4 * q + 1, q, 1);
    SextetOfQuantum(bs, 4 * q + 2, q, 2);
    SextetOfQuantum(bs, 4 * q + 3, q, 3);
    ByteBound(bs, 3 * q);
    ByteBound(bs, 3 * q + 1);
    ByteBound(bs, 3 * q + 2);
    Regroup(ByteAt(bs, 3 * q), ByteAt(bs, 3 * q + 1), ByteAt(bs, 3 * q + 2));
    assert ByteAt(bs, j) == bs[j] as bv32;
  }

  lemma Regroup(a: bv32, b: bv32, c: bv32)
    requires a < 256 && b < 256 && c < 256
    ensures (((a >> 2) << 2) | ((((a & 3) << 4) | (b >> 4)) >> 4)) & 0xFF == a
    ensures (((((a & 3) << 4) | (b >> 4)) << 4) | ((((b & 15) << 2) | (c >> 6)) >> 2)) & 0xFF == b
    ensures (((((b & 15) << 2) | (c >> 6)) << 6) | (c & 63)) & 0xFF == c
  {
  }

  /** The sextets that carry byte `j` are significant characters. */
  lemma CarriersSignificant(n: nat, j: nat)
    requires j < n
    ensures 4 * (j / 3) + (if j % 3 == 2 then 3 else j % 3 + 1) < SignificantChars(n)
  {
  }

  /** The position of the first '=' at or after `i`, or the length. */
  function FirstPad(e: string, i: nat): (r: nat)
    decreases |e| - i
  {
    if i >= |e| then |e| else if e[i] == '=' then i else FirstPad(e, i + 1)
  }

  /** When '=' occurs exactly from position `s` on, the first '=' is at `s`. */
  lemma {:induction false} FirstPadding(e: string, i: nat, s: nat)
    requires i <= s <= |e|
    requires forall k :: 0 <= k < |e| ==> (e[k] == '=' <==> k >= s)
    ensures FirstPad(e, i) == s
    decreases s - i
  {
    if i < s {
      FirstPadding(e, i + 1, s);
    }
  }

  /** Different lengths need different numbers of significant characters. */
  lemma SignificantCharsInjective(m: nat, n: nat)
    requires SignificantChars(m) == SignificantChars(n)
    ensures m == n
  {
  }

  /** Equal encodings come from inputs of equal length. */
  lemma SameLength(x: seq<bv8>, y: seq<bv8>)
    requires Base64(x) == Base64(y)
    ensures |x| == |y|
  {
    PaddingPositions(x);
    PaddingPositions(y);
    FirstPadding(Base64(x), 0, SignificantChars(|x|));
    FirstPadding(Base64(y), 0, SignificantChars(|y|));
    SignificantCharsInjective(|x|, |y|);
  }

  /** Where '=' appears in an encoding: exactly past the significant characters. */
  lemma PaddingPositions(bs: seq<bv8>)
    ensures SignificantChars(|bs|) <= |Base64(bs)|
    ensures forall k :: 0 <= k < |Base64(bs)| ==> (Base64(bs)[k] == '=' <==> k >= SignificantChars(|bs|))
  {
    QuantumBounds(|bs|);
    forall k | 0 <= k < SignificantChars(|bs|)
      ensures Base64(bs)[k] != '='
    {
      AlphabetIndex(Sextet(bs, k) as int);
    }
  }

  /** Equal significant characters carry equal sextets. */
  lemma SameSextet(x: seq<bv8>, y: seq<bv8>, k: nat)
    requires |x| == |y| && k < SignificantChars(|x|) && Base64(x) == Base64(y)
    ensures Sextet(x, k) == Sextet(y, k)
  {
    QuantumBounds(|x|);
    var a, b := Sextet(x, k), Sextet(y, k);
    SmallIndex(a);
    SmallIndex(b);
    assert Base64(x)[k] == Digit(a) && Base64(y)[k] == Digit(b);
    AlphabetIndex(a as int);
    AlphabetIndex(b as int);
    SameValue(a, b);
  }

  lemma SameValue(a: bv32, b: bv32)
    requires a < 64 && b < 64 && a as int == b as int
    ensures a == b
  {
  }

  /** The encoding is injective: different byte strings have different encodings. */
  lemma Base64Injective(x: seq<bv8>, y: seq<bv8>)
    requires Base64(x) == Base64(y)
    ensures x == y
  {
    SameLength(x, y);
    forall j | 0 <= j < |x|
      ensures x[j] == y[j]
    {
      SameByte(x, y, j);
    }
  }

  /** Equal encodings give equal bytes, one byte at a time. */
  lemma SameByte(x: seq<bv8>, y: seq<bv8>, j: nat)
    requires |x| == |y| && j < |x| && Base64(x) == Base64(y)
    ensures x[j] == y[j]
  {
    {
      CarriersSignificant(|x|, j);
      var g := 4 * (j / 3);
      if j % 3 == 0 {
        SameSextet(x, y, g);
        SameSextet(x, y, g + 1);
      } else if j % 3 == 1 {
        SameSextet(x, y, g + 1);
        SameSextet(x, y, g + 2);
      } else {
        SameSextet(x, y, g + 2);
        SameSextet(x, y, g + 3);
      }
      Reassemble(x, j);
      Reassemble(y, j);
    }
  }

  // ----- response headers ----------------------------------------------------------

  /** A "\r\n" line break starts at position `j` of `s`. */
  predicate BreakAt(s: string, j: nat) {
    j + 1 < |s| && s[j] == '\r' && s[j + 1] == '\n'
  }

  /** `s.find("\r\n", from)`: the first line break at or after `from`. */
  function FindBreak(s: string, from: nat): (r: Option<nat>)
    ensures r.Some? ==> from <= r.value && BreakAt(s, r.value)
    ensures r.Some? ==> forall j :: from <= j < r.value ==> !BreakAt(s, j)
    ensures r.None? ==> forall j :: from <= j ==> !BreakAt(s, j)
    decreases |s| - from
  {
    if from + 1 >= |s| then None
    else if BreakAt(s, from) then Some(from)
    else FindBreak(s, from + 1)
  }

  /** `s.find(':')`: the first colon. */
  function FindColon(s: string, from: nat): (r: Option<nat>)
    ensures r.Some? ==> from <= r.value < |s| && s[r.value] == ':'
    ensures r.Some? ==> forall j :: from <= j < r.value ==> s[j] != ':'
    ensures r.None? ==> forall j :: from <= j < |s| ==> s[j] != ':'
    decreases |s| - from
  {
    if from >= |s| then None
    else if s[from] == ':' then Some(from)
    else FindColon(s, from + 1)
  }

  /**
   * The segments `parse_headers` visits from position `i`: the text up to each
   * line break, and the rest when no break is left; a final break opens no segment.
   */
  function SegmentsFrom(h: string, i: nat): seq<string>
    decreases |h| - i
  {
    if i >= |h| then []
    else
      match FindBreak(h, i)
      case None => [h[i..]]
      case Some(d) => [h[i..d]] + SegmentsFrom(h, d + 2)
  }

  /** The field a segment holds: trimmed text before its first ':' and trimmed text after it. */
  function HeaderField(segment: string): Option<(string, string)>
  {
    match FindColon(segment, 0)
    case None => None
    case Some(k) => Some((Trim(segment[..k]), Trim(segment[k + 1..])))
  }

  /** The fields of the segments, one per segment (absent for a segment without a colon). */
  function Fields(segments: seq<string>): seq<Option<(string, string)>> {
    seq(|segments|, l requires 0 <= l < |segments| => HeaderField(segments[l]))
  }

  /** The field is present and has key `key`. */
  predicate Carries(field: Option<(string, string)>, key: string) {
    field.Some? && field.value.0 == key
  }

  /** The map after storing one field, if present. */
  function Put(m: map<string, string>, field: Option<(string, string)>): map<string, string> {
    match field
    case None => m
    case Some(kv) => m[kv.0 := kv.1]
  }

  /** Storing the fields in order: a later field overwrites an earlier one with the same key. */
  function StoreAll(fields: seq<Option<(string, string)>>, m: map<string, string>): map<string, string>
    decreases |fields|
  {
    if fields == [] then m else StoreAll(fields[1..], Put(m, fields[0]))
  }

  /** The map `parse_headers` builds from a raw header block. */
  function ParsedHeaders(header: string): map<string, string> {
    StoreAll(Fields(SegmentsFrom(header, 0)), map[])
  }

  /** `parse_headers`: walk the raw header block segment by segment, storing every "key: value" field. */
  method ParseHeaders(header: string) returns (headerMap: map<string, string>)
    ensures headerMap == ParsedHeaders(header)
  {
    headerMap := map[];
    var i := 0;
    while i < |header|
      invariant i <= |header|
      invariant StoreAll(Fields(SegmentsFrom(header, i)), headerMap) == ParsedHeaders(header)
      decreases |header| - i
    {
      var del := FindBreak(header, i);
      var copyCnt := if del.None? then |header| - i else del.value - i;
      var nextHeader := header[i..i + copyCnt];
      var next := if del.Some? then del.value + 2 else |header|;
      StoreStep(header, i, del, nextHeader, next, headerMap);
      var kvdel := FindColon(nextHeader, 0);
      StoreField(headerMap, nextHeader, kvdel);
      if kvdel.Some? {
        var k := nextHeader[..kvdel.value];
        var v := nextHeader[kvdel.value + 1..];
        headerMap := headerMap[Trim(k) := Trim(v)];
      }
      i := next;
    }
  }

  /** Storing from position `i` is storing the segment at `i`, then the segments after it. */
  lemma StoreStep(h: string, i: nat, d: Option<nat>, segment: string, next: nat, m: map<string, string>)
    requires i < |h| && d == FindBreak(h, i)
    requires segment == if d.None? then h[i..] else h[i..d.value]
    requires next == if d.None? then |h| else d.value + 2
    ensures StoreAll(Fields(SegmentsFrom(h, i)), m) == StoreAll(Fields(SegmentsFrom(h, next)), Put(m, HeaderField(segment)))
  {
    var rest := SegmentsFrom(h, next);
    assert SegmentsFrom(h, i) == [segment] + rest;
    assert Fields([segment] + rest)[1..] == Fields(rest);
  }

  /** A segment with a colon stores its trimmed key and value; one without stores nothing. */
  lemma StoreField(m: map<string, string>, segment: string, colon: Option<nat>)
    requires colon == FindColon(segment, 0)
    ensures colon.None? ==> Put(m, HeaderField(segment)) == m
    ensures colon.Some? ==> Put(m, HeaderField(segment)) == m[Trim(segment[..colon.value]) := Trim(segment[colon.value + 1..])]
  {
    if colon.Some? {
      var kv := (Trim(segment[..colon.value]), Trim(segment[colon.value + 1..]));
      assert HeaderField(segment) == Some(kv);
      PutSome(m, HeaderField(segment), kv);
    } else {
      assert HeaderField(segment) == None;
    }
  }

  lemma PutSome(m: map<string, string>, field: Option<(string, string)>, kv: (string, string))
    requires field == Some(kv)
    ensures Put(m, field) == m[kv.0 := kv.1]
  {
  }

  /** No segment holds a line break. */
  lemma {:induction false} SegmentsUnbroken(h: string, i: nat)
    ensures forall s :: s in SegmentsFrom(h, i) ==> forall j: nat :: !BreakAt(s, j)
    decreases |h| - i
  {
    if i < |h| {
      match FindBreak(h, i)
      case None =>
        assert forall j: nat :: BreakAt(h[i..], j) ==> BreakAt(h, i + j);
      case Some(d) =>
        assert forall j: nat :: BreakAt(h[i..d], j) ==> BreakAt(h, i + j);
        SegmentsUnbroken(h, d + 2);
    }
  }

  /** Each segment followed by a line break. */
  function Terminated(segments: seq<string>): string {
    if segments == [] then [] else segments[0] + "\r\n" + Terminated(segments[1..])
  }

  /** The segments, each closed by a line break, spell out the block, up to one final break: splitting loses nothing. */
  lemma {:induction false} SegmentsRejoin(h: string, i: nat)
    requires i <= |h|
    ensures Terminated(SegmentsFrom(h, i)) == h[i..] || Terminated(SegmentsFrom(h, i)) == h[i..] + "\r\n"
    decreases |h| - i
  {
    if i == |h| {
      assert h[i..] == [];
    } else {
      match FindBreak(h, i)
      case None =>
        assert Terminated([h[i..]]) == h[i..] + "\r\n";
      case Some(d) =>
        SegmentsRejoin(h, d + 2);
        var rest := SegmentsFrom(h, d + 2);
        RejoinStep(h, i, d, rest);
    }
  }

  lemma RejoinStep(h: string, i: nat, d: nat, rest: seq<string>)
    requires i <= d && BreakAt(h, d)
    requires Terminated(rest) == h[d + 2..] || Terminated(rest) == h[d + 2..] + "\r\n"
    ensures Terminated([h[i..d]] + rest) == h[i..] || Terminated([h[i..d]] + rest) == h[i..] + "\r\n"
  {
    assert ([h[i..d]] + rest)[1..] == rest;
    assert h[d..d + 2] == "\r\n";
    assert h[i..] == h[i..d] + "\r\n" + h[d + 2..];
  }

  /** A key is stored exactly when it was already there or some field carries it. */
  lemma {:induction false} StoredKeys(fields: seq<Option<(string, string)>>, m: map<string, string>, key: string)
    ensures key in StoreAll(fields, m) <==> key in m || exists j :: 0 <= j < |fields| && Carries(fields[j], key)
    decreases |fields|
  {
    if fields != [] {
      StoredKeys(fields[1..], Put(m, fields[0]), key);
      if exists j :: 1 <= j < |fields| && Carries(fields[j], key) {
        var j :| 1 <= j < |fields| && Carries(fields[j], key);
        assert Carries(fields[1..][j - 1], key);
      }
    }
  }

  /** The value stored for a key is the one of the last field carrying it (last write wins). */
  lemma {:induction false} LastFieldWins(fields: seq<Option<(string, string)>>, m: map<string, string>, key: string, j: nat)
    requires j < |fields| && Carries(fields[j], key)
    requires forall l :: j < l < |fields| ==> !Carries(fields[l], key)
    ensures key in StoreAll(fields, m)
    ensures StoreAll(fields, m)[key] == fields[j].value.1
    decreases |fields|
  {
    if j == 0 {
      assert forall l :: 0 <= l < |fields| - 1 ==> fields[1..][l] == fields[l + 1];
      UntouchedKey(fields[1..], Put(m, fields[0]), key);
    } else {
      assert forall l :: j - 1 < l < |fields| - 1 ==> fields[1..][l] == fields[l + 1];
      LastFieldWins(fields[1..], Put(m, fields[0]), key, j - 1);
    }
  }

  /** A key no field carries keeps the value it had. */
  lemma {:induction false} UntouchedKey(fields: seq<Option<(string, string)>>, m: map<string, string>, key: string)
    requires forall l :: 0 <= l < |fields| ==> !Carries(fields[l], key)
    ensures key in StoreAll(fields, m) <==> key in m
    ensures key in m ==> StoreAll(fields, m)[key] == m[key]
    decreases |fields|
  {
    if fields != [] {
      assert !Carries(fields[0], key);
      UntouchedKey(fields[1..], Put(m, fields[0]), key);
    }
  }

  // ----- bracketed id lists ----------------------------------------------------------

  /** An unsigned 16-bit cluster id (`uint16_t`). */
  type Uint16 = x: int | 0 <= x < 0x1_0000

  /** The decimal forms of the values, separated by commas. */
  function CommaList(v: seq<nat>): string
    requires v != []
    decreases |v|
  {
    if |v| == 1 then NatToString(v[0]) else CommaList(v[..|v| - 1]) + "," + NatToString(v[|v| - 1])
  }

  /** What `join_uint16_vec` yields: the bracketed list, and a lone "]" for an empty vector. */
  function JoinedIds(v: seq<nat>): string {
    if v == [] then "]" else "[" + CommaList(v) + "]"
  }

  /** `join_uint16_vec`. */
  method JoinUint16Vec(v: seq<Uint16>) returns (idString: string)
    ensures idString == JoinedIds(v)
  {
    idString := "";
    for n := 0 to |v|
      invariant n == 0 ==> idString == ""
      invariant n > 0 ==> idString == "[" + CommaList(v[..n])
    {
      if idString == "" {
        idString := "[" + NatToString(v[n]);
      } else {
        idString := idString + "," + NatToString(v[n]);
      }
      assert v[..n + 1][..n] == v[..n];
    }
    idString := idString + "]";
    assert v[..|v|] == v;
  }

  /** Every value list joined, the lists separated by commas. */
  function RowList(v: seq<seq<nat>>): string
    requires v != []
    decreases |v|
  {
    if |v| == 1 then JoinedIds(v[0]) else RowList(v[..|v| - 1]) + "," + JoinedIds(v[|v| - 1])
  }

  /** What `join_vec_uint16_vec` yields: the joined rows in brackets, and a lone "]" for no rows. */
  function JoinedRows(v: seq<seq<nat>>): string {
    if v == [] then "]" else "[" + RowList(v) + "]"
  }

  /** `join_vec_uint16_vec`. */
  method JoinVecUint16Vec(v: seq<seq<Uint16>>) returns (idString: string)
    ensures idString == JoinedRows(v)
  {
    idString := "";
    for n := 0 to |v|
      invariant idString == "" <==> n == 0
      invariant n > 0 ==> idString == "[" + RowList(v[..n])
    {
      var nextVec := JoinUint16Vec(v[n]);
      ghost var rows: seq<seq<nat>> := v[..n + 1];
      assert rows[..n] == v[..n] && rows[n] == v[n];
      if idString == "" {
        assert RowList(rows) == JoinedIds(v[n]);
        idString := "[" + nextVec;
      } else {
        assert RowList(rows) == RowList(v[..n]) + "," + JoinedIds(v[n]);
        idString := idString + "," + nextVec;
      }
      assert idString == "[" + RowList(rows);
    }
    idString := idString + "]";
    assert v[..|v|] == v;
  }

  predicate AllDigits(s: string) {
    forall i :: 0 <= i < |s| ==> IsDigit(s[i])
  }

  /** The last comma of `s`. */
  function LastComma(s: string): (r: Option<nat>)
    ensures r.Some? ==> r.value < |s| && s[r.value] == ',' && forall j :: r.value < j < |s| ==> s[j] != ','
    ensures r.None? ==> forall j :: 0 <= j < |s| ==> s[j] != ','
    decreases |s|
  {
    if s == [] then None
    else if s[|s| - 1] == ',' then Some(|s| - 1)
    else LastComma(s[..|s| - 1])
  }

  /** Reading a comma-separated list of decimals back; None when a piece is empty or not decimal. */
  function ReadDecimals(s: string): Option<seq<nat>>
    decreases |s|
  {
    match LastComma(s)
    case None => if s != [] && AllDigits(s) then Some([DecimalValue(s)]) else None
    case Some(c) =>
      var tail := s[c + 1..];
      if tail != [] && AllDigits(tail) then
        match ReadDecimals(s[..c])
        case None => None
        case Some(front) => Some(front + [DecimalValue(tail)])
      else None
  }

  /** Reading a joined id list back. */
  function ReadIds(s: string): Option<seq<nat>> {
    if s == "]" then Some([])
    else if |s| >= 2 && s[0] == '[' && s[|s| - 1] == ']' then ReadDecimals(s[1..|s| - 1])
    else None
  }

  /** The comma list reads back as the values it was made from. */
  lemma {:induction false} CommaListRoundTrip(v: seq<nat>)
    requires v != []
    ensures ReadDecimals(CommaList(v)) == Some(v)
    decreases |v|
  {
    if |v| == 1 {
      SingleDecimal(v[0]);
      assert [v[0]] == v;
    } else {
      var d := NatToString(v[|v| - 1]);
      NatToStringRoundTrip(v[|v| - 1]);
      ReadDecimalsSnoc(CommaList(v[..|v| - 1]), d);
      CommaListRoundTrip(v[..|v| - 1]);
      assert v[..|v| - 1] + [v[|v| - 1]] == v;
    }
  }

  lemma SingleDecimal(n: nat)
    ensures ReadDecimals(NatToString(n)) == Some([n])
  {
    NoCommaInDigits(NatToString(n));
    NatToStringRoundTrip(n);
  }

  lemma NoCommaInDigits(d: string)
    requires AllDigits(d)
    ensures LastComma(d) == None
  {
    if LastComma(d).Some? {
      assert IsDigit(d[LastComma(d).value]);
    }
  }

  /** In `a + "," + d` with `d` all digits, the last comma is the one after `a`. */
  lemma LastCommaBeforeDigits(a: string, d: string)
    requires AllDigits(d)
    ensures LastComma(a + "," + d) == Some(|a|)
  {
    var s := a + "," + d;
    forall j | |a| < j < |s|
      ensures s[j] != ','
    {
      assert s[j] == d[j - |a| - 1];
    }
    LastCommaAt(s, |a|);
  }

  lemma LastCommaAt(s: string, c: nat)
    requires c < |s| && s[c] == ','
    requires forall j :: c < j < |s| ==> s[j] != ','
    ensures LastComma(s) == Some(c)
  {
  }

  /** Reading `a + "," + d` reads `a`, then the number `d`. */
  lemma ReadDecimalsSnoc(a: string, d: string)
    requires d != [] && AllDigits(d)
    ensures ReadDecimals(a + "," + d) ==
      match ReadDecimals(a) case None => None case Some(front) => Some(front + [DecimalValue(d)])
  {
    var s := a + "," + d;
    LastCommaBeforeDigits(a, d);
    assert s[..|a|] == a && s[|a| + 1..] == d;
  }

  /** `join_uint16_vec` loses nothing: the joined list, empty or not, reads back as the vector. */
  lemma JoinedIdsRoundTrip(v: seq<nat>)
    ensures ReadIds(JoinedIds(v)) == Some(v)
  {
    if v != [] {
      var s := JoinedIds(v);
      assert s[1..|s| - 1] == CommaList(v);
      CommaListRoundTrip(v);
    }
  }

  /** The `get_root_cause_by_idlist` check: some '[' and some ']' somewhere, in any order. */
  predicate IdListAccepted(idlist: string) {
    '[' in idlist && ']' in idlist
  }

  /** Characters `a` then `b` occur next to each other in `s` (`s.find("ab") != npos`). */
  predicate Adjacent(s: string, a: char, b: char) {
    exists j :: 0 <= j < |s| - 1 && s[j] == a && s[j + 1] == b
  }

  /** The `get_root_cause_by_patternlist` check: "[[" and "]]" both occur. */
  predicate PatternListAccepted(patternlist: string) {
    Adjacent(patternlist, '[', '[') && Adjacent(patternlist, ']', ']')
  }

  /** A joined id list passes the id-list check exactly when it is not empty. */
  lemma JoinedIdsAccepted(v: seq<nat>)
    ensures IdListAccepted(JoinedIds(v)) <==> v != []
  {
    var s := JoinedIds(v);
    if v != [] {
      assert s[0] == '[' && s[|s| - 1] == ']';
    } else {
      assert s == "]";
    }
  }

  /** Every '[' is followed by a digit. */
  predicate BracketsOpenDigits(s: string) {
    forall p :: 0 <= p < |s| && s[p] == '[' ==> p + 1 < |s| && IsDigit(s[p + 1])
  }

  /** The comma list is digits and commas, starting with a digit. */
  lemma {:induction false} CommaListChars(v: seq<nat>)
    requires v != []
    ensures forall i :: 0 <= i < |CommaList(v)| ==> IsDigit(CommaList(v)[i]) || CommaList(v)[i] == ','
    ensures IsDigit(CommaList(v)[0])
    decreases |v|
  {
    if |v| > 1 {
      CommaListChars(v[..|v| - 1]);
      var a := CommaList(v[..|v| - 1]);
      var d := NatToString(v[|v| - 1]);
      assert CommaList(v) == a + "," + d;
    }
  }

  /** A joined id list opens only with a '[' followed by a digit, and ends with ']'. */
  lemma JoinedIdsShape(v: seq<nat>)
    ensures BracketsOpenDigits(JoinedIds(v))
    ensures JoinedIds(v)[|JoinedIds(v)| - 1] == ']'
    ensures JoinedIds(v)[0] == '[' <==> v != []
  {
    if v != [] {
      CommaListChars(v);
    }
  }

  /** The joined rows open with the first row, open brackets only before digits and end with ']'. */
  lemma {:induction false} RowListShape(v: seq<seq<nat>>)
    requires v != []
    ensures BracketsOpenDigits(RowList(v))
    ensures RowList(v)[|RowList(v)| - 1] == ']'
    ensures RowList(v)[0] == JoinedIds(v[0])[0]
    decreases |v|
  {
    JoinedIdsShape(v[|v| - 1]);
    if |v| > 1 {
      RowListShape(v[..|v| - 1]);
      var a := RowList(v[..|v| - 1]);
      var b := JoinedIds(v[|v| - 1]);
      var s := a + "," + b;
      assert RowList(v) == s;
      forall p | 0 <= p < |s| && s[p] == '['
        ensures p + 1 < |s| && IsDigit(s[p + 1])
      {
        if p < |a| {
          assert a[p] == '[';
        } else {
          assert b[p - |a| - 1] == '[';
        }
      }
    }
  }

  /**
   * The pattern-list check accepts joined rows exactly when there is a row and
   * the first row is not empty: an empty first row yields "[]" with no "[[".
   */
  lemma JoinedRowsAccepted(v: seq<seq<nat>>)
    ensures PatternListAccepted(JoinedRows(v)) <==> v != [] && v[0] != []
  {
    var s := JoinedRows(v);
    if v != [] {
      RowListShape(v);
      JoinedIdsShape(v[0]);
      var r := RowList(v);
      assert s == "[" + r + "]";
      assert s[|s| - 2] == ']' && s[|s| - 1] == ']';
      if v[0] != [] {
        assert s[0] == '[' && s[1] == '[';
      } else {
        forall j | 0 <= j < |s| - 1 && s[j] == '['
          ensures s[j + 1] != '['
        {
          if j > 0 {
            assert r[j - 1] == '[';
          }
        }
      }
    }
  }

  /** `{{1,2},{3}}` joins to "[[1,2],[3]]". */
  lemma JoinedRowsExample()
    ensures JoinedRows([[1, 2], [3]]) == "[[1,2],[3]]"
  {
    assert CommaList([1, 2]) == "1,2" by {
      assert [1, 2][..1] == [1];
    }
    assert [[1, 2], [3]][..1] == [[1, 2]];
  }
}
