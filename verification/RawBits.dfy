/** The raw-bit stream: bit strings of bytes, the MSB-first reader and writer, and hybrid-uint tokens. */
module RawBits {
  import opened Bytes
  import opened Outcome

  function Pow2(n: nat): (p: nat)
    ensures 1 <= p
  {
    if n == 0 then 1 else 2 * Pow2(n - 1)
  }

  lemma {:induction false} Pow2Sum(a: nat, b: nat)
    ensures Pow2(a + b) == Pow2(a) * Pow2(b)
  {
    if b != 0 {
      Pow2Sum(a, b - 1);
      assert Pow2(a + b) == 2 * (Pow2(a) * Pow2(b - 1)) == Pow2(a) * (2 * Pow2(b - 1));
    }
  }

  lemma {:induction false} Pow2Monotone(a: nat, b: nat)
    requires a <= b
    ensures Pow2(a) <= Pow2(b)
    decreases b
  {
    if a < b {
      Pow2Monotone(a, b - 1);
    }
  }

  lemma {:induction false} Pow2Bytes()
    ensures Pow2(8) == 256 && Pow2(32) == 0x1_0000_0000
  {
    assert Pow2(4) == 16;
    Pow2Sum(4, 4);
    Pow2Sum(8, 8);
    Pow2Sum(16, 16);
  }

  // ---- Bit strings, most significant bit first ----

  function Val(bits: seq<bool>): (v: nat) {
    if bits == [] then 0 else 2 * Val(bits[..|bits| - 1]) + (if bits[|bits| - 1] then 1 else 0)
  }

  /** The low `n` bits of `v`. */
  function ToBits(v: nat, n: nat): (bits: seq<bool>)
    ensures |bits| == n
  {
    if n == 0 then [] else ToBits(v / 2, n - 1) + [v % 2 == 1]
  }

  function BitsOf(data: seq<byte>): (bits: seq<bool>)
    ensures |bits| == 8 * |data|
  {
    if data == [] then [] else BitsOf(data[..|data| - 1]) + ToBits(data[|data| - 1], 8)
  }

  function Zeros(n: nat): (bits: seq<bool>)
    ensures |bits| == n
  {
    seq(n, _ => false)
  }

  lemma {:induction false} ValConcat(a: seq<bool>, b: seq<bool>)
    ensures Val(a + b) == Val(a) * Pow2(|b|) + Val(b)
    decreases |b|
  {
    if b == [] {
      assert a + b == a;
    } else {
      var front := b[..|b| - 1];
      assert (a + b)[..|a + b| - 1] == a + front;
      ValConcat(a, front);
      DoubledLast(Val(a), Pow2(|front|), Val(front), if b[|b| - 1] then 1 else 0);
    }
  }

  lemma {:induction false} DoubledLast(a: nat, p: nat, low: nat, bit: nat)
    ensures 2 * (a * p + low) + bit == a * (2 * p) + (2 * low + bit)
  {
  }

  lemma {:induction false} ValBound(bits: seq<bool>)
    ensures Val(bits) < Pow2(|bits|)
  {
    if bits != [] {
      ValBound(bits[..|bits| - 1]);
    }
  }

  lemma {:induction false} ValToBits(v: nat, n: nat)
    requires v < Pow2(n)
    ensures Val(ToBits(v, n)) == v
  {
    if n != 0 {
      ValToBits(v / 2, n - 1);
      assert ToBits(v, n)[..n - 1] == ToBits(v / 2, n - 1);
    }
  }

  lemma {:induction false} ToBitsVal(bits: seq<bool>)
    ensures ToBits(Val(bits), |bits|) == bits
  {
    if bits != [] {
      var front := bits[..|bits| - 1];
      ToBitsVal(front);
      assert Val(bits) / 2 == Val(front);
    }
  }

  /** Appending the `n` low bits of a number is adding it to a shifted one. */
  lemma {:induction false} ToBitsAppend(a: nat, k: nat, v: nat, n: nat)
    requires v < Pow2(n)
    ensures ToBits(a * Pow2(n) + v, k + n) == ToBits(a, k) + ToBits(v, n)
  {
    if n == 0 {
      assert ToBits(v, 0) == [];
    } else {
      var shifted := a * Pow2(n - 1);
      assert a * Pow2(n) == 2 * shifted;
      ToBitsAppend(a, k, v / 2, n - 1);
      assert (2 * shifted + v) / 2 == shifted + v / 2;
    }
  }

  /** Bits above position `m` do not matter below it. */
  lemma {:induction false} LowBits(high: nat, m: nat, low: nat, n: nat)
    requires n <= m
    ensures ToBits(high * Pow2(m) + low, n) == ToBits(low, n)
    decreases n
  {
    if n != 0 {
      var shifted := high * Pow2(m - 1);
      assert high * Pow2(m) == 2 * shifted;
      LowBits(high, m - 1, low / 2, n - 1);
      assert (2 * shifted + low) / 2 == shifted + low / 2;
    }
  }

  function Shl(v: nat, n: nat): (w: nat) {
    v * Pow2(n)
  }

  /** A shift to the right by `n`, and the low `n` bits. */
  function Shr(v: nat, n: nat): (q: nat) {
    Quotient(v, Pow2(n))
  }

  function Quotient(v: nat, d: nat): (q: nat)
    requires 0 < d
  {
    v / d
  }

  function Low(v: nat, n: nat): (r: nat)
    ensures r < Pow2(n)
  {
    v % Pow2(n)
  }

  function LowByte(v: nat): (b: byte)
    ensures b == Low(v, 8)
  {
    Pow2Bytes();
    Low(v, 8)
  }

  function Low32(v: nat): (w: nat)
    ensures w == Low(v, 32) < WORD32
  {
    Pow2Bytes();
    Low(v, 32)
  }

  lemma {:induction false} ShrLow(v: nat, n: nat)
    ensures v == Shr(v, n) * Pow2(n) + Low(v, n)
  {
    var p := Pow2(n);
    assert v == p * (v / p) + v % p;
  }

  lemma {:induction false} ToBitsLow(v: nat, m: nat, n: nat)
    requires n <= m
    ensures ToBits(Low(v, m), n) == ToBits(v, n)
  {
    hide Pow2, ToBits, Shr, Low;
    ShrLow(v, m);
    LowBits(Shr(v, m), m, Low(v, m), n);
  }

  lemma {:induction false} ToBitsSplit(v: nat, a: nat, b: nat)
    ensures ToBits(v, a + b) == ToBits(Shr(v, b), a) + ToBits(v, b)
  {
    hide Pow2, ToBits, Shr, Low;
    ShrLow(v, b);
    ToBitsAppend(Shr(v, b), a, Low(v, b), b);
    ToBitsLow(v, b, b);
  }

  lemma {:induction false} QuotientIs(v: nat, d: nat, q: nat, r: nat)
    requires v == d * q + r && r < d
    ensures v / d == q && v % d == r
  {
    var k := v / d;
    assert v == d * k + v % d;
    assert k < q ==> d * (k + 1) <= d * q;
    assert q < k ==> d * (q + 1) <= d * k;
  }

  lemma {:induction false} BitsOfConcat(a: seq<byte>, b: seq<byte>)
    ensures BitsOf(a + b) == BitsOf(a) + BitsOf(b)
    decreases |b|
  {
    if b == [] {
      assert a + b == a;
    } else {
      hide ToBits;
      assert (a + b)[..|a + b| - 1] == a + b[..|b| - 1];
      BitsOfConcat(a, b[..|b| - 1]);
    }
  }

  lemma {:induction false} ValBitsOf(data: seq<byte>)
    ensures Val(BitsOf(data)) == BigEndian(data)
  {
    if data != [] {
      var front, last := data[..|data| - 1], data[|data| - 1];
      assert BitsOf(data) == BitsOf(front) + ToBits(last, 8);
      ValBitsOf(front);
      Pow2Bytes();
      hide ToBits, Pow2, BitsOf, Val;
      ValConcat(BitsOf(front), ToBits(last, 8));
      ValToBits(last, 8);
    }
  }

  // ---- Reading ----

  /** The unsigned number in bits `p .. p + n` of the stream, or a fault when the stream is too short. */
  function ReadAt(data: seq<byte>, p: nat, n: nat): (res: Result<nat>)
    ensures res.Ok? ==> p + n <= 8 * |data|
  {
    if p + n <= 8 * |data| then Ok(Val(BitsOf(data)[p..p + n])) else Err(RawExhausted)
  }

  /** A shifted and masked prefix of the stream is a slice of its bits. */
  lemma {:induction false} SliceOfPrefix(data: seq<byte>, pos: nat, p: nat, n: nat, rest: nat)
    requires pos <= |data| && p + n + rest == 8 * pos
    ensures Low(Shr(BigEndian(data[..pos]), rest), n) == Val(BitsOf(data)[p..p + n])
  {
    hide BitsOf, Pow2, Val, BigEndian, Shr, Low;
    var bits := BitsOf(data[..pos]);
    assert data == data[..pos] + data[pos..];
    BitsOfConcat(data[..pos], data[pos..]);
    var a, b, c := bits[..p], bits[p..p + n], bits[p + n..];
    assert bits == (a + b) + c && b == BitsOf(data)[p..p + n];
    ValBitsOf(data[..pos]);
    SliceValue(a, b, c);
  }

  lemma {:induction false} SliceValue(a: seq<bool>, b: seq<bool>, c: seq<bool>)
    ensures Low(Shr(Val(a + b + c), |c|), |b|) == Val(b)
  {
    hide Pow2, Val;
    ValConcat(a + b, c);
    ValBound(c);
    QuotientIs(Val(a + b + c), Pow2(|c|), Val(a + b), Val(c));
    ValConcat(a, b);
    ValBound(b);
    QuotientIs(Val(a + b), Pow2(|b|), Val(a), Val(b));
  }

  class RawBitReader {
    const data: seq<byte>
    var pos: nat
    var acc: nat
    var nbits: nat
    var bitsRead: nat

    /** Every loaded byte is in `acc`; fewer than eight loaded bits are unread. */
    ghost predicate Valid()
      reads this
    {
      pos <= |data| && acc == BigEndian(data[..pos]) && nbits < 8 && bitsRead + nbits == 8 * pos
    }

    constructor (data: seq<byte>)
      ensures Valid() && this.data == data && bitsRead == 0
    {
      this.data := data;
      pos, acc, nbits, bitsRead := 0, 0, 0, 0;
    }

    method Read(n: nat) returns (res: Result<nat>)
      requires Valid()
      modifies this
      ensures res == ReadAt(data, old(bitsRead), n)
      ensures res.Ok? ==> Valid() && bitsRead == old(bitsRead) + n
    {
      while nbits < n
        invariant pos <= |data| && acc == BigEndian(data[..pos]) && bitsRead + nbits == 8 * pos
        invariant bitsRead == old(bitsRead) && (nbits < 8 || nbits < n + 8)
        decreases n - nbits
      {
        if pos >= |data| {
          return Err(RawExhausted);
        }
        BigEndianPrefix(data, pos);
        acc := 256 * acc + data[pos];
        pos := pos + 1;
        nbits := nbits + 8;
      }
      nbits := nbits - n;
      bitsRead := bitsRead + n;
      SliceOfPrefix(data, pos, old(bitsRead), n, nbits);
      if n == 0 {
        return Ok(0);
      }
      return Ok(Low(Shr(acc, nbits), n));
    }
  }

  // ---- Writing ----

  const WORD32: nat := 0x1_0000_0000

  class BitWriter {
    var bytes: seq<byte>
    /** A 32-bit accumulator: bits above `nbits` are stale and may be shifted out. */
    var acc: nat
    var nbits: nat

    ghost predicate Valid()
      reads this
    {
      acc < WORD32 && nbits < 8
    }

    ghost function Written(): (bits: seq<bool>)
      reads this
    {
      BitsOf(bytes) + ToBits(acc, nbits)
    }

    constructor ()
      ensures Valid() && Written() == []
    {
      bytes, acc, nbits := [], 0, 0;
    }

    method Write(value: nat, n: nat)
      requires Valid() && n <= 24 && value < Pow2(n)
      modifies this
      ensures Valid() && Written() == old(Written()) + ToBits(value, n)
    {
      if n == 0 {
        assert ToBits(value, 0) == [];
        return;
      }
      hide Pow2, ToBits, BitsOf, Shl, Shr, Low, Low32, LowByte;
      AccumulatedBits(BitsOf(bytes), acc, nbits, value, n);
      acc := Low32(Shl(acc, n) + value);
      nbits := nbits + n;
      ghost var bits := Written();
      assert bits == old(Written()) + ToBits(value, n);
      EmitBytes(bits);
    }

    /** The loop that empties the accumulator. */
    method EmitBytes(ghost bits: seq<bool>)
      requires acc < WORD32 && Written() == bits
      modifies this`bytes, this`nbits
      ensures Valid() && Written() == bits
    {
      hide Pow2, ToBits, BitsOf, Shr, Low, LowByte;
      while nbits >= 8
        invariant acc < WORD32 && Written() == bits
      {
        EmittedByte(bytes, acc, nbits - 8);
        nbits := nbits - 8;
        bytes := bytes + [LowByte(Shr(acc, nbits))];
      }
    }

    /** Pads the last byte with zeros. */
    method Finish() returns (data: seq<byte>)
      requires Valid()
      modifies this
      ensures Packs(data, old(Written()))
    {
      Pow2Bytes();
      hide Pow2, BitsOf, Shl, Shr, Low;
      ghost var written := Written();
      if nbits > 0 {
        PaddedByte(bytes, acc, nbits);
        bytes := bytes + [LowByte(Shl(acc, 8 - nbits))];
      } else {
        assert ToBits(acc, 0) == [];
        assert BitsOf(bytes) == written + Zeros(0);
      }
      data := bytes;
    }
  }

  /** `data` holds exactly these bits, then fewer than eight zeros. */
  ghost predicate Packs(data: seq<byte>, bits: seq<bool>) {
    8 * |data| - 8 < |bits| <= 8 * |data| && BitsOf(data) == bits + Zeros(8 * |data| - |bits|)
  }

  lemma {:induction false} AccumulatedBits(front: seq<bool>, acc: nat, k: nat, value: nat, n: nat)
    requires k < 8 && n <= 24 && value < Pow2(n)
    ensures front + ToBits(Low32(Shl(acc, n) + value), k + n) == front + ToBits(acc, k) + ToBits(value, n)
  {
    ToBitsLow(Shl(acc, n) + value, 32, k + n);
    ToBitsAppend(acc, k, value, n);
    hide ToBits, Shl;
    assert front + (ToBits(acc, k) + ToBits(value, n)) == front + ToBits(acc, k) + ToBits(value, n);
  }

  lemma {:induction false} EmittedByte(front: seq<byte>, acc: nat, k: nat)
    ensures BitsOf(front + [LowByte(Shr(acc, k))]) + ToBits(acc, k) == BitsOf(front) + ToBits(acc, 8 + k)
  {
    hide Pow2, ToBits, BitsOf, Shr, Low;
    Pow2Bytes();
    ToBitsLow(Shr(acc, k), 8, 8);
    ToBitsSplit(acc, 8, k);
    AppendedByte(front, LowByte(Shr(acc, k)));
  }

  lemma {:induction false} AppendedByte(front: seq<byte>, last: byte)
    ensures BitsOf(front + [last]) == BitsOf(front) + ToBits(last, 8)
  {
    assert (front + [last])[..|front|] == front;
  }

  lemma {:induction false} PaddedByte(front: seq<byte>, acc: nat, k: nat)
    requires 0 < k < 8
    ensures BitsOf(front + [LowByte(Shl(acc, 8 - k))]) == BitsOf(front) + ToBits(acc, k) + Zeros(8 - k)
  {
    hide Pow2, ToBits, BitsOf, Shr, Low;
    AppendedByte(front, LowByte(Shl(acc, 8 - k)));
    Pow2Bytes();
    ToBitsLow(Shl(acc, 8 - k), 8, 8);
    ToBitsAppend(acc, k, 0, 8 - k);
    ZeroBits(8 - k);
  }

  lemma {:induction false} ZeroBits(n: nat)
    ensures ToBits(0, n) == Zeros(n)
  {
    if n != 0 {
      ZeroBits(n - 1);
    }
  }

  // ---- Hybrid-uint tokens ----

  const VALUE_LIMIT: nat := 0x10_0000

  function BitLength(v: nat): (n: nat)
    ensures v == 0 <==> n == 0
    ensures v != 0 ==> Pow2(n - 1) <= v < Pow2(n)
  {
    if v == 0 then 0 else 1 + BitLength(v / 2)
  }

  /** The symbol of a value and the width of its raw field. */
  function TokenizeShape(value: nat): (shape: (nat, nat)) {
    if value < 16 then (value, 0) else (16 + BitLength(value) - 5, BitLength(value) - 1)
  }

  /** The raw field of a value: the bits under its leading one. */
  function TokenBits(value: nat): (bits: nat)
    ensures bits < Pow2(TokenizeShape(value).1)
  {
    if value < 16 then 0 else value - Pow2(BitLength(value) - 1)
  }

  function Detokenize(symbol: nat, data: seq<byte>, p: nat): (res: Result<(nat, nat)>) {
    if symbol < 16 then Ok((symbol, p))
    else if symbol - 11 > 20 then Err(TokenOutOfRange)
    else
      var bits :- ReadAt(data, p, symbol - 12);
      Ok((Pow2(symbol - 12) + bits, p + (symbol - 12)))
  }

  lemma {:induction false} BitLengthIs(v: nat, n: nat)
    requires 0 < n && Pow2(n - 1) <= v < Pow2(n)
    ensures BitLength(v) == n
  {
    if BitLength(v) < n {
      Pow2Monotone(BitLength(v), n - 1);
    } else if n < BitLength(v) {
      Pow2Monotone(n, BitLength(v) - 1);
    }
  }

  lemma {:induction false} BitLengthRange(v: nat, lo: nat, hi: nat)
    requires 0 < lo && Pow2(lo - 1) <= v < Pow2(hi)
    ensures lo <= BitLength(v) <= hi
  {
    if BitLength(v) < lo {
      Pow2Monotone(BitLength(v), lo - 1);
    }
    if hi < BitLength(v) {
      Pow2Monotone(hi, BitLength(v) - 1);
    }
  }

  lemma {:induction false} TokenPowers()
    ensures Pow2(4) == 16 && Pow2(10) == 1024 && Pow2(20) == VALUE_LIMIT
  {
    assert Pow2(5) == 32;
    Pow2Sum(5, 5);
    Pow2Sum(10, 10);
  }

  /** Every codable value has a symbol of the 32-letter alphabet; runs inside a block have one of the first 22. */
  lemma {:induction false} TokenFits(value: nat)
    requires value < VALUE_LIMIT
    ensures TokenizeShape(value).0 < 32 && TokenizeShape(value).1 < 20
    ensures value < 1024 ==> TokenizeShape(value).0 < 22
    ensures value >= 16 ==> 16 <= TokenizeShape(value).0 && TokenizeShape(value).1 == TokenizeShape(value).0 - 12
  {
    TokenPowers();
    if value >= 16 {
      BitLengthRange(value, 5, 20);
      if value < 1024 {
        BitLengthRange(value, 5, 10);
      }
    }
  }

  /** A token reads back as its value if and only if its symbol and its raw field are the value's own. */
  lemma {:induction false} TokenIsCanonical(symbol: nat, data: seq<byte>, p: nat, value: nat, end: nat)
    requires symbol < 32
    ensures Detokenize(symbol, data, p) == Ok((value, end)) <==>
              && value < VALUE_LIMIT && symbol == TokenizeShape(value).0 && end == p + TokenizeShape(value).1
              && (16 <= value ==> ReadAt(data, p, TokenizeShape(value).1) == Ok(TokenBits(value)))
  {
    hide Pow2, Val, BitsOf, BitLength;
    if symbol < 16 {
      if value < VALUE_LIMIT {
        TokenFits(value);
      }
    } else {
      if Detokenize(symbol, data, p) == Ok((value, end)) {
        WideTokenReads(symbol, data, p);
      }
      if value < VALUE_LIMIT && symbol == TokenizeShape(value).0 {
        TokenFits(value);
        TokenParts(value);
      }
    }
  }

  lemma {:induction false} TokenParts(value: nat)
    requires 16 <= value < VALUE_LIMIT
    ensures Pow2(TokenizeShape(value).1) + TokenBits(value) == value
  {
    TokenFits(value);
  }

  lemma {:induction false} WideTokenReads(symbol: nat, data: seq<byte>, p: nat)
    requires 16 <= symbol < 32 && Detokenize(symbol, data, p).Ok?
    ensures var (value, end) := Detokenize(symbol, data, p).value;
            && 16 <= value < VALUE_LIMIT && TokenizeShape(value) == (symbol, symbol - 12) && end == p + symbol - 12
            && ReadAt(data, p, symbol - 12) == Ok(TokenBits(value))
  {
    var w := symbol - 12;
    assert ReadAt(data, p, w).Ok?;
    hide Pow2, Val, BitsOf;
    ValBound(BitsOf(data)[p..p + w]);
    WideValue(w, Val(BitsOf(data)[p..p + w]));
  }

  lemma {:induction false} WideValue(w: nat, field: nat)
    requires 4 <= w <= 19 && field < Pow2(w)
    ensures BitLength(Pow2(w) + field) == w + 1 && 16 <= Pow2(w) + field < VALUE_LIMIT
    ensures TokenizeShape(Pow2(w) + field) == (w + 12, w) && TokenBits(Pow2(w) + field) == field
  {
    hide Pow2, BitLength;
    WideBounds(w, field);
    BitLengthIs(Pow2(w) + field, w + 1);
  }

  lemma {:induction false} WideBounds(w: nat, field: nat)
    requires 4 <= w <= 19 && field < Pow2(w)
    ensures 16 <= Pow2(w) + field < VALUE_LIMIT && Pow2(w) <= Pow2(w) + field < Pow2(w + 1)
  {
    assert Pow2(w + 1) == 2 * Pow2(w);
    hide Pow2;
    TokenPowers();
    Pow2Monotone(4, w);
    Pow2Monotone(w + 1, 20);
  }

  method DetokenizeFrom(symbol: nat, reader: RawBitReader) returns (res: Result<nat>)
    requires reader.Valid()
    modifies reader
    ensures var spec := Detokenize(symbol, reader.data, old(reader.bitsRead));
            && res.Ok? == spec.Ok? && (res.Err? ==> res.fault == spec.fault)
            && (res.Ok? ==> reader.Valid() && res.value == spec.value.0 && reader.bitsRead == spec.value.1)
  {
    if symbol < 16 {
      return Ok(symbol);
    }
    var width := symbol - 16 + 5;
    if width > 20 {
      return Err(TokenOutOfRange);
    }
    var rawBits := width - 1;
    var bits := reader.Read(rawBits);
    if bits.Err? {
      return bits;
    }
    return Ok(Pow2(rawBits) + bits.value);
  }

  // ---- Signed values ----

  function Zigzag(v: int): (u: nat) {
    if v >= 0 then 2 * v else -2 * v - 1
  }

  /** `(u >> 1) ^ -(u & 1)`: exclusive-or with -1 complements. */
  function Unzigzag(u: nat): (v: int) {
    if u % 2 == 0 then u / 2 else -(u / 2) - 1
  }

  lemma {:induction false} ZigzagInverts(v: int, u: nat)
    ensures Zigzag(v) == u <==> v == Unzigzag(u)
  {
  }
}
