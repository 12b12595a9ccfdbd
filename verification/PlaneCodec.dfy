/** A whole plane through both streams: what the encoder writes, the decoder returns, consuming every byte. */
module PlaneCodec {
  import opened Bytes
  import opened Outcome
  import opened RangeCoder
  import opened AdaptiveModels
  import opened ModelBanks
  import opened RawBits
  import opened PlaneSyntax

  // ---- The two streams of a list of operations ----

  /** The symbols coded, with their contexts: the trace of a plane. */
  function TraceOf(ops: seq<Op>): (h: History)
    requires AllCodable(ops)
    decreases |ops|
  {
    if ops == [] then []
    else match ops[0]
      case Sym(c, s) => [(c, s)] + TraceOf(ops[1..])
      case Field(v, n) => TraceOf(ops[1..])
  }

  /** The raw fields, one after another, most significant bits first. */
  function FieldBits(ops: seq<Op>): (bits: seq<bool>)
    decreases |ops|
  {
    if ops == [] then []
    else match ops[0]
      case Sym(c, s) => FieldBits(ops[1..])
      case Field(v, n) => ToBits(v, n) + FieldBits(ops[1..])
  }

  /** From here on both streams say `ops`. */
  ghost predicate Serves(d: Streams, iv: Interval, src: Source, ops: seq<Op>)
    requires AllCodable(ops) && Live(src)
  {
    && Tracks(d.tokens, iv, src.st)
    && Inside(d.tokens, NarrowAll(iv, Carve(src.bank, TraceOf(ops))))
    && src.p + |FieldBits(ops)| <= 8 * |d.raw|
    && BitsOf(d.raw)[src.p..src.p + |FieldBits(ops)|] == FieldBits(ops)
  }

  /** Where they leave a decoder that has read them. */
  ghost function Served(d: Streams, iv: Interval, src: Source, ops: seq<Op>): (end: Source)
    requires AllCodable(ops) && Live(src) && Serves(d, iv, src, ops)
  {
    Source(Remainder(d.tokens, NarrowAll(iv, Carve(src.bank, TraceOf(ops)))),
           After(src.bank, TraceOf(ops)),
           src.p + |FieldBits(ops)|,
           src.trace + TraceOf(ops),
           BillAll(src.entropy, d.cost, src.bank, TraceOf(ops)))
  }

  lemma {:induction false} ServesReplay(d: Streams, iv: Interval, src: Source, ops: seq<Op>)
    requires AllCodable(ops) && Live(src) && Serves(d, iv, src, ops)
    ensures Replay(d, src, ops) == Some(Served(d, iv, src, ops))
    decreases |ops|
  {
    if ops != [] {
      assert Codable(ops[0]);
      match ops[0]
      case Sym(c, s) => SymbolServed(d, iv, src, ops, c, s);
      case Field(v, n) => FieldServed(d, iv, src, ops, v, n);
    } else {
      assert src.trace + [] == src.trace;
    }
  }

  lemma {:induction false} SymbolServed(d: Streams, iv: Interval, src: Source, ops: seq<Op>, c: Context, s: nat)
    requires AllCodable(ops) && Live(src) && Serves(d, iv, src, ops) && ops != [] && ops[0] == Sym(c, s)
    ensures Replay(d, src, ops) == Some(Served(d, iv, src, ops))
    decreases |ops|, 0
  {
    hide *;
    HeadCodable(ops);
    SymbolDrawn(d, iv, src, ops, c, s);
    var n := Narrow(iv, SlotOf(Prepared(src.bank, c), s));
    var next := ReadSymbol(d, src, c).value.src;
    SymbolUnfolds(d, iv, src, ops, c, s, n, next);
    ServesReplay(d, n, next, ops[1..]);
  }

  /** What one decoded symbol does to everything but the range stream. */
  ghost predicate Follows(d: Streams, src: Source, c: Context, s: nat, next: Source)
    requires Live(src) && s < Alphabet(KindOf(c))
  {
    && next.bank == Advance(src.bank, c, s) && next.p == src.p
    && next.trace == src.trace + [(c, s)] && next.entropy == BillFor(src.entropy, d.cost, src.bank, c, s)
  }

  lemma {:induction false} HeadCodable(ops: seq<Op>)
    requires AllCodable(ops) && ops != []
    ensures AllCodable(ops[1..]) && Codable(ops[0])
    ensures ops[0].Sym? ==> ops[0].s < Alphabet(KindOf(ops[0].c))
    ensures ops[0].Field? ==> ops[0].v < Pow2(ops[0].n)
  {
  }

  lemma {:induction false} SymbolDrawn(d: Streams, iv: Interval, src: Source, ops: seq<Op>, c: Context, s: nat)
    requires AllCodable(ops) && Live(src) && Serves(d, iv, src, ops) && ops != [] && ops[0] == Sym(c, s)
    requires s < Alphabet(KindOf(c))
    ensures s < |Prepared(src.bank, c).freq| && Wide(iv) && WellFormedBank(src.bank) && AllCodable(ops[1..])
    ensures var slot := SlotOf(Prepared(src.bank, c), s);
            var res := ReadSymbol(d, src, c);
            && Carves(slot)
            && res.Ok? && res.value.value == s && Follows(d, src, c, s, res.value.src)
            && res.value.src.bank == Advance(src.bank, c, s)
            && Tracks(d.tokens, Narrow(iv, slot), res.value.src.st)
            && NarrowAll(iv, Carve(src.bank, TraceOf(ops)))
                 == NarrowAll(Narrow(iv, slot), Carve(Advance(src.bank, c, s), TraceOf(ops[1..])))
  {
    HeadCodable(ops);
    var h := TraceOf(ops);
    assert h[0] == (c, s) && h[1..] == TraceOf(ops[1..]);
    hide Draw, Advance, Prepared, Narrow, NarrowAll, Carve, Inside, Tracks, Remainder, BitsOf, TraceOf, FieldBits;
    TracksReady(d.tokens, iv, src.st);
    CarveUnfolds(iv, src.bank, h);
    InsideAll(d.tokens, Narrow(iv, SlotOf(Prepared(src.bank, c), s)), Carve(Advance(src.bank, c, s), h[1..]));
    DrawInverts(d.tokens, iv, src.st, src.bank, c, s);
  }

  lemma {:induction false} SymbolUnfolds(d: Streams, iv: Interval, src: Source, ops: seq<Op>, c: Context, s: nat, n: Interval, next: Source)
    requires AllCodable(ops) && Live(src) && Serves(d, iv, src, ops) && ops != [] && ops[0] == Sym(c, s)
    requires s < Alphabet(KindOf(c)) && AllCodable(ops[1..]) && Live(next)
    requires ReadSymbol(d, src, c) == Ok(Read(s, next)) && Follows(d, src, c, s, next)
    requires Tracks(d.tokens, n, next.st) && Wide(n)
    requires NarrowAll(iv, Carve(src.bank, TraceOf(ops))) == NarrowAll(n, Carve(next.bank, TraceOf(ops[1..])))
    ensures Serves(d, n, next, ops[1..]) && Served(d, iv, src, ops) == Served(d, n, next, ops[1..])
    ensures Replay(d, src, ops) == Replay(d, next, ops[1..])
  {
    hide ReadSymbol, Advance, NarrowAll, Carve, Inside, Tracks, Remainder, BitsOf, WellFormedBank, BillFor;
    assert src.trace + TraceOf(ops) == next.trace + TraceOf(ops[1..]) by {
      assert TraceOf(ops) == [(c, s)] + TraceOf(ops[1..]);
    }
    var h := TraceOf(ops);
    assert h[0] == (c, s) && h[1..] == TraceOf(ops[1..]);
  }

  lemma {:induction false} FieldServed(d: Streams, iv: Interval, src: Source, ops: seq<Op>, v: nat, n: nat)
    requires AllCodable(ops) && Live(src) && Serves(d, iv, src, ops) && ops != [] && ops[0] == Field(v, n)
    ensures Replay(d, src, ops) == Some(Served(d, iv, src, ops))
    decreases |ops|, 0
  {
    hide *;
    HeadCodable(ops);
    FieldUnfolds(d, iv, src, ops, v, n);
    ServesReplay(d, iv, src.(p := src.p + n), ops[1..]);
  }

  lemma {:induction false} FieldUnfolds(d: Streams, iv: Interval, src: Source, ops: seq<Op>, v: nat, n: nat)
    requires AllCodable(ops) && Live(src) && Serves(d, iv, src, ops) && ops != [] && ops[0] == Field(v, n)
    requires AllCodable(ops[1..])
    ensures var next := src.(p := src.p + n);
            && Live(next) && Serves(d, iv, next, ops[1..]) && Served(d, iv, src, ops) == Served(d, iv, next, ops[1..])
            && Replay(d, src, ops) == Replay(d, next, ops[1..])
  {
    hide NarrowAll, Carve, Inside, Tracks, Remainder, BitsOf, ToBits, WellFormedBank, BillAll, After, Replay;
    FieldReads(d, src, ops, v, n);
    FieldSlices(d.raw, src.p, ops, v, n);
    assert TraceOf(ops) == TraceOf(ops[1..]);
  }

  lemma {:induction false} FieldReads(d: Streams, src: Source, ops: seq<Op>, v: nat, n: nat)
    requires AllCodable(ops) && Live(src) && ops != [] && ops[0] == Field(v, n)
    requires src.p + |FieldBits(ops)| <= 8 * |d.raw|
    requires BitsOf(d.raw)[src.p..src.p + |FieldBits(ops)|] == FieldBits(ops)
    ensures Live(src.(p := src.p + n)) && Replay(d, src, ops) == Replay(d, src.(p := src.p + n), ops[1..])
  {
    hide AllCodable, BitsOf, Codable, FieldBits, Pow2, ReadSymbol, Ready, ToBits, Val, WellFormedBank;
    HeadCodable(ops);
    FieldSlices(d.raw, src.p, ops, v, n);
    ValToBits(v, n);
  }

  lemma {:induction false} FieldSlices(raw: seq<byte>, p: nat, ops: seq<Op>, v: nat, n: nat)
    requires ops != [] && ops[0] == Field(v, n)
    requires p + |FieldBits(ops)| <= 8 * |raw| && BitsOf(raw)[p..p + |FieldBits(ops)|] == FieldBits(ops)
    ensures |FieldBits(ops)| == n + |FieldBits(ops[1..])|
    ensures BitsOf(raw)[p..p + n] == ToBits(v, n)
    ensures BitsOf(raw)[p + n..p + |FieldBits(ops)|] == FieldBits(ops[1..])
  {
    hide BitsOf, ToBits;
    var bits, rest := FieldBits(ops), FieldBits(ops[1..]);
    assert bits == ToBits(v, n) + rest;
    var all := BitsOf(raw);
    assert bits[..n] == ToBits(v, n) && bits[n..] == rest;
    assert all[p..p + |bits|] == bits;
    assert all[p..p + n] == all[p..p + |bits|][..n];
    assert all[p + n..p + |bits|] == all[p..p + |bits|][n..];
  }

  /** Whatever a decoder reads, its bank ends as the trace of those operations leaves it. */
  lemma {:induction false} ReplayLearns(d: Streams, src: Source, ops: seq<Op>)
    requires AllCodable(ops) && Live(src) && Replay(d, src, ops).Some?
    ensures Replay(d, src, ops).value.bank == After(src.bank, TraceOf(ops))
    ensures Replay(d, src, ops).value.p == src.p + |FieldBits(ops)|
    ensures Replay(d, src, ops).value.trace == src.trace + TraceOf(ops)
    ensures Replay(d, src, ops).value.entropy == BillAll(src.entropy, d.cost, src.bank, TraceOf(ops))
    decreases |ops|
  {
    hide *;
    if ops == [] {
      EmptyReplay(d, src, ops);
    } else {
      HeadCodable(ops);
      match ops[0]
      case Sym(c, s) =>
        SymbolLearns(d, src, ops, c, s);
        ReplayLearns(d, ReadSymbol(d, src, c).value.src, ops[1..]);
      case Field(v, n) =>
        FieldLearns(d, src, ops, v, n);
        ReplayLearns(d, src.(p := src.p + n), ops[1..]);
    }
  }

  lemma {:induction false} EmptyReplay(d: Streams, src: Source, ops: seq<Op>)
    requires Live(src) && ops == []
    ensures Replay(d, src, ops) == Some(src) && TraceOf(ops) == [] && FieldBits(ops) == []
    ensures After(src.bank, []) == src.bank && src.trace + [] == src.trace
    ensures BillAll(src.entropy, d.cost, src.bank, []) == src.entropy
  {
    hide WellFormedBank;
  }

  lemma {:induction false} SymbolLearns(d: Streams, src: Source, ops: seq<Op>, c: Context, s: nat)
    requires Live(src) && ops != [] && ops[0] == Sym(c, s) && AllCodable(ops) && AllCodable(ops[1..])
    requires Replay(d, src, ops).Some?
    ensures ReadSymbol(d, src, c).Ok?
    ensures var next := ReadSymbol(d, src, c).value.src;
            && Live(next) && Replay(d, next, ops[1..]) == Replay(d, src, ops)
            && After(src.bank, TraceOf(ops)) == After(next.bank, TraceOf(ops[1..]))
            && src.p + |FieldBits(ops)| == next.p + |FieldBits(ops[1..])|
            && src.trace + TraceOf(ops) == next.trace + TraceOf(ops[1..])
            && BillAll(src.entropy, d.cost, src.bank, TraceOf(ops))
                 == BillAll(next.entropy, d.cost, next.bank, TraceOf(ops[1..]))
  {
    hide Draw, Advance, ReadAt, WellFormedBank, ToBits, BillFor, Replay, Ready, Covers;
    HeadCodable(ops);
    SymbolFollows(d, src, ops, c, s);
    var h := TraceOf(ops);
    assert h == [(c, s)] + TraceOf(ops[1..]) && h[0] == (c, s) && h[1..] == TraceOf(ops[1..]);
    var next := ReadSymbol(d, src, c).value.src;
    assert src.trace + h == next.trace + TraceOf(ops[1..]);
  }

  lemma {:induction false} SymbolFollows(d: Streams, src: Source, ops: seq<Op>, c: Context, s: nat)
    requires Live(src) && ops != [] && ops[0] == Sym(c, s) && Replay(d, src, ops).Some?
    ensures var res := ReadSymbol(d, src, c);
            res.Ok? && res.value.value == s && Follows(d, src, c, s, res.value.src) && Live(res.value.src)
            && Replay(d, src, ops) == Replay(d, res.value.src, ops[1..])
  {
    hide Draw, Advance, WellFormedBank, BillFor, Ready, Covers;
    if ReadSymbol(d, src, c).Ok? {
      DrawAdvances(d.tokens, src.st, src.bank, c);
    }
  }

  lemma {:induction false} FieldLearns(d: Streams, src: Source, ops: seq<Op>, v: nat, n: nat)
    requires Live(src) && ops != [] && ops[0] == Field(v, n) && AllCodable(ops) && AllCodable(ops[1..])
    requires Replay(d, src, ops).Some?
    ensures var next := src.(p := src.p + n);
            && Live(next) && Replay(d, next, ops[1..]) == Replay(d, src, ops)
            && TraceOf(ops) == TraceOf(ops[1..]) && src.p + |FieldBits(ops)| == next.p + |FieldBits(ops[1..])|
  {
    hide WellFormedBank, ToBits, ReadAt;
  }

  // ---- Every operation of a valid plane can be coded ----

  lemma {:induction false} CodableConcat(a: seq<Op>, b: seq<Op>)
    requires AllCodable(a) && AllCodable(b)
    ensures AllCodable(a + b)
  {
  }

  lemma {:induction false} TokenCodable(c: Context, value: nat)
    requires value < VALUE_LIMIT && (Alphabet(KindOf(c)) == 32 || (KindOf(c) == Run && value < 1024))
    ensures AllCodable(TokenOps(c, value))
  {
    TokenFits(value);
  }

  lemma {:induction false} AcsCodable(size: nat, position: nat, nnz: nat, previous: nat, acs: seq<Ac>)
    requires nnz < 4 && BlockSize(size) && ValidAcs(size, position, acs)
    ensures AllCodable(AcsOps(size, position, nnz, previous, acs))
    decreases |acs|
  {
    hide EobContext, RunContext, LevelContext, TokenOps;
    if acs != [] {
      var ac := acs[0];
      var run := TokenOps(RunContext(size, position, nnz), ac.pos - position);
      var level := TokenOps(LevelContext(size, ac.pos, previous), ac.magnitude - 1);
      var sign := [Field(if ac.sign then 1 else 0, 1)];
      RunFits(size, ac.pos - position);
      TokenCodable(RunContext(size, position, nnz), ac.pos - position);
      TokenCodable(LevelContext(size, ac.pos, previous), ac.magnitude - 1);
      assert Pow2(1) == 2;
      CodableConcat(level, sign);
      CodableConcat(run, level + sign);
      AcsCodable(size, ac.pos + 1, nnz, ac.magnitude, acs[1..]);
      CodableConcat(AcOps(size, position, nnz, previous, ac), AcsOps(size, ac.pos + 1, nnz, ac.magnitude, acs[1..]));
    }
  }

  lemma {:induction false} LeafCodable(size: nat, nnz: nat, leaf: Leaf)
    requires nnz < 4 && BlockSize(size) && ValidLeaf(size, leaf)
    ensures AllCodable(LeafOps(size, nnz, leaf))
  {
    hide TokenOps, AcsOps;
    TokenCodable(CTX_DC_BASE, Zigzag(leaf.dc));
    AcsCodable(size, 1, nnz, 0, leaf.acs);
    CodableConcat(TokenOps(CTX_DC_BASE, Zigzag(leaf.dc)), AcsOps(size, 1, nnz, 0, leaf.acs));
  }

  lemma {:induction false} NodeCodable(a: Area, size: nat, x: nat, y: nat, nnz: nat, node: Node)
    requires nnz < 4 && BlockSize(size) && ValidNode(a, size, x, y, node)
    ensures AllCodable(NodeOps(a, size, x, y, nnz, node).ops)
    decreases size, 0
  {
    hide LeafOps, KidsOps, SplitContext;
    match node
    case Whole(leaf) => LeafCodable(size, nnz, leaf);
    case Quad(kids) => KidsCodable(a, size / 2, x, y, 0, nnz, kids);
  }

  lemma {:induction false} KidsCodable(a: Area, half: nat, x: nat, y: nat, i: nat, nnz: nat, kids: seq<Node>)
    requires nnz < 4 && i <= 4 && BlockSize(half) && ValidKids(a, half, x, y, i, kids)
    ensures AllCodable(KidsOps(a, half, x, y, i, nnz, kids).ops)
    decreases half, 5 - i
  {
    hide NodeOps, ValidNode;
    if i < 4 {
      if !InPlane(a, half, a.KidX(x, i), a.KidY(y, i)) {
        KidsCodable(a, half, x, y, i + 1, nnz, kids);
      } else {
        NodeCodable(a, half, a.KidX(x, i), a.KidY(y, i), nnz, kids[0]);
        KidsCodable(a, half, x, y, i + 1, NodeOps(a, half, a.KidX(x, i), a.KidY(y, i), nnz, kids[0]).nnz, kids[1..]);
      }
    }
  }

  lemma {:induction false} RootsCodable(a: Area, k: nat, nnz: nat, roots: seq<Node>)
    requires nnz < 4 && k <= RootCount(a) && ValidRoots(a, k, roots)
    ensures AllCodable(RootsOps(a, k, nnz, roots).ops)
    decreases RootCount(a) - k
  {
    hide NodeOps, ValidNode, RootCount, Roots;
    if k != RootCount(a) {
      var (x, y) := (k % Roots(a.width), k / Roots(a.width));
      NodeCodable(a, 32, x, y, nnz, roots[0]);
      RootsCodable(a, k + 1, NodeOps(a, 32, x, y, nnz, roots[0]).nnz, roots[1..]);
    }
  }

  lemma {:induction false} PlaneCodable(a: Area, plane: Plane)
    requires ValidPlane(a, plane)
    ensures AllCodable(PlaneOps(a, plane))
  {
    hide RootsOps;
    RootsCodable(a, 0, 0, plane.roots);
  }

  // ---- The plane decoder ----

  /** What one section hands to the next: the bank of its tile, the tile's trace, the plane's bills. */
  datatype Carry = Carry(bank: Bank, trace: seq<(Context, nat)>, entropy: Entropy)

  ghost predicate Sound(sh: Carry) {
    WellFormedBank(sh.bank) && Covers(sh.entropy)
  }

  datatype Decoded = Decoded(plane: Plane, carry: Carry)

  function Opened(sh: Carry, st: Cursor): (src: Source) {
    Source(st, sh.bank, 0, sh.trace, sh.entropy)
  }

  /** A plane section: open the range stream, read the plane, and insist that both streams are used up. */
  function DecodePlane(d: Streams, sh: Carry, a: Area): (res: Result<Decoded>)
    requires Sound(sh)
    ensures res.Ok? ==> Sound(res.value.carry)
  {
    var st :- Start(d.tokens);
    var read :- ReadPlane(d, Opened(sh, st), a);
    Closed(d, read)
  }

  function Closed(d: Streams, read: Read<Plane>): (res: Result<Decoded>) {
    if read.src.st.pos != |d.tokens| then Err(RangeLeftover)
    else if (read.src.p + 7) / 8 != |d.raw| then Err(RawLeftover)
    else Ok(Decoded(read.value, Carry(read.src.bank, read.src.trace, read.src.entropy)))
  }

  /** What a section of operations hands on. */
  function Handed(d: Streams, sh: Carry, ops: seq<Op>): (next: Carry)
    requires Sound(sh) && AllCodable(ops)
    ensures Sound(next)
  {
    Carry(After(sh.bank, TraceOf(ops)), sh.trace + TraceOf(ops), BillAll(sh.entropy, d.cost, sh.bank, TraceOf(ops)))
  }

  /** The section operations are written to: their trace through the range encoder, their fields packed into bytes. */
  ghost predicate Encodes(d: Streams, bank: Bank, ops: seq<Op>)
    requires WellFormedBank(bank) && AllCodable(ops)
  {
    d.tokens == Message(Carve(bank, TraceOf(ops))) && Packs(d.raw, FieldBits(ops))
  }

  /** The section a plane is written to. */
  ghost predicate EncodesPlane(d: Streams, bank: Bank, a: Area, plane: Plane)
    requires WellFormedBank(bank) && ValidPlane(a, plane)
  {
    PlaneCodable(a, plane);
    Encodes(d, bank, PlaneOps(a, plane))
  }

  lemma {:induction false} PlaneIsOps(d: Streams, sh: Carry, a: Area, plane: Plane)
    requires Sound(sh) && ValidPlane(a, plane)
    ensures AllCodable(PlaneOps(a, plane)) && (EncodesPlane(d, sh.bank, a, plane) <==> Encodes(d, sh.bank, PlaneOps(a, plane)))
  {
    hide Encodes, ValidPlane, WellFormedBank;
    PlaneCodable(a, plane);
  }

  /** Any codable operations, written to two streams, read back and use both up. */
  lemma {:induction false} OpsRoundTrip(d: Streams, sh: Carry, ops: seq<Op>)
    requires Sound(sh) && AllCodable(ops) && Encodes(d, sh.bank, ops)
    ensures Start(d.tokens).Ok? && Live(Opened(sh, Start(d.tokens).value))
    ensures var end := Replay(d, Opened(sh, Start(d.tokens).value), ops);
            && end.Some? && end.value.st.pos == |d.tokens| && (end.value.p + 7) / 8 == |d.raw|
            && Carry(end.value.bank, end.value.trace, end.value.entropy) == Handed(d, sh, ops)
  {
    hide *;
    SectionServes(d, sh, ops);
    ServesReplay(d, WHOLE, Opened(sh, Start(d.tokens).value), ops);
  }

  lemma {:induction false} SectionServes(d: Streams, sh: Carry, ops: seq<Op>)
    requires Sound(sh) && AllCodable(ops) && Encodes(d, sh.bank, ops)
    ensures Start(d.tokens).Ok?
    ensures var src := Opened(sh, Start(d.tokens).value);
            && Live(src) && Serves(d, WHOLE, src, ops)
            && var end := Served(d, WHOLE, src, ops);
               && end.st.pos == |d.tokens| && (end.p + 7) / 8 == |d.raw|
               && Carry(end.bank, end.trace, end.entropy) == Handed(d, sh, ops)
  {
    hide Carve, Message, NarrowAll, BitsOf, FieldBits, TraceOf, After, Start, Inside, Tracks, Remainder, Packs, BillAll;
    MessageOpens(Carve(sh.bank, TraceOf(ops)));
    PackedSlice(d.raw, FieldBits(ops));
  }

  lemma {:induction false} PackedSlice(raw: seq<byte>, bits: seq<bool>)
    requires Packs(raw, bits)
    ensures |bits| <= 8 * |raw| && BitsOf(raw)[0..0 + |bits|] == bits && (|bits| + 7) / 8 == |raw|
  {
  }

  /**
   * The round trip of a plane, from any bank state: the section its encoder writes decodes to that plane, both
   * streams are consumed to the last byte, and the bank, the trace and the bills end as the operations dictate.
   */
  lemma {:induction false} PlaneRoundTrip(d: Streams, sh: Carry, a: Area, plane: Plane)
    requires Sound(sh) && ValidPlane(a, plane) && EncodesPlane(d, sh.bank, a, plane)
    ensures AllCodable(PlaneOps(a, plane)) && DecodePlane(d, sh, a) == Ok(Decoded(plane, Handed(d, sh, PlaneOps(a, plane))))
  {
    hide *;
    PlaneCodable(a, plane);
    PlaneIsOps(d, sh, a, plane);
    var ops := PlaneOps(a, plane);
    OpsRoundTrip(d, sh, ops);
    var src := Opened(sh, Start(d.tokens).value);
    PlaneReplay(d, src, a, plane, Replay(d, src, ops).value);
    PlaneCloses(d, sh, a);
  }

  lemma {:induction false} PlaneCloses(d: Streams, sh: Carry, a: Area)
    requires Sound(sh) && Start(d.tokens).Ok? && Live(Opened(sh, Start(d.tokens).value))
    requires ReadPlane(d, Opened(sh, Start(d.tokens).value), a).Ok?
    ensures var read := ReadPlane(d, Opened(sh, Start(d.tokens).value), a).value;
            read.src.st.pos == |d.tokens| && (read.src.p + 7) / 8 == |d.raw| ==>
              DecodePlane(d, sh, a) == Ok(Decoded(read.value, Carry(read.src.bank, read.src.trace, read.src.entropy)))
  {
    hide ReadPlane, Start, Opened, Live, Sound;
  }

  /** Every section the decoder accepts says exactly the operations of the plane it returns, and nothing more. */
  lemma {:induction false} PlaneSound(d: Streams, sh: Carry, a: Area)
    requires Sound(sh) && DecodePlane(d, sh, a).Ok?
    ensures var out := DecodePlane(d, sh, a).value;
            && ValidPlane(a, out.plane) && AllCodable(PlaneOps(a, out.plane))
            && var ops := PlaneOps(a, out.plane);
               && out.carry == Handed(d, sh, ops)
               && (|FieldBits(ops)| + 7) / 8 == |d.raw|
               && Replay(d, Opened(sh, Start(d.tokens).value), ops).Some?
  {
    var src := Opened(sh, Start(d.tokens).value);
    var read := ReadPlane(d, src, a).value;
    hide PlaneOps, BitsOf, FieldBits, TraceOf, After, ReadPlane, Replay, ValidPlane, BillAll;
    PlaneReplay(d, src, a, read.value, read.src);
    PlaneCodable(a, read.value);
    ReplayLearns(d, src, PlaneOps(a, read.value));
  }
}
