/**
 * The v7 plane syntax on values: blocks of coefficients, the 32-16-8-4 quadtree, the operations that write a plane
 * and the parser that reads one, and the theorem that each accepted reading is the writing of what was read.
 */
module PlaneSyntax {
  import opened Bytes
  import opened Outcome
  import opened RangeCoder
  import opened AdaptiveModels
  import opened ModelBanks
  import opened RawBits

  // ---- What a plane says ----

  /** A nonzero AC coefficient: its scan position, its magnitude and its sign bit. */
  datatype Ac = Ac(pos: nat, magnitude: nat, sign: bool)

  datatype Leaf = Leaf(mode: nat, tx: nat, dc: int, acs: seq<Ac>)

  /** A square of the quadtree: one block, or the in-plane ones of its four quarters. */
  datatype Node = Whole(leaf: Leaf) | Quad(kids: seq<Node>)

  datatype Plane = Plane(cdef: nat, roots: seq<Node>)

  // ---- Context selection ----

  function PosBucket8(position: nat): (b: nat)
    ensures b < N_POS_BUCKETS
  {
    if position == 1 then 0 else if position <= 3 then 1 else if position <= 7 then 2
    else if position <= 15 then 3 else if position <= 31 then 4 else 5
  }

  function Max(a: nat, b: nat): nat {
    if a < b then b else a
  }

  predicate BlockSize(size: nat) {
    size == 4 || size == 8 || size == 16 || size == 32
  }

  function PositionBucket(size: nat, position: nat): (b: nat)
    ensures b < N_POS_BUCKETS
  {
    if size == 4 then PosBucket8(Min(Max(4 * position, 1), 63))
    else if size == 16 then PosBucket8(Max(position / 4, 1))
    else if size == 32 then PosBucket8(Max(position / 16, 1))
    else PosBucket8(position)
  }

  function NnzBucket(nonzero: nat): (b: nat)
    ensures b < 4
  {
    if nonzero == 0 then 0 else if nonzero <= 3 then 1 else if nonzero <= 9 then 2 else 3
  }

  function NormalizedNnz(size: nat, nonzero: nat): nat {
    if size == 4 then 4 * nonzero else if size == 8 then nonzero else if size == 16 then nonzero / 4 else nonzero / 16
  }

  function LevelBucket(magnitude: nat): (b: nat)
    ensures b < 4
  {
    if magnitude == 0 then 0 else if magnitude == 1 then 1 else if magnitude <= 3 then 2 else 3
  }

  /** Every context the syntax computes has the kind the syntax expects there. */
  function EobContext(size: nat, position: nat, nnz: nat): (c: Context)
    requires nnz < 4
    ensures KindOf(c) == Eob
  {
    CTX_EOB_BASE + PositionBucket(size, position) + N_POS_BUCKETS * nnz
  }

  function RunContext(size: nat, position: nat, nnz: nat): (c: Context)
    requires nnz < 4
    ensures KindOf(c) == Run
  {
    CTX_RUN_BASE + PositionBucket(size, position) + N_POS_BUCKETS * nnz
  }

  function LevelContext(size: nat, position: nat, magnitude: nat): (c: Context)
    ensures KindOf(c) == Level
  {
    CTX_LEVEL_BASE + PositionBucket(size, position) + N_POS_BUCKETS * LevelBucket(magnitude)
  }

  function SplitContext(size: nat): (c: Context)
    ensures KindOf(c) == Split
  {
    if size == 32 then CTX_SPLIT32 else if size == 16 then CTX_SPLIT else CTX_SPLIT8
  }

  // ---- Operations ----

  /** What the encoder does, in order: code a symbol in a context, or write a raw field of `n` bits. */
  datatype Op = Sym(c: Context, s: nat) | Field(v: nat, n: nat)

  predicate Codable(op: Op) {
    match op
    case Sym(c, s) => s < Alphabet(KindOf(c))
    case Field(v, n) => n <= 24 && v < Pow2(n)
  }

  predicate AllCodable(ops: seq<Op>) {
    forall i :: 0 <= i < |ops| ==> Codable(ops[i])
  }

  function TokenOps(c: Context, value: nat): (ops: seq<Op>) {
    var (symbol, width) := TokenizeShape(value);
    if value < 16 then [Sym(c, symbol)] else [Sym(c, symbol), Field(TokenBits(value), width)]
  }

  function AcOps(size: nat, position: nat, nnz: nat, previous: nat, ac: Ac): (ops: seq<Op>)
    requires nnz < 4 && position <= ac.pos && 1 <= ac.magnitude
  {
    TokenOps(RunContext(size, position, nnz), ac.pos - position)
    + (TokenOps(LevelContext(size, ac.pos, previous), ac.magnitude - 1)
       + [Field(if ac.sign then 1 else 0, 1)])
  }

  /** Strictly increasing positions inside the block, magnitudes 1 to 2^20. */
  predicate ValidAcs(size: nat, position: nat, acs: seq<Ac>)
    decreases |acs|
  {
    acs == [] ||
    (ValidAc(size, position, acs[0]) && ValidAcs(size, acs[0].pos + 1, acs[1..]))
  }

  predicate ValidAc(size: nat, position: nat, ac: Ac) {
    position <= ac.pos < size * size && 1 <= ac.magnitude <= VALUE_LIMIT
  }

  function AcsOps(size: nat, position: nat, nnz: nat, previous: nat, acs: seq<Ac>): (ops: seq<Op>)
    requires nnz < 4 && ValidAcs(size, position, acs)
    decreases |acs|
  {
    if acs == [] then
      if position < size * size then [Sym(EobContext(size, position, nnz), 1)] else []
    else
      [Sym(EobContext(size, position, nnz), 0)]
      + (AcOps(size, position, nnz, previous, acs[0])
         + AcsOps(size, acs[0].pos + 1, nnz, acs[0].magnitude, acs[1..]))
  }

  predicate ValidLeaf(size: nat, leaf: Leaf) {
    && leaf.mode < Alphabet(Mode) && leaf.tx < Alphabet(Tx) && Zigzag(leaf.dc) < VALUE_LIMIT
    && ValidAcs(size, 1, leaf.acs)
  }

  function LeafOps(size: nat, nnz: nat, leaf: Leaf): (ops: seq<Op>)
    requires nnz < 4 && ValidLeaf(size, leaf)
  {
    [Sym(CTX_MODE, leaf.mode)]
    + ([Sym(CTX_TX, leaf.tx)]
       + (TokenOps(CTX_DC_BASE, Zigzag(leaf.dc))
          + AcsOps(size, 1, nnz, 0, leaf.acs)))
  }

  function LeafNnz(size: nat, leaf: Leaf): (nnz: nat)
    ensures nnz < 4
  {
    NnzBucket(NormalizedNnz(size, |leaf.acs|))
  }

  // ---- The quadtree ----

  /** A plane's measures. */
  datatype Area = Area(width: nat, height: nat) {
    /** Column and row of quarter `i` of square `(x, y)`, in units of the quarter's side. */
    function KidX(x: nat, i: nat): nat {
      2 * x + i % 2
    }

    function KidY(y: nat, i: nat): nat {
      2 * y + i / 2
    }
  }

  predicate InPlane(a: Area, size: nat, x: nat, y: nat) {
    x * size < a.width && y * size < a.height
  }

  predicate ValidNode(a: Area, size: nat, x: nat, y: nat, node: Node)
    decreases size, 0
  {
    match node
    case Whole(leaf) => ValidLeaf(size, leaf)
    case Quad(kids) => size > 4 && ValidKids(a, size / 2, x, y, 0, kids)
  }

  /** `kids` are the in-plane quarters from the `i`-th on. */
  predicate ValidKids(a: Area, half: nat, x: nat, y: nat, i: nat, kids: seq<Node>)
    requires i <= 4
    decreases half, 5 - i
  {
    if i == 4 then kids == []
    else if !InPlane(a, half, a.KidX(x, i), a.KidY(y, i)) then ValidKids(a, half, x, y, i + 1, kids)
    else
      && kids != []
      && 4 <= half && ValidNode(a, half, a.KidX(x, i), a.KidY(y, i), kids[0])
      && ValidKids(a, half, x, y, i + 1, kids[1..])
  }

  /** The operations that write a piece, and the nonzero bucket they leave behind. */
  datatype Writing = Writing(ops: seq<Op>, nnz: nat)

  function NodeOps(a: Area, size: nat, x: nat, y: nat, nnz: nat, node: Node): (w: Writing)
    requires nnz < 4 && ValidNode(a, size, x, y, node)
    ensures w.nnz < 4
    decreases size, 0
  {
    match node
    case Whole(leaf) =>
      var ops := LeafOps(size, nnz, leaf);
      Writing(if size == 4 then ops else [Sym(SplitContext(size), 0)] + ops, LeafNnz(size, leaf))
    case Quad(kids) =>
      var w := KidsOps(a, size / 2, x, y, 0, nnz, kids);
      Writing([Sym(SplitContext(size), 1)] + w.ops, w.nnz)
  }

  function KidsOps(a: Area, half: nat, x: nat, y: nat, i: nat, nnz: nat, kids: seq<Node>): (w: Writing)
    requires nnz < 4 && i <= 4 && ValidKids(a, half, x, y, i, kids)
    ensures w.nnz < 4
    decreases half, 5 - i
  {
    if i == 4 then Writing([], nnz)
    else if !InPlane(a, half, a.KidX(x, i), a.KidY(y, i)) then KidsOps(a, half, x, y, i + 1, nnz, kids)
    else
      var first := NodeOps(a, half, a.KidX(x, i), a.KidY(y, i), nnz, kids[0]);
      var rest := KidsOps(a, half, x, y, i + 1, first.nnz, kids[1..]);
      Writing(first.ops + rest.ops, rest.nnz)
  }

  function Roots(n: nat): nat {
    (n + 31) / 32
  }

  function RootCount(a: Area): nat {
    Roots(a.width) * Roots(a.height)
  }

  /** `roots` are the 32-squares of the plane from the `k`-th on, row by row. */
  predicate ValidRoots(a: Area, k: nat, roots: seq<Node>)
    requires k <= RootCount(a)
    decreases RootCount(a) - k
  {
    if k == RootCount(a) then roots == []
    else
      && roots != [] && Roots(a.width) > 0
      && ValidNode(a, 32, k % Roots(a.width), k / Roots(a.width), roots[0])
      && ValidRoots(a, k + 1, roots[1..])
  }

  function RootsOps(a: Area, k: nat, nnz: nat, roots: seq<Node>): (w: Writing)
    requires nnz < 4 && k <= RootCount(a) && ValidRoots(a, k, roots)
    ensures w.nnz < 4
    decreases RootCount(a) - k
  {
    if k == RootCount(a) then Writing([], nnz)
    else
      var first := NodeOps(a, 32, k % Roots(a.width), k / Roots(a.width), nnz, roots[0]);
      var rest := RootsOps(a, k + 1, first.nnz, roots[1..]);
      Writing(first.ops + rest.ops, rest.nnz)
  }

  predicate ValidPlane(a: Area, plane: Plane) {
    plane.cdef < Alphabet(Cdef) && ValidRoots(a, 0, plane.roots)
  }

  function PlaneOps(a: Area, plane: Plane): (ops: seq<Op>)
    requires ValidPlane(a, plane)
  {
    [Sym(CTX_CDEF, plane.cdef)] + RootsOps(a, 0, 0, plane.roots).ops
  }

  // ---- Reading ----

  /** The two streams of a plane section, and what symbols cost. */
  datatype Streams = Streams(tokens: seq<byte>, raw: seq<byte>, cost: Cost)

  /** Where a plane decoder stands: both streams, the bank's tables, the symbols so far and what they were billed. */
  datatype Source = Source(st: Cursor, bank: Bank, p: nat, trace: seq<(Context, nat)>, entropy: Entropy)

  ghost predicate Live(src: Source) {
    Ready(src.st) && WellFormedBank(src.bank) && Covers(src.entropy)
  }

  datatype Read<+T> = Read(value: T, src: Source)

  function ReadSymbol(d: Streams, src: Source, c: Context): (res: Result<Read<nat>>)
    requires Live(src)
    ensures res.Ok? ==> Live(res.value.src) && res.value.value < Alphabet(KindOf(c))
  {
    var (symbol, st, bank) :- Draw(d.tokens, src.st, src.bank, c);
    Ok(Read(symbol, Source(st, bank, src.p, src.trace + [(c, symbol)],
                           BillFor(src.entropy, d.cost, src.bank, c, symbol))))
  }

  function ReadField(d: Streams, src: Source, n: nat): (res: Result<Read<nat>>)
    requires Live(src)
    ensures res.Ok? ==> Live(res.value.src)
  {
    var v :- ReadAt(d.raw, src.p, n);
    Ok(Read(v, src.(p := src.p + n)))
  }

  function ReadToken(d: Streams, src: Source, c: Context): (res: Result<Read<nat>>)
    requires Live(src)
    ensures res.Ok? ==> Live(res.value.src)
  {
    var symbol :- ReadSymbol(d, src, c);
    var (value, p) :- Detokenize(symbol.value, d.raw, symbol.src.p);
    Ok(Read(value, symbol.src.(p := p)))
  }

  /** A magnitude token and its sign bit. */
  function ReadLevel(d: Streams, src: Source, c: Context): (res: Result<Read<(nat, bool)>>)
    requires Live(src)
    ensures res.Ok? ==> Live(res.value.src) && 1 <= res.value.value.0
  {
    var level :- ReadToken(d, src, c);
    var sign :- ReadField(d, level.src, 1);
    Ok(Read((level.value + 1, sign.value == 1), sign.src))
  }

  /** A run token, and the position it leads to. */
  function ReadRun(d: Streams, src: Source, size: nat, position: nat, nnz: nat): (res: Result<Read<nat>>)
    requires Live(src) && nnz < 4
    ensures res.Ok? ==> Live(res.value.src) && position <= res.value.value < size * size
  {
    var run :- ReadToken(d, src, RunContext(size, position, nnz));
    if position + run.value >= size * size then Err(RunOutsideBlock)
    else Ok(Read(position + run.value, run.src))
  }

  /** A run, a level and a sign: the coefficient that follows a clear end-of-block flag. */
  function ReadAc(d: Streams, src: Source, size: nat, position: nat, nnz: nat, previous: nat): (res: Result<Read<Ac>>)
    requires Live(src) && nnz < 4
    ensures res.Ok? ==> Live(res.value.src) && position <= res.value.value.pos < size * size
  {
    var at :- ReadRun(d, src, size, position, nnz);
    var level :- ReadLevel(d, at.src, LevelContext(size, at.value, previous));
    Ok(Read(Ac(at.value, level.value.0, level.value.1), level.src))
  }

  function ReadAcs(d: Streams, src: Source, size: nat, position: nat, nnz: nat, previous: nat): (res: Result<Read<seq<Ac>>>)
    requires Live(src) && nnz < 4
    ensures res.Ok? ==> Live(res.value.src)
    decreases size * size - position
  {
    if position >= size * size then Ok(Read([], src))
    else
      var eob :- ReadSymbol(d, src, EobContext(size, position, nnz));
      if eob.value == 1 then Ok(Read([], eob.src))
      else
        var ac :- ReadAc(d, eob.src, size, position, nnz, previous);
        var rest :- ReadAcs(d, ac.src, size, ac.value.pos + 1, nnz, ac.value.magnitude);
        Ok(Read([ac.value] + rest.value, rest.src))
  }

  function ReadLeaf(d: Streams, src: Source, size: nat, nnz: nat): (res: Result<Read<Leaf>>)
    requires Live(src) && nnz < 4
    ensures res.Ok? ==> Live(res.value.src)
  {
    var mode :- ReadSymbol(d, src, CTX_MODE);
    var tx :- ReadSymbol(d, mode.src, CTX_TX);
    var dc :- ReadToken(d, tx.src, CTX_DC_BASE);
    var acs :- ReadAcs(d, dc.src, size, 1, nnz, 0);
    Ok(Read(Leaf(mode.value, tx.value, Unzigzag(dc.value), acs.value), acs.src))
  }

  /** A piece read, with the nonzero bucket it leaves behind. */
  datatype Piece<+T> = Piece(tree: T, src: Source, nnz: nat)

  function ReadBlock(d: Streams, src: Source, size: nat, nnz: nat): (res: Result<Piece<Node>>)
    requires Live(src) && nnz < 4
    ensures res.Ok? ==> Live(res.value.src) && res.value.nnz < 4
  {
    var leaf :- ReadLeaf(d, src, size, nnz);
    Ok(Piece(Whole(leaf.value), leaf.src, LeafNnz(size, leaf.value)))
  }

  function ReadNode(d: Streams, src: Source, a: Area, size: nat, x: nat, y: nat, nnz: nat): (res: Result<Piece<Node>>)
    requires Live(src) && nnz < 4 && BlockSize(size)
    ensures res.Ok? ==> Live(res.value.src) && res.value.nnz < 4
    decreases size, 0
  {
    if size == 4 then ReadBlock(d, src, size, nnz)
    else
      var split :- ReadSymbol(d, src, SplitContext(size));
      if split.value == 0 then ReadBlock(d, split.src, size, nnz)
      else
        var kids :- ReadKids(d, split.src, a, size / 2, x, y, 0, nnz);
        Ok(Piece(Quad(kids.tree), kids.src, kids.nnz))
  }

  function ReadKids(d: Streams, src: Source, a: Area, half: nat, x: nat, y: nat, i: nat, nnz: nat): (res: Result<Piece<seq<Node>>>)
    requires Live(src) && nnz < 4 && i <= 4 && BlockSize(half)
    ensures res.Ok? ==> Live(res.value.src) && res.value.nnz < 4
    decreases half, 5 - i
  {
    if i == 4 then Ok(Piece([], src, nnz))
    else if !InPlane(a, half, a.KidX(x, i), a.KidY(y, i)) then ReadKids(d, src, a, half, x, y, i + 1, nnz)
    else
      var first :- ReadNode(d, src, a, half, a.KidX(x, i), a.KidY(y, i), nnz);
      var rest :- ReadKids(d, first.src, a, half, x, y, i + 1, first.nnz);
      Ok(Piece([first.tree] + rest.tree, rest.src, rest.nnz))
  }

  function ReadRoots(d: Streams, src: Source, a: Area, k: nat, nnz: nat): (res: Result<Piece<seq<Node>>>)
    requires Live(src) && nnz < 4 && k <= RootCount(a)
    ensures res.Ok? ==> Live(res.value.src) && res.value.nnz < 4
    decreases RootCount(a) - k
  {
    if k == RootCount(a) then Ok(Piece([], src, nnz))
    else
      var first :- ReadNode(d, src, a, 32, k % Roots(a.width), k / Roots(a.width), nnz);
      var rest :- ReadRoots(d, first.src, a, k + 1, first.nnz);
      Ok(Piece([first.tree] + rest.tree, rest.src, rest.nnz))
  }

  function ReadPlane(d: Streams, src: Source, a: Area): (res: Result<Read<Plane>>)
    requires Live(src)
    ensures res.Ok? ==> Live(res.value.src)
  {
    var cdef :- ReadSymbol(d, src, CTX_CDEF);
    var roots :- ReadRoots(d, cdef.src, a, 0, 0);
    Ok(Read(Plane(cdef.value, roots.tree), roots.src))
  }

  // ---- Reading is exactly the inverse of writing ----

  /** Reads what `ops` write, and checks that the streams say so; None at the first difference. */
  function Replay(d: Streams, src: Source, ops: seq<Op>): (end: Option<Source>)
    requires Live(src)
    ensures end.Some? ==> Live(end.value)
    decreases |ops|
  {
    if ops == [] then Some(src)
    else match ops[0]
      case Sym(c, s) =>
        var res := ReadSymbol(d, src, c);
        if res.Ok? && res.value.value == s then Replay(d, res.value.src, ops[1..]) else None
      case Field(v, n) =>
        var res := ReadField(d, src, n);
        if res.Ok? && res.value.value == v then Replay(d, res.value.src, ops[1..]) else None
  }

  function Then(d: Streams, end: Option<Source>, ops: seq<Op>): (last: Option<Source>)
    requires end.Some? ==> Live(end.value)
    ensures last.Some? ==> Live(last.value)
  {
    if end.Some? then Replay(d, end.value, ops) else None
  }

  lemma {:induction false} ReplayConcat(d: Streams, src: Source, a: seq<Op>, b: seq<Op>)
    requires Live(src)
    ensures Replay(d, src, a + b) == Then(d, Replay(d, src, a), b)
    decreases |a|
  {
    hide ReadSymbol, ReadField, Live;
    if a == [] {
      assert a + b == b;
    } else {
      assert (a + b)[1..] == a[1..] + b && (a + b)[0] == a[0];
      match a[0]
      case Sym(c, s) =>
        var res := ReadSymbol(d, src, c);
        if res.Ok? {
          ReplayConcat(d, res.value.src, a[1..], b);
        }
      case Field(v, n) =>
        var res := ReadField(d, src, n);
        if res.Ok? {
          ReplayConcat(d, res.value.src, a[1..], b);
        }
    }
  }

  lemma {:induction false} ReplaySymbol(d: Streams, src: Source, c: Context, s: nat, rest: seq<Op>)
    requires Live(src)
    ensures var res := ReadSymbol(d, src, c);
            Replay(d, src, [Sym(c, s)] + rest)
              == if res.Ok? && res.value.value == s then Replay(d, res.value.src, rest) else None
  {
    assert ([Sym(c, s)] + rest)[1..] == rest;
  }

  lemma {:induction false} ReplayOneSymbol(d: Streams, src: Source, c: Context, s: nat)
    requires Live(src)
    ensures var res := ReadSymbol(d, src, c);
            Replay(d, src, [Sym(c, s)]) == if res.Ok? && res.value.value == s then Some(res.value.src) else None
  {
    assert [Sym(c, s)] + [] == [Sym(c, s)];
    ReplaySymbol(d, src, c, s, []);
  }

  lemma {:induction false} ReplayOneField(d: Streams, src: Source, v: nat, n: nat)
    requires Live(src)
    ensures var res := ReadField(d, src, n);
            Replay(d, src, [Field(v, n)]) == if res.Ok? && res.value.value == v then Some(res.value.src) else None
  {
    assert [Field(v, n)][1..] == [];
  }

  lemma {:induction false} TokenUnfolds(d: Streams, src: Source, c: Context, value: nat)
    requires Live(src)
    ensures var res := ReadSymbol(d, src, c);
            Replay(d, src, TokenOps(c, value))
              == if res.Err? || res.value.value != TokenizeShape(value).0 then None
                 else if value < 16 then Some(res.value.src)
                 else
                   var bits := ReadField(d, res.value.src, TokenizeShape(value).1);
                   if bits.Ok? && bits.value.value == TokenBits(value) then Some(bits.value.src) else None
  {
    hide ReadSymbol, ReadField, Replay, Live, TokenizeShape, TokenBits;
    var (symbol, width) := TokenizeShape(value);
    ReplayOneSymbol(d, src, c, symbol);
    var res := ReadSymbol(d, src, c);
    if 16 <= value {
      ReplaySymbol(d, src, c, symbol, [Field(TokenBits(value), width)]);
      assert TokenOps(c, value) == [Sym(c, symbol)] + [Field(TokenBits(value), width)];
      if res.Ok? {
        ReplayOneField(d, res.value.src, TokenBits(value), width);
      }
    }
  }

  lemma {:induction false} TokenReplay(d: Streams, src: Source, c: Context, value: nat, end: Source)
    requires Live(src)
    ensures ReadToken(d, src, c) == Ok(Read(value, end))
       <==> value < VALUE_LIMIT && Replay(d, src, TokenOps(c, value)) == Some(end)
  {
    hide Replay, Live, ReadAt, BitLength, TokenBits, TokenOps, Detokenize, Draw, BillFor, WellFormedBank, Ready, Covers;
    TokenUnfolds(d, src, c, value);
    var res := ReadSymbol(d, src, c);
    if res.Ok? {
      var at := res.value.src;
      TokenIsCanonical(res.value.value, d.raw, at.p, value, end.p);
      assert at == at.(p := at.p);
      TokenReads(d, src, c, value, end);
      if 16 <= value {
        FieldAt(d, at, TokenBits(value), TokenizeShape(value).1, end);
      }
    }
  }

  lemma {:induction false} TokenReads(d: Streams, src: Source, c: Context, value: nat, end: Source)
    requires Live(src) && ReadSymbol(d, src, c).Ok?
    ensures var (symbol, at) := (ReadSymbol(d, src, c).value.value, ReadSymbol(d, src, c).value.src);
            ReadToken(d, src, c) == Ok(Read(value, end))
            <==> Detokenize(symbol, d.raw, at.p) == Ok((value, end.p)) && end == at.(p := end.p)
  {
    hide Live, Detokenize, ReadSymbol;
    var (symbol, at) := (ReadSymbol(d, src, c).value.value, ReadSymbol(d, src, c).value.src);
    var token := Detokenize(symbol, d.raw, at.p);
    if token.Ok? {
      assert token == Ok((token.value.0, token.value.1));
    }
  }

  lemma {:induction false} FieldAt(d: Streams, src: Source, v: nat, n: nat, end: Source)
    requires Live(src)
    ensures var res := ReadField(d, src, n);
            (res.Ok? && res.value.value == v && res.value.src == end)
            <==> ReadAt(d.raw, src.p, n) == Ok(v) && end == src.(p := src.p + n)
  {
    hide ReadAt, Live;
  }

  /** A token costs exactly the raw bits of its shape. */
  lemma {:induction false} TokenWidth(d: Streams, src: Source, c: Context)
    requires Live(src) && ReadToken(d, src, c).Ok?
    ensures var read := ReadToken(d, src, c).value;
            read.value < VALUE_LIMIT && read.src.p == src.p + TokenizeShape(read.value).1
  {
    hide TokenizeShape, WellFormedBank, Draw, BillFor, ReadAt;
    var symbol := ReadSymbol(d, src, c).value;
    var read := ReadToken(d, src, c).value;
    TokenIsCanonical(symbol.value, d.raw, src.p, read.value, read.src.p);
  }

  lemma {:induction false} OneBit(d: Streams, src: Source)
    requires Live(src)
    ensures ReadField(d, src, 1).Ok? ==> ReadField(d, src, 1).value.value < 2
  {
    if ReadField(d, src, 1).Ok? {
      ValBound(BitsOf(d.raw)[src.p..src.p + 1]);
      assert Pow2(1) == 2;
    }
  }

  lemma {:induction false} LevelReplay(d: Streams, src: Source, c: Context, magnitude: nat, sign: bool, end: Source)
    requires Live(src) && 1 <= magnitude
    ensures Replay(d, src, TokenOps(c, magnitude - 1) + [Field(if sign then 1 else 0, 1)]) == Some(end)
              && magnitude <= VALUE_LIMIT
       <==> ReadLevel(d, src, c) == Ok(Read((magnitude, sign), end))
  {
    hide ReadToken, ReadField, TokenOps, Live;
    var b := if sign then 1 else 0;
    ReplayConcat(d, src, TokenOps(c, magnitude - 1), [Field(b, 1)]);
    var level := ReadToken(d, src, c);
    if level.Ok? && level.value.value == magnitude - 1 {
      TokenReplay(d, src, c, magnitude - 1, level.value.src);
      ReplayOneField(d, level.value.src, b, 1);
      OneBit(d, level.value.src);
    } else if Replay(d, src, TokenOps(c, magnitude - 1)).Some? {
      TokenReplay(d, src, c, magnitude - 1, Replay(d, src, TokenOps(c, magnitude - 1)).value);
    }
  }

  lemma {:induction false} RunReplay(d: Streams, src: Source, size: nat, position: nat, nnz: nat, at: nat, end: Source)
    requires Live(src) && nnz < 4 && BlockSize(size) && position <= at
    ensures ReadRun(d, src, size, position, nnz) == Ok(Read(at, end))
       <==> at < size * size && Replay(d, src, TokenOps(RunContext(size, position, nnz), at - position)) == Some(end)
  {
    hide ReadToken, TokenOps, Live, RunContext, Replay;
    RunFits(size, at - position);
    TokenReplay(d, src, RunContext(size, position, nnz), at - position, end);
  }

  lemma {:induction false} AcReplay(d: Streams, src: Source, size: nat, position: nat, nnz: nat, previous: nat, ac: Ac, end: Source)
    requires Live(src) && nnz < 4 && BlockSize(size)
    ensures ReadAc(d, src, size, position, nnz, previous) == Ok(Read(ac, end))
       <==> ValidAc(size, position, ac) && Replay(d, src, AcOps(size, position, nnz, previous, ac)) == Some(end)
  {
    hide ReadRun, ReadLevel, TokenOps, Live, RunContext, LevelContext, Replay;
    var at := ReadRun(d, src, size, position, nnz);
    if position <= ac.pos && 1 <= ac.magnitude {
      var run := TokenOps(RunContext(size, position, nnz), ac.pos - position);
      var level := LevelContext(size, ac.pos, previous);
      var tail := TokenOps(level, ac.magnitude - 1) + [Field(if ac.sign then 1 else 0, 1)];
      ReplayConcat(d, src, run, tail);
      if at.Ok? && at.value.value == ac.pos {
        RunReplay(d, src, size, position, nnz, ac.pos, at.value.src);
        LevelReplay(d, at.value.src, level, ac.magnitude, ac.sign, end);
      } else if Replay(d, src, run).Some? {
        RunReplay(d, src, size, position, nnz, ac.pos, Replay(d, src, run).value);
      }
    }
  }

  lemma {:induction false} RunFits(size: nat, run: nat)
    requires BlockSize(size)
    ensures run < size * size ==> run < 1024
  {
  }

  /** End-of-block flags, runs and levels decode to a coefficient list exactly when they are its canonical tokens. */
  lemma {:induction false} AcsReplay(d: Streams, src: Source, size: nat, position: nat, nnz: nat, previous: nat, acs: seq<Ac>, end: Source)
    requires Live(src) && nnz < 4 && BlockSize(size)
    ensures ReadAcs(d, src, size, position, nnz, previous) == Ok(Read(acs, end))
       <==> ValidAcs(size, position, acs) && Replay(d, src, AcsOps(size, position, nnz, previous, acs)) == Some(end)
    decreases size * size - position
  {
    hide ReadSymbol, ReadAc, AcOps, Live, EobContext;
    if position < size * size {
      var c := EobContext(size, position, nnz);
      ReplayOneSymbol(d, src, c, 1);
      if acs != [] && ValidAc(size, position, acs[0]) {
        AcsReplayMore(d, src, size, position, nnz, previous, acs, end);
      } else {
        var eob := ReadSymbol(d, src, c);
        if eob.Ok? && eob.value.value != 1 {
          var ac := ReadAc(d, eob.value.src, size, position, nnz, previous);
          if ac.Ok? {
            AcReplay(d, eob.value.src, size, position, nnz, previous, ac.value.value, ac.value.src);
          }
        }
      }
    }
  }

  /** The stream says: this coefficient now, and these after it. */
  ghost predicate TailReads(d: Streams, src: Source, size: nat, position: nat, nnz: nat, previous: nat, acs: seq<Ac>, end: Source)
    requires Live(src) && nnz < 4 && acs != []
  {
    && ReadAc(d, src, size, position, nnz, previous).Ok?
    && var first := ReadAc(d, src, size, position, nnz, previous).value;
       && first.value == acs[0]
       && ReadAcs(d, first.src, size, first.value.pos + 1, nnz, first.value.magnitude) == Ok(Read(acs[1..], end))
  }

  function TailOps(size: nat, position: nat, nnz: nat, previous: nat, acs: seq<Ac>): (ops: seq<Op>)
    requires nnz < 4 && acs != [] && ValidAcs(size, position, acs)
  {
    AcOps(size, position, nnz, previous, acs[0]) + AcsOps(size, acs[0].pos + 1, nnz, acs[0].magnitude, acs[1..])
  }

  lemma {:induction false} ReadAcsMore(d: Streams, src: Source, size: nat, position: nat, nnz: nat, previous: nat, acs: seq<Ac>, end: Source)
    requires Live(src) && nnz < 4 && acs != [] && position < size * size
    ensures ReadAcs(d, src, size, position, nnz, previous) == Ok(Read(acs, end))
       <==> var eob := ReadSymbol(d, src, EobContext(size, position, nnz));
            eob.Ok? && eob.value.value == 0 && TailReads(d, eob.value.src, size, position, nnz, previous, acs, end)
  {
    hide ReadSymbol, ReadAc, Live, EobContext;
    var eob := ReadSymbol(d, src, EobContext(size, position, nnz));
    if eob.Ok? && eob.value.value != 1 {
      var first := ReadAc(d, eob.value.src, size, position, nnz, previous);
      if first.Ok? {
        var rest := ReadAcs(d, first.value.src, size, first.value.value.pos + 1, nnz, first.value.value.magnitude);
        if rest.Ok? {
          var all := [first.value.value] + rest.value.value;
          assert all[0] == first.value.value && all[1..] == rest.value.value;
          assert acs == [acs[0]] + acs[1..];
        }
      }
    }
  }

  lemma {:induction false} AcsReplayMore(d: Streams, src: Source, size: nat, position: nat, nnz: nat, previous: nat, acs: seq<Ac>, end: Source)
    requires Live(src) && nnz < 4 && BlockSize(size) && acs != [] && ValidAc(size, position, acs[0])
    ensures ReadAcs(d, src, size, position, nnz, previous) == Ok(Read(acs, end))
       <==> ValidAcs(size, position, acs) && Replay(d, src, AcsOps(size, position, nnz, previous, acs)) == Some(end)
    decreases size * size - position, 1
  {
    var c := EobContext(size, position, nnz);
    var eob := ReadSymbol(d, src, c);
    assert ValidAcs(size, position, acs) ==>
      AcsOps(size, position, nnz, previous, acs) == [Sym(c, 0)] + TailOps(size, position, nnz, previous, acs);
    hide ReadSymbol, ReadAc, TailOps, Live, EobContext, TailReads, AcsOps, ReadAcs;
    ReadAcsMore(d, src, size, position, nnz, previous, acs, end);
    if eob.Ok? && eob.value.value == 0 {
      AcsTail(d, eob.value.src, size, position, nnz, previous, acs, end);
    }
    if ValidAcs(size, position, acs) {
      ReplaySymbol(d, src, c, 0, TailOps(size, position, nnz, previous, acs));
    }
  }

  lemma {:induction false} AcsTail(d: Streams, src: Source, size: nat, position: nat, nnz: nat, previous: nat, acs: seq<Ac>, end: Source)
    requires Live(src) && nnz < 4 && BlockSize(size) && acs != [] && ValidAc(size, position, acs[0])
    ensures TailReads(d, src, size, position, nnz, previous, acs, end)
       <==> ValidAcs(size, position, acs) && Replay(d, src, TailOps(size, position, nnz, previous, acs)) == Some(end)
    decreases size * size - position, 0
  {
    hide ReadSymbol, ReadAc, AcOps, Live, AcsOps, ReadAcs;
    var (ac, rest) := (acs[0], acs[1..]);
    var first := ReadAc(d, src, size, position, nnz, previous);
    if first.Ok? && first.value.value == ac {
      AcReplay(d, src, size, position, nnz, previous, ac, first.value.src);
      AcsReplay(d, first.value.src, size, ac.pos + 1, nnz, ac.magnitude, rest, end);
    }
    if ValidAcs(size, position, acs) {
      var head := AcOps(size, position, nnz, previous, ac);
      ReplayConcat(d, src, head, AcsOps(size, ac.pos + 1, nnz, ac.magnitude, rest));
      if Replay(d, src, head).Some? {
        AcReplay(d, src, size, position, nnz, previous, ac, Replay(d, src, head).value);
      }
    }
  }

  lemma {:induction false} LeafReplay(d: Streams, src: Source, size: nat, nnz: nat, leaf: Leaf, end: Source)
    requires Live(src) && nnz < 4 && BlockSize(size)
    ensures ReadLeaf(d, src, size, nnz) == Ok(Read(leaf, end))
       <==> ValidLeaf(size, leaf) && Replay(d, src, LeafOps(size, nnz, leaf)) == Some(end)
  {
    hide ReadSymbol, ReadToken, ReadAcs, Live, TokenOps, AcsOps, ValidAcs, Replay;
    var mode := ReadSymbol(d, src, CTX_MODE);
    if mode.Ok? {
      var tx := ReadSymbol(d, mode.value.src, CTX_TX);
      if tx.Ok? {
        LeafTail(d, tx.value.src, size, nnz, leaf, end);
      }
    }
    if ValidLeaf(size, leaf) {
      var tail := TokenOps(CTX_DC_BASE, Zigzag(leaf.dc)) + AcsOps(size, 1, nnz, 0, leaf.acs);
      ReplaySymbol(d, src, CTX_MODE, leaf.mode, [Sym(CTX_TX, leaf.tx)] + tail);
      if mode.Ok? {
        ReplaySymbol(d, mode.value.src, CTX_TX, leaf.tx, tail);
      }
    }
  }

  lemma {:induction false} LeafTail(d: Streams, src: Source, size: nat, nnz: nat, leaf: Leaf, end: Source)
    requires Live(src) && nnz < 4 && BlockSize(size)
    ensures (&& ReadToken(d, src, CTX_DC_BASE).Ok?
             && var dc := ReadToken(d, src, CTX_DC_BASE).value;
                leaf.dc == Unzigzag(dc.value) && ReadAcs(d, dc.src, size, 1, nnz, 0) == Ok(Read(leaf.acs, end)))
       <==> (&& Zigzag(leaf.dc) < VALUE_LIMIT && ValidAcs(size, 1, leaf.acs)
             && Replay(d, src, TokenOps(CTX_DC_BASE, Zigzag(leaf.dc)) + AcsOps(size, 1, nnz, 0, leaf.acs)) == Some(end))
  {
    hide ReadToken, ReadAcs, Live, TokenOps, AcsOps, Replay;
    var dc := ReadToken(d, src, CTX_DC_BASE);
    if dc.Ok? {
      ZigzagInverts(leaf.dc, dc.value.value);
      if dc.value.value == Zigzag(leaf.dc) {
        TokenReplay(d, src, CTX_DC_BASE, Zigzag(leaf.dc), dc.value.src);
        AcsReplay(d, dc.value.src, size, 1, nnz, 0, leaf.acs, end);
      }
    }
    if Zigzag(leaf.dc) < VALUE_LIMIT && ValidAcs(size, 1, leaf.acs) {
      var head := TokenOps(CTX_DC_BASE, Zigzag(leaf.dc));
      ReplayConcat(d, src, head, AcsOps(size, 1, nnz, 0, leaf.acs));
      if Replay(d, src, head).Some? {
        TokenReplay(d, src, CTX_DC_BASE, Zigzag(leaf.dc), Replay(d, src, head).value);
      }
    }
  }

  // Pieces with a left-over nonzero bucket: reading yields the tree and the bucket its writing leaves.

  ghost predicate BlockReads(d: Streams, src: Source, size: nat, nnz: nat, node: Node, end: Source)
    requires Live(src) && nnz < 4
  {
    node.Whole? && ReadBlock(d, src, size, nnz) == Ok(Piece(node, end, LeafNnz(size, node.leaf)))
  }

  lemma {:induction false} BlockReplay(d: Streams, src: Source, size: nat, nnz: nat, node: Node, end: Source)
    requires Live(src) && nnz < 4 && BlockSize(size)
    ensures BlockReads(d, src, size, nnz, node, end)
       <==> node.Whole? && ValidLeaf(size, node.leaf) && Replay(d, src, LeafOps(size, nnz, node.leaf)) == Some(end)
  {
    hide ReadLeaf, Live, LeafOps, ValidLeaf, Replay;
    if node.Whole? {
      LeafReplay(d, src, size, nnz, node.leaf, end);
    }
  }

  lemma {:induction false} NodeReplay(d: Streams, src: Source, a: Area, size: nat, x: nat, y: nat, nnz: nat, node: Node, end: Source, after: nat)
    requires Live(src) && nnz < 4 && BlockSize(size)
    ensures ReadNode(d, src, a, size, x, y, nnz) == Ok(Piece(node, end, after))
       <==> ValidNode(a, size, x, y, node)
            && var w := NodeOps(a, size, x, y, nnz, node);
               Replay(d, src, w.ops) == Some(end) && after == w.nnz
    decreases size, 0
  {
    hide ReadSymbol, ReadBlock, ReadKids, ValidKids, KidsOps, Live, LeafOps, ValidLeaf, Replay, SplitContext;
    if size == 4 {
      BlockReplay(d, src, size, nnz, node, end);
      WholeOnly(d, src, size, nnz, node);
    } else {
      SplitNodeReplay(d, src, a, size, x, y, nnz, node, end, after);
    }
  }

  lemma {:induction false} WholeOnly(d: Streams, src: Source, size: nat, nnz: nat, node: Node)
    requires Live(src) && nnz < 4
    ensures ReadBlock(d, src, size, nnz).Ok? && ReadBlock(d, src, size, nnz).value.tree == node ==>
              node.Whole? && ReadBlock(d, src, size, nnz).value.nnz == LeafNnz(size, node.leaf)
  {
  }

  lemma {:induction false} SplitNodeReplay(d: Streams, src: Source, a: Area, size: nat, x: nat, y: nat, nnz: nat, node: Node, end: Source, after: nat)
    requires Live(src) && nnz < 4 && BlockSize(size) && size > 4
    ensures ReadNode(d, src, a, size, x, y, nnz) == Ok(Piece(node, end, after))
       <==> ValidNode(a, size, x, y, node)
            && var w := NodeOps(a, size, x, y, nnz, node);
               Replay(d, src, w.ops) == Some(end) && after == w.nnz
    decreases size - 1, 20
  {
    hide ReadSymbol, ReadBlock, ReadKids, ValidKids, KidsOps, Live, LeafOps, ValidLeaf, Replay, SplitContext;
    var c := SplitContext(size);
    var split := ReadSymbol(d, src, c);
    match node
    case Whole(leaf) =>
      if split.Ok? {
        BlockReplay(d, split.value.src, size, nnz, node, end);
        WholeOnly(d, split.value.src, size, nnz, node);
      }
      if ValidLeaf(size, leaf) {
        ReplaySymbol(d, src, c, 0, LeafOps(size, nnz, leaf));
      }
    case Quad(kids) =>
      if split.Ok? {
        WholeOnly(d, split.value.src, size, nnz, node);
        KidsReplay(d, split.value.src, a, size / 2, x, y, 0, nnz, kids, end, after);
      }
      if ValidKids(a, size / 2, x, y, 0, kids) {
        ReplaySymbol(d, src, c, 1, KidsOps(a, size / 2, x, y, 0, nnz, kids).ops);
      }
  }

  lemma {:induction false} KidsReplay(d: Streams, src: Source, a: Area, half: nat, x: nat, y: nat, i: nat, nnz: nat,
                                      kids: seq<Node>, end: Source, after: nat)
    requires Live(src) && nnz < 4 && i <= 4 && BlockSize(half)
    ensures ReadKids(d, src, a, half, x, y, i, nnz) == Ok(Piece(kids, end, after))
       <==> ValidKids(a, half, x, y, i, kids)
            && var w := KidsOps(a, half, x, y, i, nnz, kids);
               Replay(d, src, w.ops) == Some(end) && after == w.nnz
    decreases half, 5 - i
  {
    hide ReadNode, ValidNode, NodeOps, Live, InPlane;
    if i < 4 {
      var (kx, ky) := (a.KidX(x, i), a.KidY(y, i));
      if !InPlane(a, half, kx, ky) {
        KidsReplay(d, src, a, half, x, y, i + 1, nnz, kids, end, after);
      } else {
        var first := ReadNode(d, src, a, half, kx, ky, nnz);
        if first.Ok? {
          NodeReplay(d, src, a, half, kx, ky, nnz, first.value.tree, first.value.src, first.value.nnz);
          if kids != [] {
            KidsReplay(d, first.value.src, a, half, x, y, i + 1, first.value.nnz, kids[1..], end, after);
          }
        }
        KidsUnfold(d, src, a, half, x, y, i, nnz, kids, end, after);
        if kids != [] && ValidNode(a, half, kx, ky, kids[0]) && ValidKids(a, half, x, y, i + 1, kids[1..]) {
          var w := NodeOps(a, half, kx, ky, nnz, kids[0]);
          ReplayConcat(d, src, w.ops, KidsOps(a, half, x, y, i + 1, w.nnz, kids[1..]).ops);
          if Replay(d, src, w.ops).Some? {
            NodeReplay(d, src, a, half, kx, ky, nnz, kids[0], Replay(d, src, w.ops).value, w.nnz);
          }
        }
      }
    }
  }

  lemma {:induction false} KidsUnfold(d: Streams, src: Source, a: Area, half: nat, x: nat, y: nat, i: nat, nnz: nat,
                   kids: seq<Node>, end: Source, after: nat)
    requires Live(src) && nnz < 4 && i < 4 && BlockSize(half) && InPlane(a, half, a.KidX(x, i), a.KidY(y, i))
    ensures ReadKids(d, src, a, half, x, y, i, nnz) == Ok(Piece(kids, end, after))
       <==> var first := ReadNode(d, src, a, half, a.KidX(x, i), a.KidY(y, i), nnz);
            && first.Ok? && kids != [] && first.value.tree == kids[0]
            && ReadKids(d, first.value.src, a, half, x, y, i + 1, first.value.nnz) == Ok(Piece(kids[1..], end, after))
  {
    hide ReadNode, Live;
    var first := ReadNode(d, src, a, half, a.KidX(x, i), a.KidY(y, i), nnz);
    if first.Ok? {
      var rest := ReadKids(d, first.value.src, a, half, x, y, i + 1, first.value.nnz);
      if rest.Ok? {
        var all := [first.value.tree] + rest.value.tree;
        assert all[0] == first.value.tree && all[1..] == rest.value.tree;
        assert kids != [] ==> kids == [kids[0]] + kids[1..];
      }
    }
  }

  lemma {:induction false} RootsReplay(d: Streams, src: Source, a: Area, k: nat, nnz: nat, roots: seq<Node>, end: Source, after: nat)
    requires Live(src) && nnz < 4 && k <= RootCount(a)
    ensures ReadRoots(d, src, a, k, nnz) == Ok(Piece(roots, end, after))
       <==> ValidRoots(a, k, roots)
            && var w := RootsOps(a, k, nnz, roots);
               Replay(d, src, w.ops) == Some(end) && after == w.nnz
    decreases RootCount(a) - k
  {
    hide ReadNode, ValidNode, NodeOps, Live, RootCount, Roots;
    if k != RootCount(a) {
      RowWidth(a, k);
      var (kx, ky) := (k % Roots(a.width), k / Roots(a.width));
      var first := ReadNode(d, src, a, 32, kx, ky, nnz);
      if first.Ok? {
        NodeReplay(d, src, a, 32, kx, ky, nnz, first.value.tree, first.value.src, first.value.nnz);
        if roots != [] {
          RootsReplay(d, first.value.src, a, k + 1, first.value.nnz, roots[1..], end, after);
        }
      }
      RootsUnfold(d, src, a, k, nnz, roots, end, after);
      if roots != [] && ValidNode(a, 32, kx, ky, roots[0]) && ValidRoots(a, k + 1, roots[1..]) {
        var w := NodeOps(a, 32, kx, ky, nnz, roots[0]);
        ReplayConcat(d, src, w.ops, RootsOps(a, k + 1, w.nnz, roots[1..]).ops);
        if Replay(d, src, w.ops).Some? {
          NodeReplay(d, src, a, 32, kx, ky, nnz, roots[0], Replay(d, src, w.ops).value, w.nnz);
        }
      }
    }
  }

  lemma {:induction false} RowWidth(a: Area, k: nat)
    requires k < RootCount(a)
    ensures Roots(a.width) > 0
  {
    assert Roots(a.width) == 0 ==> RootCount(a) == 0 * Roots(a.height);
  }

  lemma {:induction false} RootsUnfold(d: Streams, src: Source, a: Area, k: nat, nnz: nat, roots: seq<Node>, end: Source, after: nat)
    requires Live(src) && nnz < 4 && k < RootCount(a) && Roots(a.width) > 0
    ensures ReadRoots(d, src, a, k, nnz) == Ok(Piece(roots, end, after))
       <==> var first := ReadNode(d, src, a, 32, k % Roots(a.width), k / Roots(a.width), nnz);
            && first.Ok? && roots != [] && first.value.tree == roots[0]
            && ReadRoots(d, first.value.src, a, k + 1, first.value.nnz) == Ok(Piece(roots[1..], end, after))
  {
    hide ReadNode, Live, RootCount, Roots;
    var first := ReadNode(d, src, a, 32, k % Roots(a.width), k / Roots(a.width), nnz);
    if first.Ok? {
      var rest := ReadRoots(d, first.value.src, a, k + 1, first.value.nnz);
      if rest.Ok? {
        var all := [first.value.tree] + rest.value.tree;
        assert all[0] == first.value.tree && all[1..] == rest.value.tree;
        assert roots != [] ==> roots == [roots[0]] + roots[1..];
      }
    }
  }

  /**
   * Reading a plane inverts writing it, both ways: the parser returns a plane if and only if that plane is valid for
   * the area and the streams say exactly the operations that write it.
   */
  lemma {:induction false} PlaneReplay(d: Streams, src: Source, a: Area, plane: Plane, end: Source)
    requires Live(src)
    ensures ReadPlane(d, src, a) == Ok(Read(plane, end))
       <==> ValidPlane(a, plane) && Replay(d, src, PlaneOps(a, plane)) == Some(end)
  {
    hide ReadSymbol, ReadRoots, RootsOps, ValidRoots, Live, Replay;
    var cdef := ReadSymbol(d, src, CTX_CDEF);
    if cdef.Ok? {
      var roots := ReadRoots(d, cdef.value.src, a, 0, 0);
      if roots.Ok? {
        RootsReplay(d, cdef.value.src, a, 0, 0, roots.value.tree, roots.value.src, roots.value.nnz);
      }
    }
    if ValidPlane(a, plane) {
      var w := RootsOps(a, 0, 0, plane.roots);
      ReplaySymbol(d, src, CTX_CDEF, plane.cdef, w.ops);
      if cdef.Ok? {
        RootsReplay(d, cdef.value.src, a, 0, 0, plane.roots, end, w.nnz);
      }
    }
  }
}
