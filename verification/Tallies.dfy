/** The statistics the decoder gathers, as functions of what it decodes, and the identities between them. */
module Tallies {
  import opened ModelBanks
  import opened RawBits
  import opened PlaneSyntax
  import opened PlaneCodec
  import opened Quadtree

  datatype PerSize = PerSize(n4: nat, n8: nat, n16: nat, n32: nat)

  function Bump(p: PerSize, size: nat): PerSize {
    if size == 4 then p.(n4 := p.n4 + 1) else if size == 8 then p.(n8 := p.n8 + 1)
    else if size == 16 then p.(n16 := p.n16 + 1) else p.(n32 := p.n32 + 1)
  }

  /** Blocks by size, partition decisions by size, AC counts, and raw bits by what they were read for. */
  datatype Tally = Tally(blocks: PerSize, whole: PerSize, split: PerSize,
                         acNonzero: nat, acAbsSum: nat, rawDc: nat, rawRun: nat, rawLevelSign: nat)

  const NOTHING := Tally(PerSize(0, 0, 0, 0), PerSize(0, 0, 0, 0), PerSize(0, 0, 0, 0), 0, 0, 0, 0, 0)

  function TallyAc(t: Tally, position: nat, ac: Ac): (n: Tally)
    requires position <= ac.pos && 1 <= ac.magnitude
  {
    t.(acNonzero := t.acNonzero + 1,
       acAbsSum := t.acAbsSum + ac.magnitude,
       rawRun := t.rawRun + TokenizeShape(ac.pos - position).1,
       rawLevelSign := t.rawLevelSign + TokenizeShape(ac.magnitude - 1).1 + 1)
  }

  function TallyAcs(t: Tally, size: nat, position: nat, acs: seq<Ac>): (n: Tally)
    requires ValidAcs(size, position, acs)
    decreases |acs|
  {
    if acs == [] then t else TallyAcs(TallyAc(t, position, acs[0]), size, acs[0].pos + 1, acs[1..])
  }

  /** Where a coefficient list read from `position` on leaves the scan. */
  function NextPosition(position: nat, acs: seq<Ac>): (next: nat) {
    if acs == [] then position else acs[|acs| - 1].pos + 1
  }

  lemma {:induction false} TallyAppend(t: Tally, size: nat, position: nat, acs: seq<Ac>, ac: Ac)
    requires ValidAcs(size, position, acs) && ValidAc(size, NextPosition(position, acs), ac)
    ensures ValidAcs(size, position, acs + [ac])
    ensures TallyAcs(t, size, position, acs + [ac])
         == TallyAc(TallyAcs(t, size, position, acs), NextPosition(position, acs), ac)
    decreases |acs|
  {
    hide TokenizeShape;
    var all := acs + [ac];
    if acs == [] {
      assert all[1..] == [];
    } else {
      assert all[0] == acs[0] && all[1..] == acs[1..] + [ac];
      TallyAppend(TallyAc(t, position, acs[0]), size, acs[0].pos + 1, acs[1..], ac);
    }
  }

  function TallyLeaf(t: Tally, size: nat, leaf: Leaf): (n: Tally)
    requires ValidLeaf(size, leaf)
  {
    TallyAcs(t.(blocks := Bump(t.blocks, size), rawDc := t.rawDc + TokenizeShape(Zigzag(leaf.dc)).1), size, 1, leaf.acs)
  }

  function TallyNode(t: Tally, a: Area, size: nat, x: nat, y: nat, node: Node): (n: Tally)
    requires ValidNode(a, size, x, y, node)
    decreases size, 0
  {
    match node
    case Whole(leaf) => TallyLeaf(if size == 4 then t else t.(whole := Bump(t.whole, size)), size, leaf)
    case Quad(kids) => TallyKids(t.(split := Bump(t.split, size)), a, size / 2, x, y, 0, kids)
  }

  function TallyKids(t: Tally, a: Area, half: nat, x: nat, y: nat, i: nat, kids: seq<Node>): (n: Tally)
    requires i <= 4 && ValidKids(a, half, x, y, i, kids)
    decreases half, 5 - i
  {
    if i == 4 then t
    else if !InPlane(a, half, a.KidX(x, i), a.KidY(y, i)) then TallyKids(t, a, half, x, y, i + 1, kids)
    else TallyKids(TallyNode(t, a, half, a.KidX(x, i), a.KidY(y, i), kids[0]), a, half, x, y, i + 1, kids[1..])
  }

  function TallyRoots(t: Tally, a: Area, k: nat, roots: seq<Node>): (n: Tally)
    requires k <= RootCount(a) && ValidRoots(a, k, roots)
    decreases RootCount(a) - k
  {
    if k == RootCount(a) then t
    else TallyRoots(TallyNode(t, a, 32, k % Roots(a.width), k / Roots(a.width), roots[0]), a, k + 1, roots[1..])
  }

  // ---- Identities ----

  function RawBitsOf(t: Tally): nat {
    t.rawDc + t.rawRun + t.rawLevelSign
  }

  function SizeCount(squares: seq<Square>, size: nat): (n: nat) {
    if squares == [] then 0 else (if squares[0].size == size then 1 else 0) + SizeCount(squares[1..], size)
  }

  lemma {:induction false} SizeCountConcat(a: seq<Square>, b: seq<Square>, size: nat)
    ensures SizeCount(a + b, size) == SizeCount(a, size) + SizeCount(b, size)
  {
    if a == [] {
      assert a + b == b;
    } else {
      assert (a + b)[1..] == a[1..] + b;
      SizeCountConcat(a[1..], b, size);
    }
  }

  /** `n` counts what `t` counts, plus these leaves, of which the whole decisions are those above size 4, plus these bits. */
  ghost predicate Counts(t: Tally, n: Tally, squares: seq<Square>, bits: nat) {
    && n.blocks.n4 == t.blocks.n4 + SizeCount(squares, 4)
    && n.blocks.n8 == t.blocks.n8 + SizeCount(squares, 8)
    && n.blocks.n16 == t.blocks.n16 + SizeCount(squares, 16)
    && n.blocks.n32 == t.blocks.n32 + SizeCount(squares, 32)
    && n.whole.n4 == t.whole.n4
    && n.whole.n8 == t.whole.n8 + SizeCount(squares, 8)
    && n.whole.n16 == t.whole.n16 + SizeCount(squares, 16)
    && n.whole.n32 == t.whole.n32 + SizeCount(squares, 32)
    && RawBitsOf(n) == RawBitsOf(t) + bits
  }

  lemma {:induction false} CountsCompose(t: Tally, m: Tally, n: Tally, a: seq<Square>, b: seq<Square>, p: nat, q: nat)
    requires Counts(t, m, a, p) && Counts(m, n, b, q)
    ensures Counts(t, n, a + b, p + q)
  {
    hide SizeCount;
    SizeCountConcat(a, b, 4);
    SizeCountConcat(a, b, 8);
    SizeCountConcat(a, b, 16);
    SizeCountConcat(a, b, 32);
  }

  lemma {:induction false} BitsConcat(a: seq<Op>, b: seq<Op>)
    ensures FieldBits(a + b) == FieldBits(a) + FieldBits(b)
    decreases |a|
  {
    hide ToBits;
    if a == [] {
      assert a + b == b;
    } else {
      assert (a + b)[1..] == a[1..] + b && (a + b)[0] == a[0];
      BitsConcat(a[1..], b);
    }
  }

  lemma {:induction false} TokenFieldBits(c: Context, value: nat)
    ensures |FieldBits(TokenOps(c, value))| == TokenizeShape(value).1
  {
    hide ToBits, BitLength;
    var ops := TokenOps(c, value);
    if value >= 16 {
      var field := [Field(TokenBits(value), TokenizeShape(value).1)];
      assert ops[1..] == field && field[1..] == [];
      assert |FieldBits(field)| == TokenizeShape(value).1;
    } else {
      assert ops[1..] == [];
    }
  }

  lemma {:induction false} AcFieldBits(size: nat, position: nat, nnz: nat, previous: nat, ac: Ac)
    requires nnz < 4 && position <= ac.pos && 1 <= ac.magnitude
    ensures |FieldBits(AcOps(size, position, nnz, previous, ac))|
         == TokenizeShape(ac.pos - position).1 + TokenizeShape(ac.magnitude - 1).1 + 1
  {
    hide TokenOps, RunContext, LevelContext, ToBits, TokenizeShape;
    var run := TokenOps(RunContext(size, position, nnz), ac.pos - position);
    var level := TokenOps(LevelContext(size, ac.pos, previous), ac.magnitude - 1);
    var sign := [Field(if ac.sign then 1 else 0, 1)];
    TokenFieldBits(RunContext(size, position, nnz), ac.pos - position);
    TokenFieldBits(LevelContext(size, ac.pos, previous), ac.magnitude - 1);
    BitsConcat(level, sign);
    BitsConcat(run, level + sign);
    assert sign[1..] == [];
    assert |FieldBits(sign)| == 1;
  }

  lemma {:induction false} AcsCounted(t: Tally, size: nat, position: nat, nnz: nat, previous: nat, acs: seq<Ac>)
    requires nnz < 4 && ValidAcs(size, position, acs)
    ensures Counts(t, TallyAcs(t, size, position, acs), [], |FieldBits(AcsOps(size, position, nnz, previous, acs))|)
    decreases |acs|
  {
    hide EobContext, AcOps, TokenizeShape, ToBits;
    if acs == [] {
      if position < size * size {
        assert [Sym(EobContext(size, position, nnz), 1)][1..] == [];
      }
    } else {
      var ac := acs[0];
      var head := AcOps(size, position, nnz, previous, ac);
      var tail := AcsOps(size, ac.pos + 1, nnz, ac.magnitude, acs[1..]);
      AcFieldBits(size, position, nnz, previous, ac);
      AcsCounted(TallyAc(t, position, ac), size, ac.pos + 1, nnz, ac.magnitude, acs[1..]);
      BitsConcat(head, tail);
      assert ([Sym(EobContext(size, position, nnz), 0)] + (head + tail))[1..] == head + tail;
    }
  }

  lemma {:induction false} LeafCounted(t: Tally, size: nat, x: nat, y: nat, nnz: nat, leaf: Leaf)
    requires nnz < 4 && BlockSize(size) && ValidLeaf(size, leaf)
    ensures var n := TallyLeaf(t, size, leaf);
            && n.blocks == Bump(t.blocks, size) && n.whole == t.whole
            && RawBitsOf(n) == RawBitsOf(t) + |FieldBits(LeafOps(size, nnz, leaf))|
  {
    hide TokenOps, AcsOps, TokenizeShape, ToBits;
    var dc := TokenOps(CTX_DC_BASE, Zigzag(leaf.dc));
    var acs := AcsOps(size, 1, nnz, 0, leaf.acs);
    TokenFieldBits(CTX_DC_BASE, Zigzag(leaf.dc));
    var m := t.(blocks := Bump(t.blocks, size), rawDc := t.rawDc + TokenizeShape(Zigzag(leaf.dc)).1);
    AcsCounted(m, size, 1, nnz, 0, leaf.acs);
    AcsKeepBlocks(m, size, 1, leaf.acs);
    BitsConcat(dc, acs);
    assert ([Sym(CTX_TX, leaf.tx)] + (dc + acs))[1..] == dc + acs;
    assert LeafOps(size, nnz, leaf)[1..] == [Sym(CTX_TX, leaf.tx)] + (dc + acs);
  }

  lemma {:induction false} AcsKeepBlocks(t: Tally, size: nat, position: nat, acs: seq<Ac>)
    requires ValidAcs(size, position, acs)
    ensures var n := TallyAcs(t, size, position, acs); n.blocks == t.blocks && n.whole == t.whole && n.split == t.split
    ensures TallyAcs(t, size, position, acs).acNonzero == t.acNonzero + |acs|
    decreases |acs|
  {
    hide TokenizeShape;
    if acs != [] {
      AcsKeepBlocks(TallyAc(t, position, acs[0]), size, acs[0].pos + 1, acs[1..]);
    }
  }

  lemma {:induction false} NodeCounted(t: Tally, a: Area, size: nat, x: nat, y: nat, nnz: nat, node: Node)
    requires nnz < 4 && BlockSize(size) && ValidNode(a, size, x, y, node)
    ensures Counts(t, TallyNode(t, a, size, x, y, node), NodeLeaves(a, size, x, y, node),
                   |FieldBits(NodeOps(a, size, x, y, nnz, node).ops)|)
    decreases size, 0
  {
    hide LeafOps, KidsOps, KidsLeaves, ValidKids, TallyKids, TallyLeaf, SplitContext, ToBits;
    match node
    case Whole(leaf) =>
      LeafCounted(if size == 4 then t else t.(whole := Bump(t.whole, size)), size, x, y, nnz, leaf);
      OneSquare(size, x, y);
      assert ([Sym(SplitContext(size), 0)] + LeafOps(size, nnz, leaf))[1..] == LeafOps(size, nnz, leaf);
    case Quad(kids) =>
      KidsCounted(t.(split := Bump(t.split, size)), a, size / 2, x, y, 0, nnz, kids);
      var w := KidsOps(a, size / 2, x, y, 0, nnz, kids);
      assert ([Sym(SplitContext(size), 1)] + w.ops)[1..] == w.ops;
  }

  lemma {:induction false} OneSquare(size: nat, x: nat, y: nat)
    ensures forall s :: SizeCount([Square(size, x, y)], s) == if s == size then 1 else 0
  {
    assert [Square(size, x, y)][1..] == [];
  }

  lemma {:induction false} KidsCounted(t: Tally, a: Area, half: nat, x: nat, y: nat, i: nat, nnz: nat, kids: seq<Node>)
    requires nnz < 4 && i <= 4 && BlockSize(half) && ValidKids(a, half, x, y, i, kids)
    ensures Counts(t, TallyKids(t, a, half, x, y, i, kids), KidsLeaves(a, half, x, y, i, kids),
                   |FieldBits(KidsOps(a, half, x, y, i, nnz, kids).ops)|)
    decreases half, 5 - i
  {
    hide NodeOps, NodeLeaves, ValidNode, TallyNode;
    if i < 4 {
      var (kx, ky) := (a.KidX(x, i), a.KidY(y, i));
      if !InPlane(a, half, kx, ky) {
        KidsCounted(t, a, half, x, y, i + 1, nnz, kids);
      } else {
        hide Counts;
        var first := NodeOps(a, half, kx, ky, nnz, kids[0]);
        var m := TallyNode(t, a, half, kx, ky, kids[0]);
        NodeCounted(t, a, half, kx, ky, nnz, kids[0]);
        KidsCounted(m, a, half, x, y, i + 1, first.nnz, kids[1..]);
        var rest := KidsOps(a, half, x, y, i + 1, first.nnz, kids[1..]);
        BitsConcat(first.ops, rest.ops);
        CountsCompose(t, m, TallyKids(m, a, half, x, y, i + 1, kids[1..]),
                      NodeLeaves(a, half, kx, ky, kids[0]), KidsLeaves(a, half, x, y, i + 1, kids[1..]),
                      |FieldBits(first.ops)|, |FieldBits(rest.ops)|);
      }
    }
  }

  lemma {:induction false} RootsCounted(t: Tally, a: Area, k: nat, nnz: nat, roots: seq<Node>)
    requires nnz < 4 && k <= RootCount(a) && ValidRoots(a, k, roots)
    ensures Counts(t, TallyRoots(t, a, k, roots), RootsLeaves(a, k, roots), |FieldBits(RootsOps(a, k, nnz, roots).ops)|)
    decreases RootCount(a) - k
  {
    hide NodeOps, NodeLeaves, ValidNode, TallyNode, RootCount, Roots;
    if k != RootCount(a) {
      var (x, y) := (k % Roots(a.width), k / Roots(a.width));
      hide Counts;
      var first := NodeOps(a, 32, x, y, nnz, roots[0]);
      var m := TallyNode(t, a, 32, x, y, roots[0]);
      NodeCounted(t, a, 32, x, y, nnz, roots[0]);
      RootsCounted(m, a, k + 1, first.nnz, roots[1..]);
      var rest := RootsOps(a, k + 1, first.nnz, roots[1..]);
      BitsConcat(first.ops, rest.ops);
      CountsCompose(t, m, TallyRoots(m, a, k + 1, roots[1..]),
                    NodeLeaves(a, 32, x, y, roots[0]), RootsLeaves(a, k + 1, roots[1..]),
                    |FieldBits(first.ops)|, |FieldBits(rest.ops)|);
    }
  }

  /**
   * The decoder's own counts agree with the tiling: blocks of each size are its leaves of that size, whole decisions
   * at 8, 16 and 32 equal the blocks of those sizes, and the raw bits by purpose add up to the bits of the plane.
   */
  lemma {:induction false} PlaneCounted(t: Tally, a: Area, plane: Plane)
    requires ValidPlane(a, plane)
    ensures Counts(t, TallyRoots(t, a, 0, plane.roots), PlaneLeaves(a, plane), |FieldBits(PlaneOps(a, plane))|)
    ensures t == NOTHING ==>
              var n := TallyRoots(t, a, 0, plane.roots);
              n.whole.n8 == n.blocks.n8 && n.whole.n16 == n.blocks.n16 && n.whole.n32 == n.blocks.n32
  {
    hide RootsOps, RootsLeaves, TallyRoots;
    RootsCounted(t, a, 0, 0, plane.roots);
    var ops := RootsOps(a, 0, 0, plane.roots).ops;
    assert ([Sym(CTX_CDEF, plane.cdef)] + ops)[1..] == ops;
  }
}
