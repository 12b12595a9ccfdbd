/** Where the leaves of a plane lie, and what the decoder counts while it walks them. */
module Quadtree {
  import opened RawBits
  import opened PlaneSyntax

  // ---- Leaves and the samples they cover ----

  /** The samples `(px, py)` with `px / size == x` and `py / size == y`. */
  datatype Square = Square(size: nat, x: nat, y: nat)

  predicate Holds(sq: Square, px: nat, py: nat) {
    sq.size > 0 && px / sq.size == sq.x && py / sq.size == sq.y
  }

  function CountHolding(squares: seq<Square>, px: nat, py: nat): (n: nat) {
    if squares == [] then 0
    else (if Holds(squares[0], px, py) then 1 else 0) + CountHolding(squares[1..], px, py)
  }

  lemma {:induction false} CountConcat(a: seq<Square>, b: seq<Square>, px: nat, py: nat)
    ensures CountHolding(a + b, px, py) == CountHolding(a, px, py) + CountHolding(b, px, py)
  {
    if a == [] {
      assert a + b == b;
    } else {
      assert (a + b)[1..] == a[1..] + b;
      CountConcat(a[1..], b, px, py);
    }
  }

  function NodeLeaves(a: Area, size: nat, x: nat, y: nat, node: Node): (squares: seq<Square>)
    requires ValidNode(a, size, x, y, node)
    decreases size, 0
  {
    match node
    case Whole(leaf) => [Square(size, x, y)]
    case Quad(kids) => KidsLeaves(a, size / 2, x, y, 0, kids)
  }

  function KidsLeaves(a: Area, half: nat, x: nat, y: nat, i: nat, kids: seq<Node>): (squares: seq<Square>)
    requires i <= 4 && ValidKids(a, half, x, y, i, kids)
    decreases half, 5 - i
  {
    if i == 4 then []
    else if !InPlane(a, half, a.KidX(x, i), a.KidY(y, i)) then KidsLeaves(a, half, x, y, i + 1, kids)
    else NodeLeaves(a, half, a.KidX(x, i), a.KidY(y, i), kids[0]) + KidsLeaves(a, half, x, y, i + 1, kids[1..])
  }

  function RootsLeaves(a: Area, k: nat, roots: seq<Node>): (squares: seq<Square>)
    requires k <= RootCount(a) && ValidRoots(a, k, roots)
    decreases RootCount(a) - k
  {
    if k == RootCount(a) then []
    else NodeLeaves(a, 32, k % Roots(a.width), k / Roots(a.width), roots[0]) + RootsLeaves(a, k + 1, roots[1..])
  }

  function PlaneLeaves(a: Area, plane: Plane): (squares: seq<Square>)
    requires ValidPlane(a, plane)
  {
    RootsLeaves(a, 0, plane.roots)
  }

  /** Which quarter of its square a sample lies in. */
  function Quarter(half: nat, px: nat, py: nat): (q: nat)
    requires 0 < half
    ensures q < 4
  {
    (px / half) % 2 + 2 * ((py / half) % 2)
  }

  lemma {:induction false} NodeTiles(a: Area, size: nat, x: nat, y: nat, node: Node, px: nat, py: nat)
    requires BlockSize(size) && ValidNode(a, size, x, y, node) && px < a.width && py < a.height
    ensures CountHolding(NodeLeaves(a, size, x, y, node), px, py) == if px / size == x && py / size == y then 1 else 0
    decreases size, 0
  {
    hide ValidLeaf, ValidKids, KidsLeaves;
    match node
    case Whole(leaf) =>
    case Quad(kids) => KidsTile(a, size / 2, x, y, 0, kids, px, py);
  }

  lemma {:induction false} KidsTile(a: Area, half: nat, x: nat, y: nat, i: nat, kids: seq<Node>, px: nat, py: nat)
    requires BlockSize(half) && i <= 4 && ValidKids(a, half, x, y, i, kids) && px < a.width && py < a.height
    ensures CountHolding(KidsLeaves(a, half, x, y, i, kids), px, py)
         == if px / (2 * half) == x && py / (2 * half) == y && Quarter(half, px, py) >= i then 1 else 0
    decreases half, 5 - i
  {
    hide ValidNode, NodeLeaves;
    if i < 4 {
      var (kx, ky) := (a.KidX(x, i), a.KidY(y, i));
      QuarterIsKid(a, half, x, y, i, px, py);
      if !InPlane(a, half, kx, ky) {
        KidsTile(a, half, x, y, i + 1, kids, px, py);
      } else {
        NodeTiles(a, half, kx, ky, kids[0], px, py);
        KidsTile(a, half, x, y, i + 1, kids[1..], px, py);
        CountConcat(NodeLeaves(a, half, kx, ky, kids[0]), KidsLeaves(a, half, x, y, i + 1, kids[1..]), px, py);
      }
    }
  }

  lemma {:induction false} QuarterIsKid(a: Area, half: nat, x: nat, y: nat, i: nat, px: nat, py: nat)
    requires BlockSize(half) && i < 4
    ensures px / half == a.KidX(x, i) && py / half == a.KidY(y, i)
       <==> px / (2 * half) == x && py / (2 * half) == y && Quarter(half, px, py) == i
    ensures px / half == a.KidX(x, i) ==> a.KidX(x, i) * half <= px
    ensures py / half == a.KidY(y, i) ==> a.KidY(y, i) * half <= py
  {
    StartsBelow(half, px, a.KidX(x, i));
    StartsBelow(half, py, a.KidY(y, i));
    WhichQuarter(a, half, x, y, i, px, py);
    hide Quarter, Area.KidX, Area.KidY;
  }

  lemma {:induction false} StartsBelow(half: nat, p: nat, k: nat)
    requires BlockSize(half)
    ensures p / half == k ==> k * half <= p
  {
    HalveAgain(half, p);
  }

  lemma {:induction false} WhichQuarter(a: Area, half: nat, x: nat, y: nat, i: nat, px: nat, py: nat)
    requires BlockSize(half) && i < 4
    ensures px / half == a.KidX(x, i) && py / half == a.KidY(y, i)
       <==> px / (2 * half) == x && py / (2 * half) == y && Quarter(half, px, py) == i
  {
    HalveAgain(half, px);
    HalveAgain(half, py);
    KidDigits(px / half, py / half, x, y, i);
  }

  lemma {:induction false} KidDigits(qx: nat, qy: nat, x: nat, y: nat, i: nat)
    requires i < 4
    ensures qx == 2 * x + i % 2 && qy == 2 * y + i / 2 <==> qx / 2 == x && qy / 2 == y && qx % 2 + 2 * (qy % 2) == i
  {
    HalveBack(qx, x, i % 2);
    HalveBack(qy, y, i / 2);
    QuarterDigits(qx % 2, qy % 2, i);
  }

  lemma {:induction false} QuarterDigits(bitX: nat, bitY: nat, i: nat)
    requires bitX < 2 && bitY < 2 && i < 4
    ensures bitX + 2 * bitY == i <==> bitX == i % 2 && bitY == i / 2
  {
  }

  lemma {:induction false} HalveBack(q: nat, x: nat, b: nat)
    requires b < 2
    ensures q == 2 * x + b <==> q / 2 == x && q % 2 == b
  {
  }

  lemma {:induction false} HalveAgain(half: nat, p: nat)
    requires BlockSize(half)
    ensures p / (2 * half) == (p / half) / 2 && (p / half) * half <= p
  {
    if half == 4 {
      assert p / 8 == (p / 4) / 2;
    } else if half == 8 {
      assert p / 16 == (p / 8) / 2;
    } else if half == 16 {
      assert p / 32 == (p / 16) / 2;
    } else {
      assert p / 64 == (p / 32) / 2;
    }
  }

  lemma {:induction false} RootsTile(a: Area, k: nat, roots: seq<Node>, px: nat, py: nat)
    requires k <= RootCount(a) && ValidRoots(a, k, roots) && px < a.width && py < a.height
    ensures CountHolding(RootsLeaves(a, k, roots), px, py)
         == if k <= (py / 32) * Roots(a.width) + px / 32 < RootCount(a) then 1 else 0
    decreases RootCount(a) - k
  {
    hide ValidNode, NodeLeaves, RootCount;
    if k < RootCount(a) {
      var w := Roots(a.width);
      NodeTiles(a, 32, k % w, k / w, roots[0], px, py);
      RootsTile(a, k + 1, roots[1..], px, py);
      CountConcat(NodeLeaves(a, 32, k % w, k / w, roots[0]), RootsLeaves(a, k + 1, roots[1..]), px, py);
      RasterIndex(w, k, px / 32, py / 32);
    }
  }

  lemma {:induction false} RasterIndex(w: nat, k: nat, x: nat, y: nat)
    requires x < w
    ensures x == k % w && y == k / w <==> k == y * w + x
  {
    if k == y * w + x {
      QuotientIs(k, w, y, x);
    }
    assert k == w * (k / w) + k % w;
  }

  /** The quadtree walk tiles the plane: every sample of it lies in exactly one leaf. */
  lemma {:induction false} EachSampleInOneLeaf(a: Area, plane: Plane, px: nat, py: nat)
    requires ValidPlane(a, plane) && px < a.width && py < a.height
    ensures CountHolding(PlaneLeaves(a, plane), px, py) == 1
  {
    hide CountHolding;
    RootsTile(a, 0, plane.roots, px, py);
    RasterInRange(Roots(a.width), Roots(a.height), px / 32, py / 32);
  }

  lemma {:induction false} RasterInRange(w: nat, h: nat, x: nat, y: nat)
    requires x < w && y < h
    ensures 0 <= y * w + x < w * h
  {
    assert y * w <= (h - 1) * w;
    assert (h - 1) * w + w == w * h;
  }

  predicate OriginInPlane(a: Area, sq: Square) {
    InPlane(a, sq.size, sq.x, sq.y)
  }

  predicate AllInPlane(a: Area, squares: seq<Square>) {
    forall i :: 0 <= i < |squares| ==> OriginInPlane(a, squares[i])
  }

  lemma {:induction false} NodeLeavesInPlane(a: Area, size: nat, x: nat, y: nat, node: Node)
    requires BlockSize(size) && ValidNode(a, size, x, y, node) && InPlane(a, size, x, y)
    ensures AllInPlane(a, NodeLeaves(a, size, x, y, node))
    decreases size, 0
  {
    hide ValidLeaf, ValidKids, KidsLeaves;
    match node
    case Whole(leaf) =>
    case Quad(kids) => KidsLeavesInPlane(a, size / 2, x, y, 0, kids);
  }

  lemma {:induction false} KidsLeavesInPlane(a: Area, half: nat, x: nat, y: nat, i: nat, kids: seq<Node>)
    requires BlockSize(half) && i <= 4 && ValidKids(a, half, x, y, i, kids)
    ensures AllInPlane(a, KidsLeaves(a, half, x, y, i, kids))
    decreases half, 5 - i
  {
    hide ValidNode, NodeLeaves;
    if i < 4 {
      if !InPlane(a, half, a.KidX(x, i), a.KidY(y, i)) {
        KidsLeavesInPlane(a, half, x, y, i + 1, kids);
      } else {
        NodeLeavesInPlane(a, half, a.KidX(x, i), a.KidY(y, i), kids[0]);
        KidsLeavesInPlane(a, half, x, y, i + 1, kids[1..]);
      }
    }
  }

  lemma {:induction false} RootsLeavesInPlane(a: Area, k: nat, roots: seq<Node>)
    requires k <= RootCount(a) && ValidRoots(a, k, roots)
    ensures AllInPlane(a, RootsLeaves(a, k, roots))
    decreases RootCount(a) - k
  {
    hide ValidNode, NodeLeaves;
    if k < RootCount(a) {
      RootInPlane(a, k);
      NodeLeavesInPlane(a, 32, k % Roots(a.width), k / Roots(a.width), roots[0]);
      RootsLeavesInPlane(a, k + 1, roots[1..]);
    }
  }

  lemma {:induction false} RootInPlane(a: Area, k: nat)
    requires k < RootCount(a) && Roots(a.width) > 0
    ensures InPlane(a, 32, k % Roots(a.width), k / Roots(a.width))
  {
    var (w, h) := (Roots(a.width), Roots(a.height));
    var q := k / w;
    assert k == w * q + k % w;
    assert h <= q ==> w * h <= w * q;
  }

  /** Every leaf starts inside the plane. */
  lemma {:induction false} LeavesStartInPlane(a: Area, plane: Plane)
    requires ValidPlane(a, plane)
    ensures AllInPlane(a, PlaneLeaves(a, plane))
  {
    RootsLeavesInPlane(a, 0, plane.roots);
  }
}
