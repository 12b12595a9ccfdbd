/** The v7 container: tiles, their three plane sections, and what becomes of every byte of a file. */
module Container {
  import opened Bytes
  import opened Outcome
  import opened RangeCoder
  import opened AdaptiveModels
  import opened ModelBanks
  import opened RawBits
  import opened PlaneSyntax
  import opened PlaneCodec
  import opened Tallies

  const HEADER_LEN: nat := 20
  const TILE: nat := 256
  const PLANES: nat := 3

  // ---- Header ----

  function U32(data: seq<byte>, offset: nat): (v: nat)
    requires offset + 4 <= |data|
    ensures v < WORD32
  {
    data[offset] as int + 0x100 * data[offset + 1] as int + 0x1_0000 * data[offset + 2] as int
    + 0x100_0000 * data[offset + 3] as int
  }

  function Flag(flags: byte, mask: nat): (on: bool)
    requires 0 < mask
  {
    (flags as int / mask) % 2 == 1
  }

  datatype Header = Header(width: nat, height: nat, quality: byte, chroma420: bool, alpha: bool)

  function ReadHeader(data: seq<byte>): (res: Result<Header>)
    ensures res.Ok? ==> HEADER_LEN <= |data|
  {
    if |data| < HEADER_LEN || data[..4] != [0x8f, 0x46, 0x52, 0x49] then Err(NotFrcI)
    else if data[4] != 7 then Err(WrongVersion)
    else if Flag(data[5], 0x01) || Flag(data[5], 0x10) then Err(NotLossy)
    else if Flag(data[5], 0x40) then Err(HasMetadata)
    else Ok(Header(U32(data, 6), U32(data, 10), data[15], Flag(data[5], 0x04), Flag(data[5], 0x02)))
  }

  // ---- Tiles ----

  function Tiles(n: nat): nat {
    (n + TILE - 1) / TILE
  }

  function TileCount(h: Header): nat {
    Tiles(h.width) * Tiles(h.height)
  }

  /** The samples a side of `n` has in its `i`-th tile. */
  function TileSide(n: nat, i: nat): (side: nat)
    requires i < Tiles(n)
    ensures 0 < side <= TILE
  {
    Min(TILE, n - i * TILE)
  }

  function TileArea(h: Header, i: nat): (a: Area)
    requires i < TileCount(h)
  {
    TileInRange(h, i);
    Area(TileSide(h.width, i % Tiles(h.width)), TileSide(h.height, i / Tiles(h.width)))
  }

  lemma {:induction false} TileInRange(h: Header, i: nat)
    requires i < TileCount(h)
    ensures 0 < Tiles(h.width) && i % Tiles(h.width) < Tiles(h.width) && i / Tiles(h.width) < Tiles(h.height)
  {
    var (w, t) := (Tiles(h.width), Tiles(h.height));
    assert w == 0 ==> w * t == 0;
    var q := i / w;
    assert i == w * q + i % w;
    assert t <= q ==> w * t <= w * q;
  }

  function PlaneArea(a: Area, chroma420: bool, plane: nat): (p: Area) {
    if plane == 0 || !chroma420 then a else Area((a.width + 1) / 2, (a.height + 1) / 2)
  }

  // ---- Sections and tiles ----

  /** What a file adds up to for one plane. */
  datatype Totals = Totals(sectionBytes: nat, tokenBytes: nat, rawBytes: nat, sections: nat, tally: Tally, entropy: Entropy)

  ghost predicate Balanced(totals: seq<Totals>) {
    |totals| == PLANES && forall k :: 0 <= k < PLANES ==> Covers(totals[k].entropy)
  }

  function AddSection(t: Totals, tokens: nat, raw: nat, a: Area, plane: Plane, entropy: Entropy): (n: Totals)
    requires ValidPlane(a, plane)
  {
    Totals(t.sectionBytes + 8 + tokens + raw, t.tokenBytes + tokens, t.rawBytes + raw, t.sections + 1,
           TallyRoots(t.tally, a, 0, plane.roots), entropy)
  }

  /** Where the planes of a tile are read from, and what has been read of them. */
  datatype TileState = TileState(pos: nat, planes: seq<Plane>, bank: Bank, trace: seq<(Context, nat)>, totals: seq<Totals>)

  ghost predicate Going(s: TileState) {
    |s.planes| <= PLANES && WellFormedBank(s.bank) && Balanced(s.totals)
  }

  /** The two streams of the length-prefixed section at `pos`. */
  function SectionAt(tile: seq<byte>, pos: nat, cost: Cost): (res: Result<Streams>)
    ensures res.Ok? ==> pos + 8 + |res.value.tokens| + |res.value.raw| <= |tile|
  {
    if pos + 8 > |tile| then Err(SectionHeaderCut)
    else
      var (tokens, raw) := (U32(tile, pos), U32(tile, pos + 4));
      if pos + 8 + tokens + raw > |tile| then Err(SectionOverrun)
      else Ok(Streams(tile[pos + 8..pos + 8 + tokens], tile[pos + 8 + tokens..pos + 8 + tokens + raw], cost))
  }

  function Entered(s: TileState, tokens: nat, raw: nat, area: Area, out: Decoded): (n: TileState)
    requires Going(s) && |s.planes| < PLANES && ValidPlane(area, out.plane) && Sound(out.carry)
    ensures Going(n) && |n.planes| == |s.planes| + 1
  {
    TileState(s.pos + 8 + tokens + raw, s.planes + [out.plane], out.carry.bank, out.carry.trace,
              s.totals[|s.planes| := AddSection(s.totals[|s.planes|], tokens, raw, area, out.plane, out.carry.entropy)])
  }

  /** What the next section of a tile starts from. */
  function CarryOf(s: TileState): (sh: Carry)
    requires Going(s) && |s.planes| < PLANES
    ensures Sound(sh)
  {
    Carry(s.bank, s.trace, s.totals[|s.planes|].entropy)
  }

  function ReadSection(tile: seq<byte>, h: Header, a: Area, cost: Cost, s: TileState): (res: Result<TileState>)
    requires Going(s) && |s.planes| < PLANES && s.pos <= |tile|
    ensures res.Ok? ==> Going(res.value) && |res.value.planes| == |s.planes| + 1 && res.value.pos <= |tile|
  {
    var d :- SectionAt(tile, s.pos, cost);
    var area := PlaneArea(a, h.chroma420, |s.planes|);
    var out :- DecodePlane(d, CarryOf(s), area);
    DecodedIsValid(d, CarryOf(s), area);
    Ok(Entered(s, |d.tokens|, |d.raw|, area, out))
  }

  lemma {:induction false} DecodedIsValid(d: Streams, sh: Carry, a: Area)
    requires Sound(sh) && DecodePlane(d, sh, a).Ok?
    ensures ValidPlane(a, DecodePlane(d, sh, a).value.plane)
  {
    hide *;
    PlaneSound(d, sh, a);
  }

  function ReadSections(tile: seq<byte>, h: Header, a: Area, cost: Cost, s: TileState): (res: Result<TileState>)
    requires Going(s) && s.pos <= |tile|
    ensures res.Ok? ==> Going(res.value) && |res.value.planes| == PLANES && res.value.pos <= |tile|
    decreases PLANES - |s.planes|
  {
    if |s.planes| == PLANES then Ok(s)
    else
      var next :- ReadSection(tile, h, a, cost, s);
      ReadSections(tile, h, a, cost, next)
  }

  /** A tile decoded: its planes, the trace of its symbols, and its alpha bytes. */
  datatype Tile = Tile(planes: seq<Plane>, trace: seq<(Context, nat)>, alpha: nat)

  datatype FileState = FileState(offset: nat, tiles: seq<Tile>, totals: seq<Totals>)

  function ReadTile(data: seq<byte>, h: Header, cost: Cost, length: nat, s: FileState): (res: Result<FileState>)
    requires Balanced(s.totals) && |s.tiles| < TileCount(h) && s.offset <= |data|
    ensures res.Ok? ==> Balanced(res.value.totals) && |res.value.tiles| == |s.tiles| + 1
                        && res.value.offset == s.offset + length <= |data|
  {
    if s.offset + length > |data| then Err(TileOverrun)
    else
      var tile := data[s.offset..s.offset + length];
      var end :- ReadSections(tile, h, TileArea(h, |s.tiles|), cost, TileState(0, [], FreshBank(), [], s.totals));
      if !h.alpha && end.pos != |tile| then Err(SectionTrailing)
      else Ok(FileState(s.offset + length, s.tiles + [Tile(end.planes, end.trace, |tile| - end.pos)], end.totals))
  }

  function ReadTiles(data: seq<byte>, h: Header, cost: Cost, s: FileState): (res: Result<FileState>)
    requires Balanced(s.totals) && |s.tiles| <= TileCount(h) && s.offset <= |data|
    requires HEADER_LEN + 4 * TileCount(h) <= |data|
    ensures res.Ok? ==> Balanced(res.value.totals) && |res.value.tiles| == TileCount(h) && res.value.offset <= |data|
    decreases TileCount(h) - |s.tiles|
  {
    if |s.tiles| == TileCount(h) then Ok(s)
    else
      var next :- ReadTile(data, h, cost, U32(data, HEADER_LEN + 4 * |s.tiles|), s);
      ReadTiles(data, h, cost, next)
  }

  const NO_BILLS := Entropy(
    map[Split := 0, Eob := 0, Mode := 0, Tx := 0, Cdef := 0, Dc := 0, Run := 0, Level := 0],
    map[Split := 0.0, Eob := 0.0, Mode := 0.0, Tx := 0.0, Cdef := 0.0, Dc := 0.0, Run := 0.0, Level := 0.0])

  const NO_TOTALS := Totals(0, 0, 0, 0, NOTHING, NO_BILLS)

  lemma {:induction false} NoTotalsBalanced()
    ensures Balanced([NO_TOTALS, NO_TOTALS, NO_TOTALS])
  {
    forall kind: Kind
      ensures kind in NO_BILLS.symbols && kind in NO_BILLS.bits
    {
      match kind
      case Split =>
      case Eob =>
      case Mode =>
      case Tx =>
      case Cdef =>
      case Dc =>
      case Run =>
      case Level =>
    }
  }

  /** What the parser reports. */
  datatype File = File(header: Header, containerBytes: nat, alphaBytes: nat, tiles: seq<Tile>, totals: seq<Totals>)

  function AlphaBytes(tiles: seq<Tile>): (n: nat) {
    if tiles == [] then 0 else AlphaBytes(tiles[..|tiles| - 1]) + tiles[|tiles| - 1].alpha
  }

  /** Before the first tile. */
  function Beginning(h: Header): (s: FileState)
    ensures Balanced(s.totals) && s.tiles == [] && s.offset == HEADER_LEN + 4 * TileCount(h)
  {
    NoTotalsBalanced();
    FileState(HEADER_LEN + 4 * TileCount(h), [], [NO_TOTALS, NO_TOTALS, NO_TOTALS])
  }

  function ReadFile(data: seq<byte>, cost: Cost): (res: Result<File>)
    ensures res.Ok? ==> |res.value.totals| == PLANES
  {
    var h :- ReadHeader(data);
    if HEADER_LEN + 4 * TileCount(h) > |data| then Err(TruncatedTable)
    else
      var end :- ReadTiles(data, h, cost, Beginning(h));
      if end.offset != |data| then Err(FileTrailing)
      else Ok(File(h, HEADER_LEN + 4 * TileCount(h), AlphaBytes(end.tiles), end.tiles, end.totals))
  }

  // ---- Conservation ----

  function SectionBytes(totals: seq<Totals>): (n: nat)
    requires |totals| == PLANES
  {
    totals[0].sectionBytes + totals[1].sectionBytes + totals[2].sectionBytes
  }

  /** A plane's sections are their 8-byte prefixes, their tokens and their raw bits. */
  predicate Adds(t: Totals) {
    t.sectionBytes == 8 * t.sections + t.tokenBytes + t.rawBytes
  }

  predicate AllAdd(totals: seq<Totals>, sections: nat) {
    |totals| == PLANES && forall k :: 0 <= k < PLANES ==> Adds(totals[k]) && totals[k].sections == sections
  }

  /** In the middle of a tile the planes already read have one section more. */
  predicate MostAdd(totals: seq<Totals>, sections: nat, read: nat) {
    |totals| == PLANES
    && forall k :: 0 <= k < PLANES ==> Adds(totals[k]) && totals[k].sections == sections + (if k < read then 1 else 0)
  }

  lemma {:induction false} SectionConserves(tile: seq<byte>, h: Header, a: Area, cost: Cost, s: TileState, sections: nat)
    requires Going(s) && |s.planes| < PLANES && s.pos <= |tile| && MostAdd(s.totals, sections, |s.planes|)
    requires ReadSection(tile, h, a, cost, s).Ok?
    ensures var n := ReadSection(tile, h, a, cost, s).value;
            && MostAdd(n.totals, sections, |n.planes|)
            && SectionBytes(n.totals) - SectionBytes(s.totals) == n.pos - s.pos
  {
    hide DecodePlane, TallyRoots, ValidPlane, WellFormedBank, Covers, PlaneArea;
  }

  lemma {:induction false} SectionsConserve(tile: seq<byte>, h: Header, a: Area, cost: Cost, s: TileState, sections: nat)
    requires Going(s) && s.pos <= |tile| && MostAdd(s.totals, sections, |s.planes|)
    requires ReadSections(tile, h, a, cost, s).Ok?
    ensures var n := ReadSections(tile, h, a, cost, s).value;
            && AllAdd(n.totals, sections + 1)
            && SectionBytes(n.totals) - SectionBytes(s.totals) == n.pos - s.pos
    decreases PLANES - |s.planes|
  {
    hide ReadSection, WellFormedBank, Covers;
    if |s.planes| < PLANES {
      SectionConserves(tile, h, a, cost, s, sections);
      SectionsConserve(tile, h, a, cost, ReadSection(tile, h, a, cost, s).value, sections);
    }
  }

  lemma {:induction false} TileConserves(data: seq<byte>, h: Header, cost: Cost, length: nat, s: FileState)
    requires Balanced(s.totals) && |s.tiles| < TileCount(h) && s.offset <= |data| && AllAdd(s.totals, |s.tiles|)
    requires ReadTile(data, h, cost, length, s).Ok?
    ensures var n := ReadTile(data, h, cost, length, s).value;
            && AllAdd(n.totals, |n.tiles|)
            && SectionBytes(n.totals) + AlphaBytes(n.tiles) - SectionBytes(s.totals) - AlphaBytes(s.tiles)
                 == n.offset - s.offset
            && (!h.alpha ==> AlphaBytes(n.tiles) == AlphaBytes(s.tiles))
  {
    hide ReadSections, WellFormedBank, Covers, FreshBank, TileCount, TileArea;
    var tile := data[s.offset..s.offset + length];
    SectionsConserve(tile, h, TileArea(h, |s.tiles|), cost, TileState(0, [], FreshBank(), [], s.totals), |s.tiles|);
    var n := ReadTile(data, h, cost, length, s).value;
    assert n.tiles[..|s.tiles|] == s.tiles;
  }

  lemma {:induction false} TilesConserve(data: seq<byte>, h: Header, cost: Cost, s: FileState)
    requires Balanced(s.totals) && |s.tiles| <= TileCount(h) && s.offset <= |data| && AllAdd(s.totals, |s.tiles|)
    requires HEADER_LEN + 4 * TileCount(h) <= |data| && ReadTiles(data, h, cost, s).Ok?
    ensures var n := ReadTiles(data, h, cost, s).value;
            && AllAdd(n.totals, TileCount(h))
            && SectionBytes(n.totals) + AlphaBytes(n.tiles) - SectionBytes(s.totals) - AlphaBytes(s.tiles)
                 == n.offset - s.offset
            && (!h.alpha ==> AlphaBytes(n.tiles) == AlphaBytes(s.tiles))
    decreases TileCount(h) - |s.tiles|
  {
    hide ReadTile, WellFormedBank, Covers, TileCount, AlphaBytes, SectionBytes, AllAdd;
    if |s.tiles| < TileCount(h) {
      var length := U32(data, HEADER_LEN + 4 * |s.tiles|);
      TileConserves(data, h, cost, length, s);
      TilesConserve(data, h, cost, ReadTile(data, h, cost, length, s).value);
    }
  }

  /**
   * Every byte of an accepted file is accounted for: header and length table, the plane sections and the alpha bytes
   * add up to the file, each plane has one section per tile made of prefix, tokens and raw bits, and a file without
   * the alpha flag has no alpha bytes.
   */
  lemma {:induction false} FileConserves(data: seq<byte>, cost: Cost)
    requires ReadFile(data, cost).Ok?
    ensures var f := ReadFile(data, cost).value;
            && f.containerBytes == HEADER_LEN + 4 * TileCount(f.header)
            && f.containerBytes + SectionBytes(f.totals) + f.alphaBytes == |data|
            && AllAdd(f.totals, TileCount(f.header)) && |f.tiles| == TileCount(f.header)
            && (!f.header.alpha ==> f.alphaBytes == 0)
  {
    hide ReadTiles, TileCount, Balanced, Beginning, ReadHeader, AllAdd, SectionBytes;
    var h := ReadHeader(data).value;
    BeginningAdds(h);
    TilesConserve(data, h, cost, Beginning(h));
  }

  lemma {:induction false} BeginningAdds(h: Header)
    ensures AllAdd(Beginning(h).totals, 0) && SectionBytes(Beginning(h).totals) == 0
  {
    hide TileCount, Balanced;
  }

  // ---- Tile areas ----

  /** The samples in the first `k` tiles. */
  function SamplesInTiles(h: Header, k: nat): (n: nat)
    requires k <= TileCount(h)
  {
    if k == 0 then 0 else SamplesInTiles(h, k - 1) + Samples(TileArea(h, k - 1))
  }

  function Samples(a: Area): (n: nat) {
    a.width * a.height
  }

  lemma {:induction false} SamplesInRow(h: Header, y: nat, x: nat)
    requires y < Tiles(h.height) && x <= Tiles(h.width) && y * Tiles(h.width) + x <= TileCount(h)
    requires y * Tiles(h.width) <= TileCount(h)
    ensures SamplesInTiles(h, y * Tiles(h.width) + x)
         == SamplesInTiles(h, y * Tiles(h.width)) + Min(x * TILE, h.width) * TileSide(h.height, y)
    decreases x
  {
    hide TileCount, Tiles, TileSide;
    var w := Tiles(h.width);
    if x == 0 {
      assert Min(0, h.width) * TileSide(h.height, y) == 0;
    } else {
      SamplesInRow(h, y, x - 1);
      var k := y * w + x - 1;
      QuotientIs(k, w, y, x - 1);
      TileInRange(h, k);
      OneMoreTile(h.width, x - 1);
      Distribute(Min((x - 1) * TILE, h.width), TileSide(h.width, x - 1), TileSide(h.height, y));
    }
  }

  lemma {:induction false} Distribute(a: nat, b: nat, c: nat)
    ensures (a + b) * c == a * c + b * c
  {
  }

  lemma {:induction false} OneMoreTile(n: nat, i: nat)
    requires i < Tiles(n)
    ensures Min(i * TILE, n) + TileSide(n, i) == Min((i + 1) * TILE, n)
  {
  }

  lemma {:induction false} SamplesInRows(h: Header, y: nat)
    requires y <= Tiles(h.height)
    ensures y * Tiles(h.width) <= TileCount(h)
    ensures SamplesInTiles(h, y * Tiles(h.width)) == Min(y * TILE, h.height) * h.width
  {
    RowsFit(h, y);
    hide TileCount, Tiles, TileSide, SamplesInTiles, Min;
    if y == 0 {
      NoRows(h);
    } else {
      SamplesInRows(h, y - 1);
      RowAdded(h, y - 1);
      OneMoreTile(h.height, y - 1);
      Distribute(Min((y - 1) * TILE, h.height), TileSide(h.height, y - 1), h.width);
    }
  }

  lemma {:induction false} NoRows(h: Header)
    ensures SamplesInTiles(h, 0 * Tiles(h.width)) == 0 && Min(0 * TILE, h.height) * h.width == 0
  {
    assert 0 * Tiles(h.width) == 0;
  }

  lemma {:induction false} RowAdded(h: Header, y: nat)
    requires y < Tiles(h.height)
    ensures y * Tiles(h.width) <= TileCount(h) && (y + 1) * Tiles(h.width) <= TileCount(h)
    ensures SamplesInTiles(h, (y + 1) * Tiles(h.width))
         == SamplesInTiles(h, y * Tiles(h.width)) + TileSide(h.height, y) * h.width
  {
    RowsFit(h, y);
    RowsFit(h, y + 1);
    hide TileCount, Tiles, TileSide, SamplesInTiles;
    SamplesInRow(h, y, Tiles(h.width));
    TilesCover(h.width);
  }

  lemma {:induction false} TilesCover(n: nat)
    ensures Min(Tiles(n) * TILE, n) == n
  {
  }

  lemma {:induction false} RowsFit(h: Header, y: nat)
    requires y <= Tiles(h.height)
    ensures y * Tiles(h.width) <= TileCount(h)
    ensures 0 < y ==> (y - 1) * Tiles(h.width) + Tiles(h.width) == y * Tiles(h.width)
  {
    var w := Tiles(h.width);
    assert y * w <= Tiles(h.height) * w;
    assert 0 < y ==> (y - 1) * Tiles(h.width) + Tiles(h.width) == y * Tiles(h.width);
  }

  /** The tiles share out the picture: their areas add up to width times height. */
  lemma {:induction false} TileAreasAddUp(h: Header)
    ensures SamplesInTiles(h, TileCount(h)) == h.width * h.height
  {
    RowsAreAll(h);
    hide Tiles, TileCount, SamplesInTiles, Min;
    SamplesInRows(h, Tiles(h.height));
    TilesCover(h.height);
    Turned(h.width, h.height);
  }

  lemma {:induction false} RowsAreAll(h: Header)
    ensures Tiles(h.height) * Tiles(h.width) == TileCount(h)
  {
    Turned(Tiles(h.height), Tiles(h.width));
  }

  lemma {:induction false} Turned(a: nat, b: nat)
    ensures a * b == b * a
  {
  }
}
