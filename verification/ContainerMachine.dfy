/** The container parser as nested loops over tiles and planes, proved to compute Container.ReadFile. */
module ContainerMachine {
  import opened Bytes
  import opened Outcome
  import opened AdaptiveModels
  import opened ModelBanks
  import opened BankMachines
  import opened PlaneSyntax
  import opened PlaneCodec
  import opened Tallies
  import opened Sections
  import opened Container

  /** The three planes' entropy ledgers, kept for the whole file. */
  class Ledgers {
    const y: EntropyLedger
    const cb: EntropyLedger
    const cr: EntropyLedger
    const cost: Cost

    ghost predicate Valid()
      reads this, y, cb, cr
    {
      && y != cb && y != cr && cb != cr
      && y.Valid() && cb.Valid() && cr.Valid() && y.cost == cb.cost == cr.cost == cost
    }

    ghost function Of(k: nat): (ledger: EntropyLedger) {
      if k == 0 then y else if k == 1 then cb else cr
    }

    /** The totals carry each ledger's bills. */
    ghost predicate Match(totals: seq<Totals>)
      reads this, y, cb, cr
    {
      |totals| == PLANES && totals[0].entropy == y.State() && totals[1].entropy == cb.State() && totals[2].entropy == cr.State()
    }

    constructor (cost: Cost)
      ensures Valid() && this.cost == cost && fresh(y) && fresh(cb) && fresh(cr)
      ensures Match([NO_TOTALS, NO_TOTALS, NO_TOTALS])
    {
      this.cost := cost;
      y := new EntropyLedger(cost);
      cb := new EntropyLedger(cost);
      cr := new EntropyLedger(cost);
      new;
      NothingBilled(y);
      NothingBilled(cb);
      NothingBilled(cr);
    }

    lemma {:induction false} MatchBalances(totals: seq<Totals>)
      requires Valid() && Match(totals)
      ensures Balanced(totals)
    {
    }
  }

  lemma {:induction false} NothingBilled(ledger: EntropyLedger)
    requires ledger.Valid() && forall kind: Kind :: ledger.symbols[kind] == 0 && ledger.bits[kind] == 0.0
    ensures ledger.State() == NO_BILLS
  {
    NoTotalsBalanced();
    assert Covers(NO_BILLS) by {
      assert [NO_TOTALS, NO_TOTALS, NO_TOTALS][0] == NO_TOTALS;
    }
    forall kind: Kind
      ensures NO_BILLS.symbols[kind] == 0 && NO_BILLS.bits[kind] == 0.0
    {
      match kind
      case Split =>
      case Eob =>
      case Mode =>
      case Tx =>
      case Cdef =>
      case Dc =>
      case Run =>
      case Level =>
    }
    assert ledger.symbols.Keys == NO_BILLS.symbols.Keys;
    assert ledger.bits.Keys == NO_BILLS.bits.Keys;
  }

  datatype SectionOutput = SectionOutput(pos: nat, plane: Plane, trace: seq<(Context, nat)>, totals: Totals)

  /** One plane section of a tile, decoded with the tile's bank and billed to its plane's ledger. */
  method ParseSection(tile: seq<byte>, h: Header, a: Area, ledger: EntropyLedger, bank: ModelBank,
                      k: nat, pos: nat, trace: seq<(Context, nat)>, t: Totals, ghost s: TileState)
    returns (res: Result<SectionOutput>)
    requires Going(s) && k == |s.planes| < PLANES && s.pos == pos <= |tile|
    requires bank.Valid() && ledger.Valid() && s.totals[k] == t
    requires s.bank == bank.State() && t.entropy == ledger.State() && s.trace == trace
    modifies bank, bank.tables, ledger
    ensures var spec := ReadSection(tile, h, a, ledger.cost, s);
            && res.Ok? == spec.Ok? && (res.Err? ==> res.fault == spec.fault)
            && (res.Ok? ==>
                  && bank.Valid() && ledger.Valid() && fresh(bank.tables - old(bank.tables))
                  && spec.value == TileState(res.value.pos, s.planes + [res.value.plane], bank.State(), res.value.trace,
                                             s.totals[k := res.value.totals])
                  && res.value.totals.entropy == ledger.State())
  {
    hide WellFormedBank, ModelBank.Valid, ModelBank.State, EntropyLedger.Valid, DecodePlane, TallyRoots, ValidPlane,
      PlaneArea, Covers, Sound;
    if pos + 8 > |tile| {
      return Err(SectionHeaderCut);
    }
    var tokenLen, rawLen := U32(tile, pos), U32(tile, pos + 4);
    var sectionLen := 8 + tokenLen + rawLen;
    if pos + sectionLen > |tile| {
      return Err(SectionOverrun);
    }
    var tokenStart := pos + 8;
    var rawStart := tokenStart + tokenLen;
    var tokens, raw := tile[tokenStart..rawStart], tile[rawStart..rawStart + rawLen];
    var out := DecodeSection(tokens, raw, bank, ledger, PlaneArea(a, h.chroma420, k), trace, t.tally);
    if out.Err? {
      return Err(out.fault);
    }
    return Ok(SectionOutput(pos + sectionLen, out.value.plane, out.value.trace,
                            Totals(t.sectionBytes + sectionLen, t.tokenBytes + tokenLen, t.rawBytes + rawLen,
                                   t.sections + 1, out.value.tally, Entropy(ledger.symbols, ledger.bits))));
  }

  datatype TileOutput = TileOutput(tile: Tile, totals: seq<Totals>)

  /** A tile: a fresh bank, and its three sections in turn. */
  method ParseTile(tile: seq<byte>, h: Header, a: Area, ledgers: Ledgers, totals: seq<Totals>) returns (res: Result<TileOutput>)
    requires ledgers.Valid() && ledgers.Match(totals)
    modifies ledgers.y, ledgers.cb, ledgers.cr
    ensures Balanced(totals)
    ensures var spec := ReadSections(tile, h, a, ledgers.cost, TileState(0, [], FreshBank(), [], totals));
            && (spec.Err? ==> res == Err(spec.fault))
            && (spec.Ok? && !h.alpha && spec.value.pos != |tile| ==> res == Err(SectionTrailing))
            && (spec.Ok? && (h.alpha || spec.value.pos == |tile|) ==>
                  && res == Ok(TileOutput(Tile(spec.value.planes, spec.value.trace, |tile| - spec.value.pos), spec.value.totals))
                  && ledgers.Valid() && ledgers.Match(res.value.totals))
  {
    hide WellFormedBank, ModelBank.Valid, ModelBank.State, EntropyLedger.Valid, ReadSection, ReadSections, Covers, FreshBank;
    ledgers.MatchBalances(totals);
    var bank := new ModelBank();
    bank.ValidMeansWellFormed();
    ghost var s := TileState(0, [], bank.State(), [], totals);
    ghost var spec := ReadSections(tile, h, a, ledgers.cost, s);
    var planes: seq<Plane>, pos: nat, trace: seq<(Context, nat)>, books := [], 0, [], totals;
    for k := 0 to PLANES
      invariant bank.Valid() && fresh(bank) && fresh(bank.tables)
      invariant ledgers.Valid() && ledgers.Match(books)
      invariant s == TileState(pos, planes, bank.State(), trace, books) && |planes| == k && pos <= |tile| && Going(s)
      invariant ReadSections(tile, h, a, ledgers.cost, s) == spec
    {
      SectionsUnfold(tile, h, a, ledgers.cost, s);
      var ledger := if k == 0 then ledgers.y else if k == 1 then ledgers.cb else ledgers.cr;
      var out := ParseSection(tile, h, a, ledger, bank, k, pos, trace, books[k], s);
      if out.Err? {
        return Err(out.fault);
      }
      planes := planes + [out.value.plane];
      pos, trace, books := out.value.pos, out.value.trace, books[k := out.value.totals];
      s := TileState(pos, planes, bank.State(), trace, books);
    }
    SectionsDone(tile, h, a, ledgers.cost, s);
    if !h.alpha && pos != |tile| {
      return Err(SectionTrailing);
    }
    return Ok(TileOutput(Tile(planes, trace, |tile| - pos), books));
  }

  lemma {:induction false} SectionsUnfold(tile: seq<byte>, h: Header, a: Area, cost: Cost, s: TileState)
    requires Going(s) && s.pos <= |tile| && |s.planes| < PLANES
    ensures var next := ReadSection(tile, h, a, cost, s);
            && (next.Err? ==> ReadSections(tile, h, a, cost, s) == Err(next.fault))
            && (next.Ok? ==>
                  && Going(next.value) && next.value.pos <= |tile|
                  && ReadSections(tile, h, a, cost, s) == ReadSections(tile, h, a, cost, next.value))
  {
    hide ReadSection, WellFormedBank, Covers;
  }

  lemma {:induction false} SectionsDone(tile: seq<byte>, h: Header, a: Area, cost: Cost, s: TileState)
    requires Going(s) && s.pos <= |tile| && |s.planes| == PLANES
    ensures ReadSections(tile, h, a, cost, s) == Ok(s)
  {
  }

  /** The next tile of the file, at `offset`. */
  method ParseNextTile(data: seq<byte>, h: Header, ledgers: Ledgers, length: nat, offset: nat, tiles: seq<Tile>,
                       totals: seq<Totals>)
    returns (res: Result<TileOutput>)
    requires ledgers.Valid() && ledgers.Match(totals) && Balanced(totals)
    requires |tiles| < TileCount(h) && offset <= |data|
    modifies ledgers.y, ledgers.cb, ledgers.cr
    ensures var spec := ReadTile(data, h, ledgers.cost, length, FileState(offset, tiles, totals));
            && (spec.Err? ==> res == Err(spec.fault))
            && (spec.Ok? ==>
                  && res.Ok? && ledgers.Valid() && ledgers.Match(res.value.totals)
                  && offset + length <= |data|
                  && spec.value == FileState(offset + length, tiles + [res.value.tile], res.value.totals))
  {
    hide Ledgers.Valid, Ledgers.Match, ReadSections, Balanced, TileCount, TileArea, FreshBank, Going;
    if offset + length > |data| {
      return Err(TileOverrun);
    }
    FreshGoing(totals);
    res := ParseTile(data[offset..offset + length], h, TileArea(h, |tiles|), ledgers, totals);
  }

  lemma {:induction false} FreshGoing(totals: seq<Totals>)
    requires Balanced(totals)
    ensures Going(TileState(0, [], FreshBank(), [], totals))
  {
    hide Balanced, WellFormedBank, FreshBank;
  }

  datatype TilesOutput = TilesOutput(offset: nat, alphaBytes: nat, tiles: seq<Tile>, totals: seq<Totals>)

  /** Every tile of the file, its length read from the table. */
  method ParseTiles(data: seq<byte>, h: Header, ledgers: Ledgers, tableEnd: nat, start: seq<Totals>)
    returns (res: Result<TilesOutput>)
    requires ledgers.Valid() && ledgers.Match(start) && Balanced(start)
    requires tableEnd == HEADER_LEN + 4 * TileCount(h) <= |data|
    modifies ledgers.y, ledgers.cb, ledgers.cr
    ensures var spec := ReadTiles(data, h, ledgers.cost, FileState(tableEnd, [], start));
            && (spec.Err? ==> res == Err(spec.fault))
            && (spec.Ok? ==>
                  && res.Ok? && spec.value == FileState(res.value.offset, res.value.tiles, res.value.totals)
                  && res.value.alphaBytes == AlphaBytes(res.value.tiles))
  {
    hide Ledgers.Valid, Ledgers.Match, ReadTile, ReadTiles, Balanced, TileCount, AlphaBytes, U32;
    AlphaUnfolds([]);
    ghost var cost := ledgers.cost;
    ghost var spec := ReadTiles(data, h, cost, FileState(tableEnd, [], start));
    var offset: nat, alphaBytes: nat, tiles: seq<Tile>, totals := tableEnd, 0, [], start;
    for index := 0 to TileCount(h)
      invariant ledgers.Valid() && ledgers.Match(totals) && Balanced(totals)
      invariant |tiles| == index && offset <= |data| && alphaBytes == AlphaBytes(tiles)
      invariant ReadTiles(data, h, cost, FileState(offset, tiles, totals)) == spec
    {
      TilesUnfold(data, h, cost, FileState(offset, tiles, totals));
      var length := U32(data, HEADER_LEN + 4 * index);
      var out := ParseNextTile(data, h, ledgers, length, offset, tiles, totals);
      if out.Err? {
        return Err(out.fault);
      }
      AlphaUnfolds(tiles + [out.value.tile]);
      assert (tiles + [out.value.tile])[..index] == tiles;
      tiles, totals, offset := tiles + [out.value.tile], out.value.totals, offset + length;
      alphaBytes := alphaBytes + out.value.tile.alpha;
    }
    TilesDone(data, h, cost, FileState(offset, tiles, totals));
    return Ok(TilesOutput(offset, alphaBytes, tiles, totals));
  }

  lemma {:induction false} AlphaUnfolds(tiles: seq<Tile>)
    ensures AlphaBytes(tiles) == if tiles == [] then 0 else AlphaBytes(tiles[..|tiles| - 1]) + tiles[|tiles| - 1].alpha
  {
  }

  lemma {:induction false} TilesUnfold(data: seq<byte>, h: Header, cost: Cost, s: FileState)
    requires Balanced(s.totals) && |s.tiles| < TileCount(h) && s.offset <= |data|
    requires HEADER_LEN + 4 * TileCount(h) <= |data|
    ensures var next := ReadTile(data, h, cost, U32(data, HEADER_LEN + 4 * |s.tiles|), s);
            && (next.Err? ==> ReadTiles(data, h, cost, s) == Err(next.fault))
            && (next.Ok? ==> Balanced(next.value.totals) && ReadTiles(data, h, cost, s) == ReadTiles(data, h, cost, next.value))
  {
    hide ReadTile, Balanced, TileCount;
  }

  lemma {:induction false} TilesDone(data: seq<byte>, h: Header, cost: Cost, s: FileState)
    requires Balanced(s.totals) && |s.tiles| == TileCount(h) && s.offset <= |data|
    requires HEADER_LEN + 4 * TileCount(h) <= |data|
    ensures ReadTiles(data, h, cost, s) == Ok(s)
  {
  }

  /** The whole file. */
  method ParsePlaneSections(data: seq<byte>, cost: Cost) returns (res: Result<File>)
    ensures res == ReadFile(data, cost)
  {
    hide Ledgers.Valid, Ledgers.Match, ReadHeader, ReadTiles, TileCount, Balanced, AlphaBytes, AllAdd, SectionBytes;
    var header := ReadHeader(data);
    if header.Err? {
      return Err(header.fault);
    }
    var h := header.value;
    var tableEnd := HEADER_LEN + 4 * TileCount(h);
    if tableEnd > |data| {
      return Err(TruncatedTable);
    }
    var ledgers := new Ledgers(cost);
    NoTotalsBalanced();
    assert Beginning(h) == FileState(tableEnd, [], [NO_TOTALS, NO_TOTALS, NO_TOTALS]);
    var out := ParseTiles(data, h, ledgers, tableEnd, [NO_TOTALS, NO_TOTALS, NO_TOTALS]);
    if out.Err? {
      return Err(out.fault);
    }
    if out.value.offset != |data| {
      return Err(FileTrailing);
    }
    return Ok(File(h, tableEnd, out.value.alphaBytes, out.value.tiles, out.value.totals));
  }
}
