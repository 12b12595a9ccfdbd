/** The encoder's half of the container, and a whole file written and read back. */
module FileWriter {
  import opened Bytes
  import opened RangeCoder
  import opened ModelBanks
  import opened BankMachines
  import opened RawBits
  import opened PlaneSyntax
  import opened PlaneCodec
  import opened Sections
  import opened Container
  import opened FileCodec

  /** The first sections of a tile, each written with the models its predecessors left. */
  ghost predicate Begun(parts: seq<Streams>, cost: Cost, h: Header, a: Area, t: TileSource, k: nat)
    requires FitsTile(h, a, t) && k <= PLANES
  {
    && |parts| == k
    && forall j :: 0 <= j < k ==>
         parts[j].cost == cost && EncodesPlane(parts[j], BankBefore(h, a, t, j), PlaneArea(a, h.chroma420, j), t.planes[j])
  }

  /** No length is cut when it is stored in 32 bits. */
  predicate AllShort(parts: seq<Streams>) {
    forall j :: 0 <= j < |parts| ==> Short(parts[j])
  }

  function Laid(parts: seq<Streams>): (s: seq<byte>)
    requires AllShort(parts)
  {
    Flat(Chunks(parts))
  }

  lemma {:induction false} NothingLaid()
    ensures Laid([]) == []
  {
  }

  lemma {:induction false} OneMoreLaid(parts: seq<Streams>, d: Streams)
    requires AllShort(parts) && Short(d)
    ensures AllShort(parts + [d]) && Laid(parts + [d]) == Laid(parts) + Prefixed(d)
  {
    hide Prefixed;
    var more := parts + [d];
    assert forall j :: 0 <= j < |more| ==> Short(more[j]);
    assert Chunks(more)[..|parts|] == Chunks(parts) && Chunks(more)[|parts|] == Prefixed(d);
  }

  lemma {:induction false} OneMoreBegun(parts: seq<Streams>, cost: Cost, h: Header, a: Area, t: TileSource, k: nat, d: Streams)
    requires FitsTile(h, a, t) && k < PLANES && Begun(parts, cost, h, a, t, k) && d.cost == cost
    requires EncodesPlane(d, BankBefore(h, a, t, k), PlaneArea(a, h.chroma420, k), t.planes[k])
    ensures Begun(parts + [d], cost, h, a, t, k + 1)
  {
    hide EncodesPlane, BankBefore, PlaneArea, ValidPlane, FitsTile;
  }

  lemma {:induction false} AllBegun(payload: seq<byte>, parts: seq<Streams>, cost: Cost, h: Header, a: Area, t: TileSource)
    requires FitsTile(h, a, t) && Begun(parts, cost, h, a, t, PLANES) && AllShort(parts) && payload == Laid(parts) + t.alpha
    ensures PayloadOf(payload, parts, cost, h, a, t)
  {
    hide BankBefore, PlaneArea, ValidPlane, EncodesPlane, Flat, Prefixed, AllCodable, WellFormedBank, PlaneOps;
    forall k | 0 <= k < PLANES
      ensures parts[k].cost == cost && SectionOf(parts[k], BankBefore(h, a, t, k), PlaneArea(a, h.chroma420, k), t.planes[k])
    {
      assert EncodesPlane(parts[k], BankBefore(h, a, t, k), PlaneArea(a, h.chroma420, k), t.planes[k]);
    }
  }

  /** One plane section, its lengths cast to 32 bits. */
  method WriteDctSection(bank: ModelBank, area: Area, plane: Plane, ghost cost: Cost) returns (bytes: seq<byte>, ghost d: Streams)
    requires bank.Valid() && ValidPlane(area, plane)
    modifies bank, bank.tables
    ensures bank.Valid() && fresh(bank.tables - old(bank.tables)) && WellFormedBank(old(bank.State()))
    ensures bank.State() == After(old(bank.State()), PlaneTrace(area, plane))
    ensures d.cost == cost && EncodesPlane(d, old(bank.State()), area, plane) && (Short(d) ==> bytes == Prefixed(d))
    ensures |d.tokens| <= |bytes| && |d.raw| <= |bytes|
  {
    hide WellFormedBank, ModelBank.Valid, ModelBank.State, PlaneOps, TraceOf, FieldBits, Carve, Message, Packs, ValidPlane, After,
      AllCodable, LE32;
    PlaneCodable(area, plane);
    var ops := PlaneOps(area, plane);
    var tokens := WriteTokens(bank, TraceOf(ops));
    var raw := WriteFields(ops);
    bytes := LE32(|tokens| % 0x1_0000_0000) + LE32(|raw| % 0x1_0000_0000) + tokens + raw;
    d := Streams(tokens, raw, cost);
  }

  /** A tile: three sections through one bank, and the bytes of its alpha section as they are. */
  method WriteTile(h: Header, a: Area, t: TileSource, ghost cost: Cost) returns (payload: seq<byte>, ghost parts: seq<Streams>)
    requires FitsTile(h, a, t)
    ensures Begun(parts, cost, h, a, t, PLANES)
    ensures AllShort(parts) ==> PayloadOf(payload, parts, cost, h, a, t)
    ensures |payload| < WORD32 ==> AllShort(parts)
  {
    hide WellFormedBank, ModelBank.Valid, ModelBank.State, PlaneTrace, EncodesPlane, Begun, After, FreshBank, AllShort, Laid, PayloadOf,
      Prefixed, ValidPlane, PlaneArea, Short;
    var bank := new ModelBank();
    payload, parts := [], [];
    NothingBegun(cost, h, a, t);
    for k := 0 to PLANES
      invariant bank.Valid() && fresh(bank) && fresh(bank.tables) && bank.State() == BankBefore(h, a, t, k)
      invariant Begun(parts, cost, h, a, t, k) && (AllShort(parts) ==> payload == Laid(parts))
      invariant |payload| < WORD32 ==> AllShort(parts)
    {
      ghost var before := bank.State();
      var bytes, d := WriteDctSection(bank, PlaneArea(a, h.chroma420, k), t.planes[k], cost);
      OneMoreBegun(parts, cost, h, a, t, k, d);
      ShortLater(parts, d);
      ShortBytes(bytes, d);
      if AllShort(parts + [d]) {
        OneMoreLaid(parts, d);
      }
      payload, parts := payload + bytes, parts + [d];
    }
    payload := payload + t.alpha;
    if AllShort(parts) {
      AllBegun(payload, parts, cost, h, a, t);
    }
  }

  lemma {:induction false} NothingBegun(cost: Cost, h: Header, a: Area, t: TileSource)
    requires FitsTile(h, a, t)
    ensures Begun([], cost, h, a, t, 0) && AllShort([]) && Laid([]) == [] && BankBefore(h, a, t, 0) == FreshBank()
  {
    NothingLaid();
  }

  lemma {:induction false} ShortLater(parts: seq<Streams>, d: Streams)
    ensures AllShort(parts + [d]) <==> AllShort(parts) && Short(d)
  {
    var more := parts + [d];
    if AllShort(more) {
      assert Short(more[|parts|]);
      assert forall j :: 0 <= j < |parts| ==> Short(more[j]) && parts[j] == more[j];
    }
  }

  lemma {:induction false} ShortBytes(bytes: seq<byte>, d: Streams)
    requires |d.tokens| <= |bytes| && |d.raw| <= |bytes|
    ensures |bytes| < WORD32 ==> Short(d)
  {
  }

  // ---- Files ----

  ghost predicate Sourced(h: Header, sources: seq<TileSource>) {
    && h.width < WORD32 && h.height < WORD32 && |sources| == TileCount(h)
    && forall i :: 0 <= i < |sources| ==> FitsTile(h, TileArea(h, i), sources[i])
  }

  /** No length anywhere in the file is cut when it is stored. */
  ghost predicate NothingCut(payloads: seq<seq<byte>>, parts: seq<seq<Streams>>) {
    && (forall i :: 0 <= i < |payloads| ==> |payloads[i]| < WORD32)
    && (forall i :: 0 <= i < |parts| ==> AllShort(parts[i]))
  }

  /** Every tile's sections are its planes', and its payload is made of them unless one of their lengths is cut. */
  ghost predicate TilesWritten(payloads: seq<seq<byte>>, parts: seq<seq<Streams>>, cost: Cost, h: Header, sources: seq<TileSource>)
    requires Sourced(h, sources) && |payloads| == |parts| <= |sources|
  {
    forall i :: 0 <= i < |parts| ==>
      && Begun(parts[i], cost, h, TileArea(h, i), sources[i], PLANES)
      && (AllShort(parts[i]) ==> PayloadOf(payloads[i], parts[i], cost, h, TileArea(h, i), sources[i]))
  }

  method WriteTiles(h: Header, sources: seq<TileSource>, ghost cost: Cost)
    returns (payloads: seq<seq<byte>>, ghost parts: seq<seq<Streams>>)
    requires Sourced(h, sources)
    ensures |payloads| == |parts| == |sources| && TilesWritten(payloads, parts, cost, h, sources)
    ensures forall i :: 0 <= i < |parts| && |payloads[i]| < WORD32 ==> AllShort(parts[i])
  {
    hide FitsTile, TileCount, PayloadOf, AllShort, Begun, TileArea;
    payloads, parts := [], [];
    for i := 0 to |sources|
      invariant |payloads| == |parts| == i && TilesWritten(payloads, parts, cost, h, sources)
      invariant forall j :: 0 <= j < i && |payloads[j]| < WORD32 ==> AllShort(parts[j])
    {
      var payload, sections := WriteTile(h, TileArea(h, i), sources[i], cost);
      payloads, parts := payloads + [payload], parts + [sections];
    }
  }

  /** The header, the length of every tile, and the tiles. */
  method Assemble(h: Header, deblock: bool, payloads: seq<seq<byte>>) returns (data: seq<byte>)
    requires h.width < WORD32 && h.height < WORD32
    ensures (forall i :: 0 <= i < |payloads| ==> |payloads[i]| < WORD32) ==> data == Assembled(h, deblock, payloads)
    ensures forall i :: 0 <= i < |payloads| ==> |payloads[i]| <= |data|
  {
    hide Serialized, LE32;
    ghost var exact := forall i :: 0 <= i < |payloads| ==> |payloads[i]| < WORD32;
    var head := Serialized(h, deblock);
    var table: seq<byte> := [];
    NothingFlat();
    for i := 0 to |payloads|
      invariant exact ==> table == Flat(Lengths(payloads)[..i])
    {
      table := table + LE32(|payloads[i]| % 0x1_0000_0000);
      if exact {
        FlatSlice(Lengths(payloads), i);
      }
    }
    var body: seq<byte> := [];
    for i := 0 to |payloads|
      invariant body == Flat(payloads[..i])
      invariant forall j :: 0 <= j < i ==> |payloads[j]| <= |body|
    {
      FlatSlice(payloads, i);
      body := body + payloads[i];
    }
    assert payloads[..|payloads|] == payloads;
    assert exact ==> Lengths(payloads)[..|payloads|] == Lengths(payloads);
    data := head + table + body;
  }

  lemma {:induction false} WrittenIsFile(data: seq<byte>, cost: Cost, h: Header, deblock: bool, payloads: seq<seq<byte>>,
                                         parts: seq<seq<Streams>>, sources: seq<TileSource>)
    requires Sourced(h, sources) && |payloads| == |parts| == |sources| && TilesWritten(payloads, parts, cost, h, sources)
    requires NothingCut(payloads, parts) && data == Assembled(h, deblock, payloads)
    ensures FileOf(data, cost, h, deblock, payloads, parts, sources)
  {
    hide FitsTile, TileCount, PayloadOf, AllShort, Assembled, TileArea, Begun;
  }

  /** The parser accepts the file and returns the planes of every tile. */
  ghost predicate ReadsBack(data: seq<byte>, cost: Cost, h: Header, sources: seq<TileSource>) {
    var res := ReadFile(data, cost);
    && res.Ok? && res.value.header == h && |res.value.tiles| == |sources|
    && forall i :: 0 <= i < |sources| ==>
         res.value.tiles[i].planes == sources[i].planes && res.value.tiles[i].alpha == |sources[i].alpha|
  }

  /**
   * The whole codec: a file is written tile by tile, and unless a length does not fit its 32 bits, which a file of
   * less than 2^32 bytes cannot have, it reads back.
   */
  method WriteFile(h: Header, deblock: bool, sources: seq<TileSource>, ghost cost: Cost)
    returns (data: seq<byte>, ghost payloads: seq<seq<byte>>, ghost parts: seq<seq<Streams>>)
    requires Sourced(h, sources)
    ensures |payloads| == |parts| == |sources| && TilesWritten(payloads, parts, cost, h, sources)
    ensures |data| < WORD32 ==> NothingCut(payloads, parts)
    ensures NothingCut(payloads, parts) ==> ReadsBack(data, cost, h, sources)
  {
    hide Sourced, TilesWritten, FileOf, ReadFile, Assembled, TileCount, TileArea, FitsTile, TraceBefore, AllShort;
    SourcedSizes(h, sources);
    var tiles, sections := WriteTiles(h, sources, cost);
    data := Assemble(h, deblock, tiles);
    payloads, parts := tiles, sections;
    if NothingCut(payloads, parts) {
      WrittenIsFile(data, cost, h, deblock, payloads, parts, sources);
      FileRoundTrip(data, cost, h, deblock, payloads, parts, sources);
    }
  }

  lemma {:induction false} SourcedSizes(h: Header, sources: seq<TileSource>)
    requires Sourced(h, sources)
    ensures h.width < WORD32 && h.height < WORD32 && |sources| == TileCount(h)
  {
  }
}
