/** Whole files: the container an encoder puts around its plane sections, and why the parser gets every plane back. */
module FileCodec {
  import opened Bytes
  import opened Outcome
  import opened RangeCoder
  import opened ModelBanks
  import opened RawBits
  import opened PlaneSyntax
  import opened PlaneCodec
  import opened Container

  // ---- Bytes laid end to end ----

  function LE32(v: nat): (s: seq<byte>)
    requires v < WORD32
    ensures |s| == 4
  {
    [v % 256, v / 0x100 % 256, v / 0x1_0000 % 256, v / 0x100_0000]
  }

  /** A number is what its four digits to the base 256 spell. */
  lemma {:induction false} FourDigits(v: nat)
    requires v < WORD32
    ensures v == v % 256 + 0x100 * (v / 0x100 % 256) + 0x1_0000 * (v / 0x1_0000 % 256) + 0x100_0000 * (v / 0x100_0000)
    ensures v / 0x100_0000 < 256
  {
    var b := v / 0x100;
    var c := b / 0x100;
    var d := c / 0x100;
    assert v == 256 * b + v % 256;
    assert b == 256 * c + b % 256;
    assert c == 256 * d + c % 256;
    assert c == v / 0x1_0000 && d == v / 0x100_0000;
  }

  lemma {:induction false} LE32Reads(data: seq<byte>, offset: nat, v: nat)
    requires v < WORD32 && offset + 4 <= |data| && data[offset..offset + 4] == LE32(v)
    ensures U32(data, offset) == v
  {
    FourDigits(v);
    var s := data[offset..offset + 4];
    assert data[offset] == s[0] && data[offset + 1] == s[1] && data[offset + 2] == s[2] && data[offset + 3] == s[3];
  }

  function Flat(chunks: seq<seq<byte>>): (s: seq<byte>) {
    if chunks == [] then [] else Flat(chunks[..|chunks| - 1]) + chunks[|chunks| - 1]
  }

  lemma {:induction false} FlatSlice(chunks: seq<seq<byte>>, k: nat)
    requires k < |chunks|
    ensures Flat(chunks[..k + 1]) == Flat(chunks[..k]) + chunks[k]
    ensures |Flat(chunks[..k + 1])| <= |Flat(chunks)|
    ensures Flat(chunks)[|Flat(chunks[..k])|..|Flat(chunks[..k + 1])|] == chunks[k]
    decreases |chunks|
  {
    assert chunks[..k + 1][..k] == chunks[..k];
    if k + 1 == |chunks| {
      assert chunks[..k + 1] == chunks;
    } else {
      var most := chunks[..|chunks| - 1];
      FlatSlice(most, k);
      assert most[..k] == chunks[..k] && most[..k + 1] == chunks[..k + 1];
    }
  }

  /** The same slice where the chunks stand in the middle of other bytes. */
  lemma {:induction false} FlatSliceAt(before: seq<byte>, chunks: seq<seq<byte>>, after: seq<byte>, k: nat)
    requires k < |chunks|
    ensures var (data, at) := (before + Flat(chunks) + after, |before| + |Flat(chunks[..k])|);
            at + |chunks[k]| <= |data| && data[at..at + |chunks[k]|] == chunks[k]
  {
    FlatSlice(chunks, k);
  }

  // ---- Sections and tiles ----

  predicate Short(d: Streams) {
    |d.tokens| < WORD32 && |d.raw| < WORD32
  }

  function Prefixed(d: Streams): (s: seq<byte>)
    requires Short(d)
    ensures |s| == 8 + |d.tokens| + |d.raw|
  {
    LE32(|d.tokens|) + LE32(|d.raw|) + d.tokens + d.raw
  }

  lemma {:induction false} SubSlice(data: seq<byte>, at: nat, s: seq<byte>, x: nat, y: nat)
    requires at + |s| <= |data| && data[at..at + |s|] == s && x <= y <= |s|
    ensures data[at + x..at + y] == s[x..y]
  {
    forall i | 0 <= i < y - x
      ensures data[at + x..at + y][i] == s[x..y][i]
    {
      assert data[at..at + |s|][x + i] == s[x + i];
    }
  }

  lemma {:induction false} PrefixedParts(d: Streams)
    requires Short(d)
    ensures var (s, t, r) := (Prefixed(d), |d.tokens|, |d.raw|);
            s[0..4] == LE32(t) && s[4..8] == LE32(r) && s[8..8 + t] == d.tokens && s[8 + t..8 + t + r] == d.raw
  {
    hide LE32;
  }

  lemma {:induction false} SectionIsThere(tile: seq<byte>, pos: nat, d: Streams)
    requires Short(d) && pos + |Prefixed(d)| <= |tile| && tile[pos..pos + |Prefixed(d)|] == Prefixed(d)
    ensures SectionAt(tile, pos, d.cost) == Ok(d)
  {
    hide Prefixed, LE32, U32;
    var (s, t, r) := (Prefixed(d), |d.tokens|, |d.raw|);
    PrefixedParts(d);
    SubSlice(tile, pos, s, 0, 4);
    SubSlice(tile, pos, s, 4, 8);
    SubSlice(tile, pos, s, 8, 8 + t);
    SubSlice(tile, pos, s, 8 + t, 8 + t + r);
    LE32Reads(tile, pos, t);
    LE32Reads(tile, pos + 4, r);
  }

  /** The planes of a tile, and what an encoder puts after them. */
  datatype TileSource = TileSource(planes: seq<Plane>, alpha: seq<byte>)

  ghost predicate FitsTile(h: Header, a: Area, t: TileSource) {
    && |t.planes| == PLANES && (!h.alpha ==> t.alpha == [])
    && forall k :: 0 <= k < PLANES ==> ValidPlane(PlaneArea(a, h.chroma420, k), t.planes[k])
  }

  function PlaneTrace(a: Area, plane: Plane): (h: History)
    requires ValidPlane(a, plane)
  {
    PlaneCodable(a, plane);
    TraceOf(PlaneOps(a, plane))
  }

  ghost predicate SectionOf(d: Streams, bank: Bank, a: Area, plane: Plane)
    requires WellFormedBank(bank) && ValidPlane(a, plane)
  {
    Short(d) && EncodesPlane(d, bank, a, plane)
  }

  function BankBefore(h: Header, a: Area, t: TileSource, k: nat): (b: Bank)
    requires FitsTile(h, a, t) && k <= PLANES
    ensures WellFormedBank(b)
  {
    if k == 0 then FreshBank()
    else After(BankBefore(h, a, t, k - 1), PlaneTrace(PlaneArea(a, h.chroma420, k - 1), t.planes[k - 1]))
  }

  function TraceBefore(h: Header, a: Area, t: TileSource, k: nat): (trace: seq<(Context, nat)>)
    requires FitsTile(h, a, t) && k <= PLANES
  {
    if k == 0 then []
    else TraceBefore(h, a, t, k - 1) + PlaneTrace(PlaneArea(a, h.chroma420, k - 1), t.planes[k - 1])
  }

  /** Each plane's section, its models carried over from the planes before. */
  ghost predicate SectionsOf(parts: seq<Streams>, cost: Cost, h: Header, a: Area, t: TileSource)
    requires FitsTile(h, a, t)
  {
    && |parts| == PLANES
    && forall k :: 0 <= k < PLANES ==>
         parts[k].cost == cost && SectionOf(parts[k], BankBefore(h, a, t, k), PlaneArea(a, h.chroma420, k), t.planes[k])
  }

  function Chunks(parts: seq<Streams>): (chunks: seq<seq<byte>>)
    requires forall k :: 0 <= k < |parts| ==> Short(parts[k])
    ensures |chunks| == |parts|
  {
    seq(|parts|, k requires 0 <= k < |parts| => Prefixed(parts[k]))
  }

  ghost predicate PayloadOf(payload: seq<byte>, parts: seq<Streams>, cost: Cost, h: Header, a: Area, t: TileSource)
    requires FitsTile(h, a, t)
  {
    SectionsOf(parts, cost, h, a, t) && payload == Flat(Chunks(parts)) + t.alpha
  }

  /** Where the reader of a written tile stands after `k` planes. */
  ghost predicate Standing(s: TileState, parts: seq<Streams>, cost: Cost, h: Header, a: Area, t: TileSource, k: nat)
    requires FitsTile(h, a, t) && SectionsOf(parts, cost, h, a, t) && k <= PLANES
  {
    && Going(s) && s.planes == t.planes[..k] && s.pos == |Flat(Chunks(parts)[..k])|
    && s.bank == BankBefore(h, a, t, k) && s.trace == TraceBefore(h, a, t, k)
  }

  lemma {:induction false} SectionReads(payload: seq<byte>, parts: seq<Streams>, cost: Cost, h: Header, a: Area, t: TileSource,
                                        s: TileState, k: nat)
    requires FitsTile(h, a, t) && PayloadOf(payload, parts, cost, h, a, t) && k < PLANES
    requires Standing(s, parts, cost, h, a, t, k) && s.pos <= |payload|
    ensures var res := ReadSection(payload, h, a, cost, s); res.Ok? && Standing(res.value, parts, cost, h, a, t, k + 1)
  {
    hide FreshBank, After, TraceOf, PlaneOps, ValidPlane, DecodePlane, EncodesPlane, BillAll, AllCodable, Covers,
      WellFormedBank, Flat, Prefixed, PlaneArea, SectionAt;
    var (area, plane, d) := (PlaneArea(a, h.chroma420, k), t.planes[k], parts[k]);
    FlatSliceAt([], Chunks(parts), t.alpha, k);
    assert [] + Flat(Chunks(parts)) + t.alpha == payload;
    FlatSlice(Chunks(parts), k);
    SectionIsThere(payload, s.pos, d);
    PlaneRoundTrip(d, CarryOf(s), area, plane);
    assert t.planes[..k] + [plane] == t.planes[..k + 1];
  }

  lemma {:induction false} StandsAt(s: TileState, payload: seq<byte>, parts: seq<Streams>, cost: Cost, h: Header, a: Area, t: TileSource, k: nat)
    requires FitsTile(h, a, t) && PayloadOf(payload, parts, cost, h, a, t) && k <= PLANES && Standing(s, parts, cost, h, a, t, k)
    ensures Going(s) && |s.planes| == k
  {
    hide Flat, Prefixed, WellFormedBank, BankBefore, TraceBefore, ValidPlane, PlaneArea;
  }

  lemma {:induction false} PartsShort(parts: seq<Streams>, cost: Cost, h: Header, a: Area, t: TileSource)
    requires FitsTile(h, a, t) && SectionsOf(parts, cost, h, a, t)
    ensures |parts| == PLANES && forall k :: 0 <= k < |parts| ==> Short(parts[k])
  {
    hide BankBefore, PlaneArea, ValidPlane, Encodes, WellFormedBank, AllCodable, PlaneOps;
  }

  lemma {:induction false} SectionsRead(payload: seq<byte>, parts: seq<Streams>, cost: Cost, h: Header, a: Area, t: TileSource,
                                        s: TileState, k: nat)
    requires FitsTile(h, a, t) && PayloadOf(payload, parts, cost, h, a, t) && k <= PLANES
    requires Standing(s, parts, cost, h, a, t, k) && s.pos <= |payload|
    ensures var res := ReadSections(payload, h, a, cost, s); res.Ok? && Standing(res.value, parts, cost, h, a, t, PLANES)
    decreases PLANES - k
  {
    hide Standing, SectionsOf, PayloadOf, FitsTile, ReadSection, Going;
    StandsAt(s, payload, parts, cost, h, a, t, k);
    if k < PLANES {
      SectionReads(payload, parts, cost, h, a, t, s, k);
      SectionsRead(payload, parts, cost, h, a, t, ReadSection(payload, h, a, cost, s).value, k + 1);
    }
  }

  /** A written tile reads back, whatever stands around it. */
  lemma {:induction false} TileReads(data: seq<byte>, h: Header, cost: Cost, s: FileState, payload: seq<byte>, parts: seq<Streams>, t: TileSource)
    requires Balanced(s.totals) && |s.tiles| < TileCount(h) && FitsTile(h, TileArea(h, |s.tiles|), t)
    requires PayloadOf(payload, parts, cost, h, TileArea(h, |s.tiles|), t)
    requires s.offset + |payload| <= |data| && data[s.offset..s.offset + |payload|] == payload
    ensures var (a, res) := (TileArea(h, |s.tiles|), ReadTile(data, h, cost, |payload|, s));
            && res.Ok? && res.value.offset == s.offset + |payload|
            && res.value.tiles == s.tiles + [Tile(t.planes, TraceBefore(h, a, t, PLANES), |t.alpha|)]
  {
    hide Standing, SectionsOf, PayloadOf, FitsTile, FreshBank, Balanced, Going, ReadSections, TileCount, TileArea, TraceBefore;
    var a := TileArea(h, |s.tiles|);
    TileBegins(s.totals, payload, parts, cost, h, a, t);
    var begin := TileState(0, [], FreshBank(), [], s.totals);
    StandsAt(begin, payload, parts, cost, h, a, t, 0);
    SectionsRead(payload, parts, cost, h, a, t, begin, 0);
    TileEnds(ReadSections(payload, h, a, cost, begin).value, payload, parts, cost, h, a, t);
  }

  lemma {:induction false} TileBegins(totals: seq<Totals>, payload: seq<byte>, parts: seq<Streams>, cost: Cost, h: Header, a: Area, t: TileSource)
    requires Balanced(totals) && FitsTile(h, a, t) && PayloadOf(payload, parts, cost, h, a, t)
    ensures Standing(TileState(0, [], FreshBank(), [], totals), parts, cost, h, a, t, 0)
  {
    hide SectionsOf, FitsTile, FreshBank, Balanced, Prefixed, WellFormedBank;
    PartsShort(parts, cost, h, a, t);
    assert Chunks(parts)[..0] == [] && t.planes[..0] == [];
  }

  lemma {:induction false} TileEnds(s: TileState, payload: seq<byte>, parts: seq<Streams>, cost: Cost, h: Header, a: Area, t: TileSource)
    requires FitsTile(h, a, t) && PayloadOf(payload, parts, cost, h, a, t) && Standing(s, parts, cost, h, a, t, PLANES)
    ensures s.planes == t.planes && s.pos + |t.alpha| == |payload| && s.trace == TraceBefore(h, a, t, PLANES)
    ensures Going(s) && (!h.alpha ==> t.alpha == [])
  {
    hide Flat, Prefixed, WellFormedBank, BankBefore, TraceBefore, ValidPlane, PlaneArea, SectionsOf;
    PartsShort(parts, cost, h, a, t);
    assert Chunks(parts)[..PLANES] == Chunks(parts) && t.planes[..PLANES] == t.planes;
  }

  lemma {:induction false} NothingFlat()
    ensures Flat([]) == []
  {
  }

  // ---- Files ----

  const MAGIC: seq<byte> := [0x8f, 0x46, 0x52, 0x49]

  function Flags(h: Header, deblock: bool): (flags: byte) {
    (if h.alpha then 2 else 0) + (if h.chroma420 then 4 else 0) + (if deblock then 0x20 else 0)
  }

  /** The header as it is serialised: depth 8, tiles of 2^8, three reserved bytes. */
  function Serialized(h: Header, deblock: bool): (s: seq<byte>)
    requires h.width < WORD32 && h.height < WORD32
    ensures |s| == HEADER_LEN
  {
    MAGIC + [7, Flags(h, deblock)] + LE32(h.width) + LE32(h.height) + [8, h.quality, 8, 0, 0, 0]
  }

  lemma {:induction false} HeaderReads(h: Header, deblock: bool, rest: seq<byte>)
    requires h.width < WORD32 && h.height < WORD32
    ensures ReadHeader(Serialized(h, deblock) + rest) == Ok(h)
  {
    var (s, data) := (Serialized(h, deblock), Serialized(h, deblock) + rest);
    assert data[..4] == MAGIC && data[4] == 7 && data[5] == Flags(h, deblock) && data[15] == h.quality;
    assert data[6..10] == LE32(h.width) && data[10..14] == LE32(h.height);
    LE32Reads(data, 6, h.width);
    LE32Reads(data, 10, h.height);
  }

  function Lengths(payloads: seq<seq<byte>>): (chunks: seq<seq<byte>>)
    requires forall i :: 0 <= i < |payloads| ==> |payloads[i]| < WORD32
    ensures |chunks| == |payloads|
  {
    seq(|payloads|, i requires 0 <= i < |payloads| => LE32(|payloads[i]|))
  }

  lemma {:induction false} TableSize(chunks: seq<seq<byte>>)
    requires forall i :: 0 <= i < |chunks| ==> |chunks[i]| == 4
    ensures |Flat(chunks)| == 4 * |chunks|
  {
    if chunks != [] {
      TableSize(chunks[..|chunks| - 1]);
    }
  }

  function Assembled(h: Header, deblock: bool, payloads: seq<seq<byte>>): (data: seq<byte>)
    requires h.width < WORD32 && h.height < WORD32 && forall i :: 0 <= i < |payloads| ==> |payloads[i]| < WORD32
  {
    Serialized(h, deblock) + Flat(Lengths(payloads)) + Flat(payloads)
  }

  /** What has been read of a written file after `i` tiles. */
  ghost predicate TilesRead(s: FileState, h: Header, payloads: seq<seq<byte>>, sources: seq<TileSource>, i: nat)
    requires |sources| == |payloads| == TileCount(h) && i <= |sources|
    requires forall j :: 0 <= j < |sources| ==> FitsTile(h, TileArea(h, j), sources[j])
  {
    && Balanced(s.totals) && |s.tiles| == i && s.offset == HEADER_LEN + 4 * |payloads| + |Flat(payloads[..i])|
    && forall j :: 0 <= j < i ==>
         s.tiles[j] == Tile(sources[j].planes, TraceBefore(h, TileArea(h, j), sources[j], PLANES), |sources[j].alpha|)
  }

  /** A file an encoder assembled from the tiles of `sources`. */
  ghost predicate FileOf(data: seq<byte>, cost: Cost, h: Header, deblock: bool, payloads: seq<seq<byte>>,
                         parts: seq<seq<Streams>>, sources: seq<TileSource>)
  {
    && h.width < WORD32 && h.height < WORD32 && |payloads| == |parts| == |sources| == TileCount(h)
    && (forall i :: 0 <= i < |payloads| ==> |payloads[i]| < WORD32)
    && (forall i :: 0 <= i < |sources| ==> FitsTile(h, TileArea(h, i), sources[i]))
    && (forall i :: 0 <= i < |sources| ==> PayloadOf(payloads[i], parts[i], cost, h, TileArea(h, i), sources[i]))
    && data == Assembled(h, deblock, payloads)
  }

  lemma {:induction false} TileIsThere(data: seq<byte>, cost: Cost, h: Header, deblock: bool, payloads: seq<seq<byte>>,
                                       parts: seq<seq<Streams>>, sources: seq<TileSource>, i: nat)
    requires FileOf(data, cost, h, deblock, payloads, parts, sources) && i < |payloads|
    ensures HEADER_LEN + 4 * |payloads| <= |data| && U32(data, HEADER_LEN + 4 * i) == |payloads[i]|
    ensures var at := HEADER_LEN + 4 * |payloads| + |Flat(payloads[..i])|;
            && at + |payloads[i]| <= |data| && data[at..at + |payloads[i]|] == payloads[i]
            && at + |payloads[i]| == HEADER_LEN + 4 * |payloads| + |Flat(payloads[..i + 1])|
  {
    hide FitsTile, PayloadOf, Serialized, Flat, TileCount, LE32, U32;
    var (head, table) := (Serialized(h, deblock), Lengths(payloads));
    TableSize(table);
    TableSize(table[..i]);
    FlatSliceAt(head, table, Flat(payloads), i);
    assert table[i] == LE32(|payloads[i]|);
    LE32Reads(data, HEADER_LEN + 4 * i, |payloads[i]|);
    FlatSlice(payloads, i);
    FlatSliceAt(head + Flat(table), payloads, [], i);
    assert head + Flat(table) + Flat(payloads) + [] == data;
  }

  lemma {:induction false} TilesReadOn(data: seq<byte>, cost: Cost, h: Header, deblock: bool, payloads: seq<seq<byte>>,
                                       parts: seq<seq<Streams>>, sources: seq<TileSource>, s: FileState, i: nat)
    requires FileOf(data, cost, h, deblock, payloads, parts, sources) && i <= |payloads| && TilesRead(s, h, payloads, sources, i)
    requires HEADER_LEN + 4 * TileCount(h) <= |data| && s.offset <= |data|
    ensures var res := ReadTiles(data, h, cost, s); res.Ok? && TilesRead(res.value, h, payloads, sources, |payloads|)
    decreases |payloads| - i
  {
    hide Flat, TileCount, TileArea, U32, ReadTile, FitsTile, PayloadOf, TraceBefore, Assembled, Balanced;
    if i < |payloads| {
      TileIsThere(data, cost, h, deblock, payloads, parts, sources, i);
      TileReads(data, h, cost, s, payloads[i], parts[i], sources[i]);
      TilesReadOn(data, cost, h, deblock, payloads, parts, sources, ReadTile(data, h, cost, |payloads[i]|, s).value, i + 1);
    }
  }

  /**
   * A file that an encoder assembled is accepted, and every plane of every tile comes back, with the symbols it was
   * coded in and as many alpha bytes as were put in.
   */
  lemma {:induction false} FileRoundTrip(data: seq<byte>, cost: Cost, h: Header, deblock: bool, payloads: seq<seq<byte>>,
                                         parts: seq<seq<Streams>>, sources: seq<TileSource>)
    requires FileOf(data, cost, h, deblock, payloads, parts, sources)
    ensures var res := ReadFile(data, cost);
            && res.Ok? && res.value.header == h && |res.value.tiles| == |sources|
            && forall i :: 0 <= i < |sources| ==>
                 res.value.tiles[i] == Tile(sources[i].planes, TraceBefore(h, TileArea(h, i), sources[i], PLANES), |sources[i].alpha|)
  {
    hide FileOf, TilesRead, TileCount, TileArea, ReadTiles, FitsTile, TraceBefore, ReadHeader, Beginning, Flat, Balanced;
    FileFrame(data, cost, h, deblock, payloads, parts, sources);
    FileBegins(data, cost, h, deblock, payloads, parts, sources);
    TilesReadOn(data, cost, h, deblock, payloads, parts, sources, Beginning(h), 0);
    FileEnds(data, cost, h, deblock, payloads, parts, sources, ReadTiles(data, h, cost, Beginning(h)).value);
  }

  lemma {:induction false} FileFrame(data: seq<byte>, cost: Cost, h: Header, deblock: bool, payloads: seq<seq<byte>>,
                                     parts: seq<seq<Streams>>, sources: seq<TileSource>)
    requires FileOf(data, cost, h, deblock, payloads, parts, sources)
    ensures ReadHeader(data) == Ok(h) && |data| == HEADER_LEN + 4 * TileCount(h) + |Flat(payloads)|
  {
    hide Flat, TileCount, TileArea, FitsTile, PayloadOf, Serialized, ReadHeader, LE32;
    var (head, table) := (Serialized(h, deblock), Flat(Lengths(payloads)));
    assert data == head + (table + Flat(payloads));
    HeaderReads(h, deblock, table + Flat(payloads));
    TableSize(Lengths(payloads));
  }

  lemma {:induction false} FileBegins(data: seq<byte>, cost: Cost, h: Header, deblock: bool, payloads: seq<seq<byte>>,
                                      parts: seq<seq<Streams>>, sources: seq<TileSource>)
    requires FileOf(data, cost, h, deblock, payloads, parts, sources)
    ensures TilesRead(Beginning(h), h, payloads, sources, 0)
  {
    hide TileCount, TileArea, FitsTile, PayloadOf, Assembled, Balanced, Beginning;
    assert payloads[..0] == [];
  }

  lemma {:induction false} FileEnds(data: seq<byte>, cost: Cost, h: Header, deblock: bool, payloads: seq<seq<byte>>,
                                    parts: seq<seq<Streams>>, sources: seq<TileSource>, s: FileState)
    requires FileOf(data, cost, h, deblock, payloads, parts, sources) && TilesRead(s, h, payloads, sources, |payloads|)
    ensures s.offset == HEADER_LEN + 4 * TileCount(h) + |Flat(payloads)| && |s.tiles| == |sources|
    ensures forall i :: 0 <= i < |sources| ==>
              s.tiles[i] == Tile(sources[i].planes, TraceBefore(h, TileArea(h, i), sources[i], PLANES), |sources[i].alpha|)
  {
    hide TileCount, TileArea, FitsTile, PayloadOf, Assembled, Balanced, TraceBefore, Flat;
    assert payloads[..|payloads|] == payloads;
  }
}
