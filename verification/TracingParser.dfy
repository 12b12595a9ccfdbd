/** The parser that records traces: the reader with fewer length checks, and exactly when the two accept the same file. */
module TracingParser {
  import opened Bytes
  import opened Outcome
  import opened RangeCoder
  import opened ModelBanks
  import opened RawBits
  import opened PlaneSyntax
  import opened PlaneCodec
  import opened Container

  /** A slice that stops where the bytes end. */
  function Clip(s: seq<byte>, from: nat, to: nat): (slice: seq<byte>)
    requires from <= to
  {
    s[Min(from, |s|)..Min(to, |s|)]
  }

  /** A section may claim more than its tile holds: its streams are what there is. */
  function TraceSection(tile: seq<byte>, h: Header, a: Area, cost: Cost, s: TileState): (res: Result<TileState>)
    requires Going(s) && |s.planes| < PLANES
    ensures res.Ok? ==> Going(res.value) && |res.value.planes| == |s.planes| + 1 && s.pos <= res.value.pos
  {
    if s.pos + 8 > |tile| then Err(SectionHeaderCut)
    else
      var (start, tokens, raw) := (s.pos + 8, U32(tile, s.pos), U32(tile, s.pos + 4));
      var d := Streams(Clip(tile, start, start + tokens), Clip(tile, start + tokens, start + tokens + raw), cost);
      var area := PlaneArea(a, h.chroma420, |s.planes|);
      var out :- DecodePlane(d, CarryOf(s), area);
      DecodedIsValid(d, CarryOf(s), area);
      Ok(Entered(s, tokens, raw, area, out))
  }

  function TraceSections(tile: seq<byte>, h: Header, a: Area, cost: Cost, s: TileState): (res: Result<TileState>)
    requires Going(s)
    ensures res.Ok? ==> Going(res.value) && |res.value.planes| == PLANES && s.pos <= res.value.pos
    decreases PLANES - |s.planes|
  {
    if |s.planes| == PLANES then Ok(s)
    else
      var next :- TraceSection(tile, h, a, cost, s);
      TraceSections(tile, h, a, cost, next)
  }

  /** What is recorded of the tiles, and what their sections leave of each: less than nothing if they claim more than it holds. */
  datatype Traced = Traced(offset: nat, traces: seq<seq<(Context, nat)>>, totals: seq<Totals>, left: seq<int>)

  function TraceTile(data: seq<byte>, h: Header, cost: Cost, length: nat, t: Traced): (res: Result<Traced>)
    requires Balanced(t.totals) && |t.traces| < TileCount(h)
    ensures res.Ok? ==> Balanced(res.value.totals) && |res.value.traces| == |t.traces| + 1 && res.value.offset == t.offset + length
    ensures res.Ok? ==> |res.value.left| == |t.left| + 1 && t.left == res.value.left[..|t.left|]
  {
    var tile := Clip(data, t.offset, t.offset + length);
    var end :- TraceSections(tile, h, TileArea(h, |t.traces|), cost, TileState(0, [], FreshBank(), [], t.totals));
    Ok(Traced(t.offset + length, t.traces + [end.trace], end.totals, t.left + [|tile| - end.pos]))
  }

  function TraceTiles(data: seq<byte>, h: Header, cost: Cost, t: Traced): (res: Result<Traced>)
    requires Balanced(t.totals) && |t.traces| <= TileCount(h) && HEADER_LEN + 4 * TileCount(h) <= |data|
    ensures res.Ok? ==> Balanced(res.value.totals) && t.offset <= res.value.offset && t.left <= res.value.left
    decreases TileCount(h) - |t.traces|
  {
    if |t.traces| == TileCount(h) then Ok(t)
    else
      var next :- TraceTile(data, h, cost, U32(data, HEADER_LEN + 4 * |t.traces|), t);
      TraceTiles(data, h, cost, next)
  }

  function Untraced(h: Header): (t: Traced)
    ensures Balanced(t.totals) && t.traces == []
  {
    NoTotalsBalanced();
    Traced(HEADER_LEN + 4 * TileCount(h), [], [NO_TOTALS, NO_TOTALS, NO_TOTALS], [])
  }

  function TraceFile(data: seq<byte>, cost: Cost): (res: Result<Traced>)
    ensures res.Ok? ==> Balanced(res.value.totals) && ReadHeader(data).Ok?
  {
    var h :- ReadHeader(data);
    if HEADER_LEN + 4 * TileCount(h) > |data| then Err(TruncatedTable)
    else
      var end :- TraceTiles(data, h, cost, Untraced(h));
      if end.offset != |data| then Err(FileTrailing) else Ok(end)
  }

  // ---- What the reader checks besides ----

  /** The sections fill their tile, or leave it to an alpha section. */
  predicate Fits(h: Header, left: int) {
    0 <= left && (h.alpha || left == 0)
  }

  predicate AllFit(h: Header, left: seq<int>) {
    forall i :: 0 <= i < |left| ==> Fits(h, left[i])
  }

  lemma {:induction false} SectionAgrees(tile: seq<byte>, h: Header, a: Area, cost: Cost, s: TileState)
    requires Going(s) && |s.planes| < PLANES && s.pos <= |tile|
    ensures ReadSection(tile, h, a, cost, s).Ok?
            <==> TraceSection(tile, h, a, cost, s).Ok? && TraceSection(tile, h, a, cost, s).value.pos <= |tile|
    ensures ReadSection(tile, h, a, cost, s).Ok? ==> ReadSection(tile, h, a, cost, s) == TraceSection(tile, h, a, cost, s)
  {
    hide DecodePlane, WellFormedBank, Balanced, PlaneArea, U32, ValidPlane, AddSection;
  }

  lemma {:induction false} SectionsAgree(tile: seq<byte>, h: Header, a: Area, cost: Cost, s: TileState)
    requires Going(s) && s.pos <= |tile|
    ensures ReadSections(tile, h, a, cost, s).Ok?
            <==> TraceSections(tile, h, a, cost, s).Ok? && TraceSections(tile, h, a, cost, s).value.pos <= |tile|
    ensures ReadSections(tile, h, a, cost, s).Ok? ==> ReadSections(tile, h, a, cost, s) == TraceSections(tile, h, a, cost, s)
    decreases PLANES - |s.planes|
  {
    hide ReadSection, TraceSection, WellFormedBank, Balanced;
    if |s.planes| < PLANES {
      SectionAgrees(tile, h, a, cost, s);
      if ReadSection(tile, h, a, cost, s).Ok? {
        SectionsAgree(tile, h, a, cost, ReadSection(tile, h, a, cost, s).value);
      }
    }
  }

  ghost predicate Matches(s: FileState, t: Traced) {
    && s.offset == t.offset && s.totals == t.totals && |s.tiles| == |t.traces| == |t.left|
    && (forall i :: 0 <= i < |s.tiles| ==> s.tiles[i].trace == t.traces[i] && s.tiles[i].alpha == t.left[i])
  }

  lemma {:induction false} TileAgrees(data: seq<byte>, h: Header, cost: Cost, length: nat, s: FileState, t: Traced)
    requires Balanced(s.totals) && |s.tiles| < TileCount(h) && s.offset <= |data| && Matches(s, t)
    ensures var (read, traced) := (ReadTile(data, h, cost, length, s), TraceTile(data, h, cost, length, t));
            && (read.Ok? <==> traced.Ok? && traced.value.offset <= |data| && Fits(h, traced.value.left[|t.left|]))
            && (read.Ok? ==> Matches(read.value, traced.value))
  {
    hide ReadSections, TraceSections, FreshBank, WellFormedBank, Balanced, TileCount, TileArea;
    StartsGoing(s.totals);
    if s.offset + length <= |data| {
      var tile := data[s.offset..s.offset + length];
      assert tile == Clip(data, t.offset, t.offset + length);
      SectionsAgree(tile, h, TileArea(h, |s.tiles|), cost, TileState(0, [], FreshBank(), [], s.totals));
    }
  }

  lemma {:induction false} StartsGoing(totals: seq<Totals>)
    requires Balanced(totals)
    ensures Going(TileState(0, [], FreshBank(), [], totals))
  {
    hide FreshBank, WellFormedBank, Balanced;
  }

  lemma {:induction false} TilesAgree(data: seq<byte>, h: Header, cost: Cost, s: FileState, t: Traced)
    requires Balanced(s.totals) && |s.tiles| <= TileCount(h) && s.offset <= |data| && HEADER_LEN + 4 * TileCount(h) <= |data|
    requires Matches(s, t) && AllFit(h, t.left)
    ensures var (read, traced) := (ReadTiles(data, h, cost, s), TraceTiles(data, h, cost, t));
            && (read.Ok? <==> traced.Ok? && traced.value.offset <= |data| && AllFit(h, traced.value.left))
            && (read.Ok? ==> Matches(read.value, traced.value))
    decreases TileCount(h) - |s.tiles|
  {
    hide ReadTile, TraceTile, Balanced, TileCount, U32, Fits;
    if |s.tiles| < TileCount(h) {
      var length := U32(data, HEADER_LEN + 4 * |s.tiles|);
      TileAgrees(data, h, cost, length, s, t);
      var traced := TraceTile(data, h, cost, length, t);
      if ReadTile(data, h, cost, length, s).Ok? {
        TilesAgree(data, h, cost, ReadTile(data, h, cost, length, s).value, traced.value);
      } else if traced.Ok? && TraceTiles(data, h, cost, traced.value).Ok? {
        var end := TraceTiles(data, h, cost, traced.value).value;
        assert end.left[|t.left|] == traced.value.left[|t.left|];
      }
    }
  }

  /**
   * The reader accepts what the tracing parser accepts, if and only if the sections of every tile fill it, or leave the
   * rest to an alpha section; then both have decoded the same symbols, and report the same totals.
   */
  lemma {:induction false} AcceptedAlike(data: seq<byte>, cost: Cost)
    ensures ReadFile(data, cost).Ok? <==> TraceFile(data, cost).Ok? && AllFit(ReadHeader(data).value, TraceFile(data, cost).value.left)
    ensures ReadFile(data, cost).Ok? ==>
              var (f, t) := (ReadFile(data, cost).value, TraceFile(data, cost).value);
              && f.totals == t.totals && |f.tiles| == |t.traces|
              && forall i :: 0 <= i < |f.tiles| ==> f.tiles[i].trace == t.traces[i]
  {
    hide ReadHeader, ReadTiles, TraceTiles, TileCount, Balanced, AlphaBytes, Fits;
    if ReadHeader(data).Ok? && HEADER_LEN + 4 * TileCount(ReadHeader(data).value) <= |data| {
      var h := ReadHeader(data).value;
      TilesAgree(data, h, cost, Beginning(h), Untraced(h));
    }
  }
}
