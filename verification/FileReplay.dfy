/** The replay of a whole file: its costs by context are what the decoder was billed, kind by kind. */
module FileReplay {
  import opened Bytes
  import opened AdaptiveModels
  import opened ModelBanks
  import opened VariantBanks
  import opened PlaneSyntax
  import opened PlaneCodec
  import opened Container
  import opened TracingParser
  import opened TraceReplay

  // ---- Histories end to end ----

  predicate IsHistory(trace: seq<(Context, nat)>) {
    forall i :: 0 <= i < |trace| ==> trace[i].1 < Alphabet(KindOf(trace[i].0))
  }

  lemma {:induction false} HistoriesJoin(a: History, b: History)
    ensures IsHistory(a + b)
  {
  }

  lemma {:induction false} AfterJoin(bank: Bank, a: History, b: History)
    requires WellFormedBank(bank) && IsHistory(a + b)
    ensures After(bank, a + b) == After(After(bank, a), b)
    decreases |a|
  {
    hide Advance, WellFormedBank, KindOf;
    if a == [] {
      assert a + b == b;
    } else {
      assert (a + b)[1..] == a[1..] + b && (a + b)[0] == a[0];
      AfterJoin(Advance(bank, a[0].0, a[0].1), a[1..], b);
    }
  }

  lemma {:induction false} BillsJoin(e: Entropy, cost: Cost, bank: Bank, a: History, b: History)
    requires WellFormedBank(bank) && Covers(e) && IsHistory(a + b)
    ensures BillAll(e, cost, bank, a + b) == BillAll(BillAll(e, cost, bank, a), cost, After(bank, a), b)
    decreases |a|
  {
    hide Advance, WellFormedBank, KindOf, BillFor, Covers;
    if a == [] {
      assert a + b == b;
    } else {
      assert (a + b)[1..] == a[1..] + b && (a + b)[0] == a[0];
      BillsJoin(BillFor(e, cost, bank, a[0].0, a[0].1), cost, Advance(bank, a[0].0, a[0].1), a[1..], b);
    }
  }

  lemma {:induction false} CostsJoin(cost: Cost, bank: Bank, a: History, b: History, kind: Kind)
    requires WellFormedBank(bank) && IsHistory(a + b)
    ensures KindBits(cost, bank, a + b, kind, N_CTX) == KindBits(cost, bank, a, kind, N_CTX) + KindBits(cost, After(bank, a), b, kind, N_CTX)
    ensures KindSymbols(a + b, kind, N_CTX) == KindSymbols(a, kind, N_CTX) + KindSymbols(b, kind, N_CTX)
  {
    hide BillAll, WellFormedBank, KindBits, KindSymbols, After, Covers;
    NoBillsCover();
    BillsJoin(NO_BILLS, cost, bank, a, b);
    ReplayExplainsBills(NO_BILLS, cost, bank, a + b, kind);
    ReplayExplainsBills(NO_BILLS, cost, bank, a, kind);
    ReplayExplainsBills(BillAll(NO_BILLS, cost, bank, a), cost, After(bank, a), b, kind);
  }

  lemma {:induction false} NoBillsCover()
    ensures Covers(NO_BILLS)
  {
    NoTotalsBalanced();
    assert [NO_TOTALS, NO_TOTALS, NO_TOTALS][0] == NO_TOTALS;
  }

  // ---- One tile ----

  /** What the three planes have been billed for one kind. */
  function AllBits(totals: seq<Totals>, kind: Kind): (bits: real)
    requires Balanced(totals)
  {
    totals[0].entropy.bits[kind] + totals[1].entropy.bits[kind] + totals[2].entropy.bits[kind]
  }

  function AllSymbols(totals: seq<Totals>, kind: Kind): (n: nat)
    requires Balanced(totals)
  {
    totals[0].entropy.symbols[kind] + totals[1].entropy.symbols[kind] + totals[2].entropy.symbols[kind]
  }

  /** In the middle of a tile: the bank is what the trace made of a fresh one, and the bills are what replaying it costs. */
  ghost predicate Accounted(s: TileState, start: seq<Totals>, cost: Cost, kind: Kind)
    requires Going(s) && Balanced(start)
  {
    && IsHistory(s.trace) && s.bank == After(FreshBank(), s.trace)
    && AllBits(s.totals, kind) == AllBits(start, kind) + KindBits(cost, FreshBank(), s.trace, kind, N_CTX)
    && AllSymbols(s.totals, kind) == AllSymbols(start, kind) + KindSymbols(s.trace, kind, N_CTX)
  }

  /** One section adds the replayed costs of its own symbols to its plane, and nothing to the others. */
  lemma {:induction false} SectionBills(tile: seq<byte>, h: Header, a: Area, cost: Cost, s: TileState, kind: Kind)
    returns (symbols: History)
    requires Going(s) && |s.planes| < PLANES && TraceSection(tile, h, a, cost, s).Ok?
    ensures var n := TraceSection(tile, h, a, cost, s).value;
            && n.trace == s.trace + symbols && n.bank == After(s.bank, symbols)
            && AllBits(n.totals, kind) == AllBits(s.totals, kind) + KindBits(cost, s.bank, symbols, kind, N_CTX)
            && AllSymbols(n.totals, kind) == AllSymbols(s.totals, kind) + KindSymbols(symbols, kind, N_CTX)
  {
    hide DecodePlane, WellFormedBank, PlaneOps, TraceOf, After, KindBits, KindSymbols, ValidPlane, AllCodable, BillAll, PlaneArea,
      U32, FieldBits, Replay, Clip;
    var (start, tokens, raw) := (s.pos + 8, U32(tile, s.pos), U32(tile, s.pos + 4));
    var d := Streams(Clip(tile, start, start + tokens), Clip(tile, start + tokens, start + tokens + raw), cost);
    var area := PlaneArea(a, h.chroma420, |s.planes|);
    PlaneSound(d, CarryOf(s), area);
    symbols := TraceOf(PlaneOps(area, DecodePlane(d, CarryOf(s), area).value.plane));
    ReplayExplainsBills(s.totals[|s.planes|].entropy, cost, s.bank, symbols, kind);
  }

  lemma {:induction false} SectionAccounted(tile: seq<byte>, h: Header, a: Area, cost: Cost, s: TileState, start: seq<Totals>, kind: Kind)
    requires Going(s) && |s.planes| < PLANES && TraceSection(tile, h, a, cost, s).Ok?
    requires Balanced(start) && Accounted(s, start, cost, kind)
    ensures Accounted(TraceSection(tile, h, a, cost, s).value, start, cost, kind)
  {
    hide TraceSection, Going, Balanced, AllBits, AllSymbols, KindBits, KindSymbols, After, FreshBank, KindOf, Alphabet;
    var symbols := SectionBills(tile, h, a, cost, s, kind);
    HistoriesJoin(s.trace, symbols);
    AfterJoin(FreshBank(), s.trace, symbols);
    CostsJoin(cost, FreshBank(), s.trace, symbols, kind);
  }

  lemma {:induction false} SectionsAccounted(tile: seq<byte>, h: Header, a: Area, cost: Cost, s: TileState, start: seq<Totals>, kind: Kind)
    requires Going(s) && TraceSections(tile, h, a, cost, s).Ok?
    requires Balanced(start) && Accounted(s, start, cost, kind)
    ensures Accounted(TraceSections(tile, h, a, cost, s).value, start, cost, kind)
    decreases PLANES - |s.planes|
  {
    hide TraceSection, Accounted, Balanced;
    if |s.planes| < PLANES {
      SectionAccounted(tile, h, a, cost, s, start, kind);
      SectionsAccounted(tile, h, a, cost, TraceSection(tile, h, a, cost, s).value, start, kind);
    }
  }

  lemma {:induction false} TileStarts(totals: seq<Totals>, cost: Cost, kind: Kind)
    requires Balanced(totals)
    ensures Going(TileState(0, [], FreshBank(), [], totals))
    ensures Accounted(TileState(0, [], FreshBank(), [], totals), totals, cost, kind)
  {
    hide FreshBank, WellFormedBank, Balanced, KindBits, KindSymbols, AllBits, AllSymbols;
    NothingReplayed(cost, FreshBank(), kind, N_CTX);
  }

  lemma {:induction false} TileAccounted(data: seq<byte>, h: Header, cost: Cost, length: nat, t: Traced, kind: Kind)
    requires Balanced(t.totals) && |t.traces| < TileCount(h) && TraceTile(data, h, cost, length, t).Ok?
    ensures var (n, trace) := (TraceTile(data, h, cost, length, t).value, TraceTile(data, h, cost, length, t).value.traces[|t.traces|]);
            && n.traces == t.traces + [trace] && IsHistory(trace)
            && AllBits(n.totals, kind) == AllBits(t.totals, kind) + KindBits(cost, FreshBank(), trace, kind, N_CTX)
            && AllSymbols(n.totals, kind) == AllSymbols(t.totals, kind) + KindSymbols(trace, kind, N_CTX)
  {
    hide TraceSections, FreshBank, Balanced, KindBits, KindSymbols, AllBits, AllSymbols, TileArea, TileCount, KindOf, Alphabet, After,
      Clip;
    var tile := Clip(data, t.offset, t.offset + length);
    TileStarts(t.totals, cost, kind);
    SectionsAccounted(tile, h, TileArea(h, |t.traces|), cost, TileState(0, [], FreshBank(), [], t.totals), t.totals, kind);
  }

  // ---- The file ----

  ghost predicate AllHistories(traces: seq<seq<(Context, nat)>>) {
    forall i :: 0 <= i < |traces| ==> IsHistory(traces[i])
  }

  /** The recorded traces, as histories. */
  function Histories(traces: seq<seq<(Context, nat)>>): (histories: seq<History>)
    requires AllHistories(traces)
    ensures |histories| == |traces| && forall i :: 0 <= i < |traces| ==> histories[i] == traces[i]
  {
    seq(|traces|, i requires 0 <= i < |traces| => traces[i])
  }

  /** The replayed costs of one kind, over all its contexts and all tiles. */
  function ReplayedBits(cost: Cost, p: Priors, traces: seq<History>, kind: Kind, n: nat): (bits: real)
    requires Usable(p) && n <= N_CTX
  {
    if n == 0 then 0.0
    else
      ReplayedBits(cost, p, traces, kind, n - 1)
      + if KindOf(n - 1) == kind then TilesBits(cost, VariantBank(p), traces, n - 1) else 0.0
  }

  function ReplayedSymbols(traces: seq<History>, kind: Kind, n: nat): (count: nat)
    requires n <= N_CTX
  {
    if n == 0 then 0
    else ReplayedSymbols(traces, kind, n - 1) + if KindOf(n - 1) == kind then TilesSymbols(traces, n - 1) else 0
  }

  lemma {:induction false} NoTraces(cost: Cost, p: Priors, kind: Kind, n: nat)
    requires Usable(p) && n <= N_CTX
    ensures ReplayedBits(cost, p, [], kind, n) == 0.0 && ReplayedSymbols([], kind, n) == 0
  {
    hide Usable, VariantBank;
    if n != 0 {
      NoTraces(cost, p, kind, n - 1);
    }
  }

  /** One more tile adds its own costs, whichever way the sum is taken. */
  lemma {:induction false} OneMoreTrace(cost: Cost, p: Priors, traces: seq<History>, h: History, kind: Kind, n: nat)
    requires Usable(p) && n <= N_CTX
    ensures ReplayedBits(cost, p, traces + [h], kind, n)
         == ReplayedBits(cost, p, traces, kind, n) + KindBits(cost, VariantBank(p), h, kind, n)
    ensures ReplayedSymbols(traces + [h], kind, n) == ReplayedSymbols(traces, kind, n) + KindSymbols(h, kind, n)
  {
    hide Usable, VariantBank, ContextBits, ContextSymbols, KindOf;
    if n != 0 {
      OneMoreTrace(cost, p, traces, h, kind, n - 1);
      assert (traces + [h])[..|traces|] == traces;
    }
  }

  /** After some tiles the bills are what replaying the traces so far costs. */
  ghost predicate Balances(t: Traced, cost: Cost, kind: Kind)
    requires Balanced(t.totals)
  {
    && AllHistories(t.traces) && Usable(CurrentPriors())
    && AllBits(t.totals, kind) == ReplayedBits(cost, CurrentPriors(), Histories(t.traces), kind, N_CTX)
    && AllSymbols(t.totals, kind) == ReplayedSymbols(Histories(t.traces), kind, N_CTX)
  }

  lemma {:induction false} TileBalances(data: seq<byte>, h: Header, cost: Cost, length: nat, t: Traced, kind: Kind)
    requires Balanced(t.totals) && |t.traces| < TileCount(h) && TraceTile(data, h, cost, length, t).Ok?
    requires Balances(t, cost, kind)
    ensures Balances(TraceTile(data, h, cost, length, t).value, cost, kind)
  {
    hide TraceTile, FreshBank, Balanced, KindBits, KindSymbols, AllBits, AllSymbols, TileCount, Usable, VariantBank, CurrentPriors,
      ReplayedBits, ReplayedSymbols, KindOf, Alphabet;
    TileAccounted(data, h, cost, length, t, kind);
    CurrentBankIsFresh();
    var n := TraceTile(data, h, cost, length, t).value;
    var trace := n.traces[|t.traces|];
    assert Histories(n.traces) == Histories(t.traces) + [trace];
    OneMoreTrace(cost, CurrentPriors(), Histories(t.traces), trace, kind, N_CTX);
  }

  lemma {:induction false} TilesBalance(data: seq<byte>, h: Header, cost: Cost, t: Traced, kind: Kind)
    requires Balanced(t.totals) && |t.traces| <= TileCount(h) && HEADER_LEN + 4 * TileCount(h) <= |data|
    requires TraceTiles(data, h, cost, t).Ok? && Balances(t, cost, kind)
    ensures Balances(TraceTiles(data, h, cost, t).value, cost, kind)
    decreases TileCount(h) - |t.traces|
  {
    hide TraceTile, Balances, Balanced, TileCount, U32;
    if |t.traces| < TileCount(h) {
      var length := U32(data, HEADER_LEN + 4 * |t.traces|);
      TileBalances(data, h, cost, length, t, kind);
      TilesBalance(data, h, cost, TraceTile(data, h, cost, length, t).value, kind);
    }
  }

  lemma {:induction false} NothingBilled(kind: Kind)
    ensures NO_BILLS.symbols[kind] == 0 && NO_BILLS.bits[kind] == 0.0
  {
    match kind
    case Split =>
    case Eob =>
    case Mode =>
    case Tx =>
    case Cdef =>
    case Dc =>
    case Run =>
    case Level =>
  }

  lemma {:induction false} ZeroTotals(kind: Kind)
    ensures var totals := [NO_TOTALS, NO_TOTALS, NO_TOTALS];
            Balanced(totals) && AllBits(totals, kind) == 0.0 && AllSymbols(totals, kind) == 0
  {
    NoTotalsBalanced();
    NothingBilled(kind);
  }

  lemma {:induction false} BeginningBalances(h: Header, cost: Cost, kind: Kind)
    ensures Balances(Untraced(h), cost, kind)
  {
    hide Usable, CurrentPriors, ReplayedBits, ReplayedSymbols, TileCount, AllBits, AllSymbols, Balanced;
    CurrentBankIsFresh();
    NoTraces(cost, CurrentPriors(), kind, N_CTX);
    ZeroTotals(kind);
    assert Histories([]) == [];
  }

  /**
   * Trace replay reproduces decoding: for every file the tracing parser accepts, every cost function and every kind, what
   * the three planes were billed is what replaying the recorded traces with the current priors costs in that kind's
   * contexts.
   */
  lemma {:induction false} ReplayReproducesDecoding(data: seq<byte>, cost: Cost, kind: Kind)
    requires TraceFile(data, cost).Ok?
    ensures var t := TraceFile(data, cost).value;
            && Balanced(t.totals) && AllHistories(t.traces) && Usable(CurrentPriors())
            && AllBits(t.totals, kind) == ReplayedBits(cost, CurrentPriors(), Histories(t.traces), kind, N_CTX)
            && AllSymbols(t.totals, kind) == ReplayedSymbols(Histories(t.traces), kind, N_CTX)
  {
    hide ReadHeader, TraceTiles, TileCount, AllBits, AllSymbols, ReplayedBits, ReplayedSymbols, Histories, AllHistories, Usable,
      CurrentPriors, Balanced, Untraced;
    var h := ReadHeader(data).value;
    BeginningBalances(h, cost, kind);
    TilesBalance(data, h, cost, Untraced(h), kind);
  }
}
