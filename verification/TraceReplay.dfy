/** Replaying recorded traces through fresh banks: per-context costs, and why they add up to the decoder's own bills. */
module TraceReplay {
  import opened AdaptiveModels
  import opened ModelBanks
  import opened BankMachines
  import opened VariantBanks

  // ---- Costs by context ----

  /** What the symbols of context `c` in a history cost, each at the table prepared for it. */
  function ContextBits(cost: Cost, b: Bank, h: History, c: Context): (bits: real)
    requires WellFormedBank(b)
    decreases |h|
  {
    if h == [] then 0.0
    else
      (if h[0].0 == c then CostOf(cost, b, h[0].0, h[0].1) else 0.0)
      + ContextBits(cost, Advance(b, h[0].0, h[0].1), h[1..], c)
  }

  function CostOf(cost: Cost, b: Bank, c: Context, symbol: nat): (bits: real)
    requires WellFormedBank(b) && symbol < Alphabet(KindOf(c))
  {
    cost(Charged(b, c, symbol).0, Charged(b, c, symbol).1)
  }

  function ContextSymbols(h: History, c: Context): (n: nat) {
    if h == [] then 0 else (if h[0].0 == c then 1 else 0) + ContextSymbols(h[1..], c)
  }

  /** Tiles are independent: each starts from the same bank. */
  function TilesBits(cost: Cost, b: Bank, traces: seq<History>, c: Context): (bits: real)
    requires WellFormedBank(b)
  {
    if traces == [] then 0.0
    else TilesBits(cost, b, traces[..|traces| - 1], c) + ContextBits(cost, b, traces[|traces| - 1], c)
  }

  function TilesSymbols(traces: seq<History>, c: Context): (n: nat) {
    if traces == [] then 0 else TilesSymbols(traces[..|traces| - 1], c) + ContextSymbols(traces[|traces| - 1], c)
  }

  // ---- The replay ----

  function Got<K, V>(m: map<K, V>, k: K, default: V): V {
    if k in m then m[k] else default
  }

  /** Replays every tile through a new bank with the given priors, adding up costs and symbols by context. */
  method ReplayPerContext(traces: seq<History>, p: Priors, cost: Cost)
    returns (bits: map<Context, real>, symbols: map<Context, nat>)
    requires Usable(p)
    ensures forall c: Context :: Got(bits, c, 0.0) == TilesBits(cost, VariantBank(p), traces, c)
    ensures forall c: Context :: Got(symbols, c, 0) == TilesSymbols(traces, c)
  {
    hide VariantBank, Usable, ContextBits, ContextSymbols;
    bits, symbols := map[], map[];
    for t := 0 to |traces|
      invariant forall c: Context :: Got(bits, c, 0.0) == TilesBits(cost, VariantBank(p), traces[..t], c)
      invariant forall c: Context :: Got(symbols, c, 0) == TilesSymbols(traces[..t], c)
    {
      assert traces[..t + 1][..t] == traces[..t];
      bits, symbols := ReplayTile(traces[t], p, cost, bits, symbols);
    }
    assert traces[..|traces|] == traces;
  }

  method ReplayTile(h: History, p: Priors, cost: Cost, bits0: map<Context, real>, symbols0: map<Context, nat>)
    returns (bits: map<Context, real>, symbols: map<Context, nat>)
    requires Usable(p)
    ensures forall c: Context :: Got(bits, c, 0.0) == Got(bits0, c, 0.0) + ContextBits(cost, VariantBank(p), h, c)
    ensures forall c: Context :: Got(symbols, c, 0) == Got(symbols0, c, 0) + ContextSymbols(h, c)
  {
    hide VariantBank, Usable, Advance, ModelBank.Valid, ModelBank.State, WellFormedBank, Charged;
    bits, symbols := bits0, symbols0;
    var bank := new ModelBank.Variant(p);
    bank.ValidMeansWellFormed();
    var i := 0;
    while i < |h|
      invariant i <= |h| && bank.Valid() && fresh(bank) && fresh(bank.tables) && WellFormedBank(bank.State())
      invariant forall c: Context :: Got(bits, c, 0.0) + ContextBits(cost, bank.State(), h[i..], c)
                                  == Got(bits0, c, 0.0) + ContextBits(cost, VariantBank(p), h, c)
      invariant forall c: Context :: Got(symbols, c, 0) + ContextSymbols(h[i..], c)
                                  == Got(symbols0, c, 0) + ContextSymbols(h, c)
    {
      assert h[i..][0] == h[i] && h[i..][1..] == h[i + 1..];
      var (context, symbol) := h[i];
      ghost var b := bank.State();
      var charged := bank.ObserveTables(context, symbol);
      bank.ValidMeansWellFormed();
      bits := bits[context := Got(bits, context, 0.0) + cost(charged.0, charged.1)];
      symbols := symbols[context := Got(symbols, context, 0) + 1];
      i := i + 1;
    }
  }

  // ---- The decoder's bills are the sums of the replayed costs ----

  /** The replayed costs of the contexts of one kind, over the first `n` contexts. */
  function KindBits(cost: Cost, b: Bank, h: History, kind: Kind, n: nat): (bits: real)
    requires WellFormedBank(b) && n <= N_CTX
  {
    if n == 0 then 0.0
    else KindBits(cost, b, h, kind, n - 1) + (if KindOf(n - 1) == kind then ContextBits(cost, b, h, n - 1) else 0.0)
  }

  function KindSymbols(h: History, kind: Kind, n: nat): (count: nat)
    requires n <= N_CTX
  {
    if n == 0 then 0
    else KindSymbols(h, kind, n - 1) + (if KindOf(n - 1) == kind then ContextSymbols(h, n - 1) else 0)
  }

  lemma {:induction false} KindBitsStep(cost: Cost, b: Bank, h: History, kind: Kind, n: nat)
    requires WellFormedBank(b) && n <= N_CTX && h != []
    ensures KindBits(cost, b, h, kind, n)
         == KindBits(cost, Advance(b, h[0].0, h[0].1), h[1..], kind, n)
            + (if h[0].0 < n && KindOf(h[0].0) == kind then CostOf(cost, b, h[0].0, h[0].1) else 0.0)
  {
    hide Advance, WellFormedBank, CostOf;
    if n != 0 {
      KindBitsStep(cost, b, h, kind, n - 1);
    }
  }

  lemma {:induction false} KindSymbolsStep(h: History, kind: Kind, n: nat)
    requires n <= N_CTX && h != []
    ensures KindSymbols(h, kind, n) == KindSymbols(h[1..], kind, n) + (if h[0].0 < n && KindOf(h[0].0) == kind then 1 else 0)
  {
    if n != 0 {
      KindSymbolsStep(h, kind, n - 1);
    }
  }

  lemma {:induction false} NothingReplayed(cost: Cost, b: Bank, kind: Kind, n: nat)
    requires WellFormedBank(b) && n <= N_CTX
    ensures KindBits(cost, b, [], kind, n) == 0.0 && KindSymbols([], kind, n) == 0
  {
    if n != 0 {
      NothingReplayed(cost, b, kind, n - 1);
    }
  }

  /**
   * Trace replay reproduces decoding: for any cost function, any starting bank and any decoded history, what the
   * decoder was billed for a kind is the sum of the replayed costs of that kind's contexts, and so are the counts.
   */
  lemma {:induction false} ReplayExplainsBills(e: Entropy, cost: Cost, b: Bank, h: History, kind: Kind)
    requires WellFormedBank(b) && Covers(e)
    ensures BillAll(e, cost, b, h).bits[kind] == e.bits[kind] + KindBits(cost, b, h, kind, N_CTX)
    ensures BillAll(e, cost, b, h).symbols[kind] == e.symbols[kind] + KindSymbols(h, kind, N_CTX)
    decreases |h|
  {
    hide Advance, WellFormedBank, Charged, KindOf;
    if h == [] {
      NothingReplayed(cost, b, kind, N_CTX);
    } else {
      var (c, symbol) := h[0];
      ReplayExplainsBills(BillFor(e, cost, b, c, symbol), cost, Advance(b, c, symbol), h[1..], kind);
      KindBitsStep(cost, b, h, kind, N_CTX);
      KindSymbolsStep(h, kind, N_CTX);
    }
  }

  // ---- What other priors can change ----

  /** Where the tables are the same, so are the costs. */
  lemma {:induction false} SameTablesCostTheSame(cost: Cost, x: Bank, y: Bank, h: History, c: Context)
    requires WellFormedBank(x) && WellFormedBank(y) && SameTables(x, y, h)
    ensures ContextBits(cost, x, h, c) == ContextBits(cost, y, h, c)
    decreases |h|
  {
    hide Advance, WellFormedBank, Prepared, KindOf;
    if h != [] {
      SameTablesCostTheSame(cost, Advance(x, h[0].0, h[0].1), Advance(y, h[0].0, h[0].1), h[1..], c);
    }
  }

  /** The contexts whose own priors a replay can see: those that use a table before anything warms their group's parent. */
  predicate Sees(p: Priors, h: History, c: Context)
    requires Usable(p)
  {
    exists k :: 0 <= k < CTX_BUCKETS && SlotIndex(c, k) in FirstUses(VariantBank(p), h)
  }

  /** They are the contexts that occur first in their groups: which ones a trace alone tells. */
  lemma {:induction false} SeesFirstOfGroup(p: Priors, h: History, c: Context)
    requires Usable(p)
    ensures Sees(p, h, c) <==> FirstOfGroup(h, c)
  {
    hide Usable, FirstUses, FirstOfGroup, KindOf, GroupOf, Alphabet, WellFormedBank;
    var b := VariantBank(p);
    forall k | 0 <= k < CTX_BUCKETS
      ensures SlotIndex(c, k) in FirstUses(b, h) <==> FirstOfGroup(h, c) && k == BucketOf(c, 0)
    {
      SlotOfContext(c, k);
      UsedCold(b, h, SlotIndex(c, k));
    }
    assert SlotIndex(c, BucketOf(c, 0)) in FirstUses(b, h) <==> FirstOfGroup(h, c);
  }

  /**
   * Of a variant's own priors a replay sees at most one context's in each group, the first to be used: variants with
   * the same parents hand out the same tables throughout exactly if they agree on those, whatever their other priors are.
   */
  lemma {:induction false} OwnPriorsRarelyMatter(p: Priors, q: Priors, h: History)
    requires Usable(p) && Usable(q) && p.parents == q.parents
    ensures SameTables(VariantBank(p), VariantBank(q), h) <==> forall c: Context :: FirstOfGroup(h, c) ==> p.own[c] == q.own[c]
  {
    var (x, y) := (VariantBank(p), VariantBank(q));
    hide *;
    if forall c: Context :: FirstOfGroup(h, c) ==> p.own[c] == q.own[c] {
      AgreeingAlike(p, q, h);
      AlikeSameTables(x, y, h);
    }
    if SameTables(x, y, h) {
      SamePriors(p, q, h);
    }
  }

  lemma {:induction false} AgreeingAlike(p: Priors, q: Priors, h: History)
    requires Usable(p) && Usable(q) && p.parents == q.parents
    requires forall c: Context :: FirstOfGroup(h, c) ==> p.own[c] == q.own[c]
    ensures Alike(VariantBank(p), VariantBank(q), FirstUses(VariantBank(p), h))
  {
    var (x, y) := (VariantBank(p), VariantBank(q));
    hide FirstUses, FirstOfGroup, KindOf, GroupOf, Alphabet, WellFormed;
    forall i | 0 <= i < N_CTX * CTX_BUCKETS && x.models[i] != y.models[i]
      ensures i !in FirstUses(x, h) && x.models[i].updates == 0 && y.models[i].updates == 0
    {
      var d: Context := i / CTX_BUCKETS;
      assert SlotIndex(d, i % CTX_BUCKETS) == i;
      SeesFirstOfGroup(p, h, d);
    }
  }

  lemma {:induction false} SamePriors(p: Priors, q: Priors, h: History)
    requires Usable(p) && Usable(q) && p.parents == q.parents && SameTables(VariantBank(p), VariantBank(q), h)
    ensures forall c: Context :: FirstOfGroup(h, c) ==> p.own[c] == q.own[c]
  {
    var (x, y) := (VariantBank(p), VariantBank(q));
    hide SameTables, FirstUses, FirstOfGroup, KindOf, GroupOf, Alphabet, WellFormed;
    forall c: Context | FirstOfGroup(h, c)
      ensures p.own[c] == q.own[c]
    {
      SeesFirstOfGroup(p, h, c);
      var k :| 0 <= k < CTX_BUCKETS && SlotIndex(c, k) in FirstUses(x, h);
      SlotOfContext(c, k);
      SameTablesAgree(x, y, h, SlotIndex(c, k));
    }
  }

  /** The format's priors, but for a context of the split group. */
  function OtherSplit(): Priors {
    CurrentPriors().(own := CurrentPriors().own[CTX_SPLIT32 := [1, 1]])
  }

  /** A trace that uses that context, and costs the same under its other prior: the group's parent is warm by then. */
  lemma {:induction false} UnseenPrior(cost: Cost, c: Context)
    ensures var h := [(CTX_SPLIT, 0), (CTX_SPLIT32, 1)];
            && Usable(CurrentPriors()) && Usable(OtherSplit()) && ContextSymbols(h, CTX_SPLIT32) == 1
            && OtherSplit().own[CTX_SPLIT32] != CurrentPriors().own[CTX_SPLIT32]
            && ContextBits(cost, VariantBank(CurrentPriors()), h, c) == ContextBits(cost, VariantBank(OtherSplit()), h, c)
  {
    var h: History := [(CTX_SPLIT, 0), (CTX_SPLIT32, 1)];
    var (p, q) := (CurrentPriors(), OtherSplit());
    OtherSplitUsable();
    UsedButNotFirst(h);
    hide *;
    assert forall d: Context :: FirstOfGroup(h, d) ==> p.own[d] == q.own[d];
    OwnPriorsRarelyMatter(p, q, h);
    SameTablesCostTheSame(cost, VariantBank(p), VariantBank(q), h, c);
  }

  lemma {:induction false} UsedButNotFirst(h: History)
    requires h == [(CTX_SPLIT, 0), (CTX_SPLIT32, 1)]
    ensures ContextSymbols(h, CTX_SPLIT32) == 1 && !FirstOfGroup(h, CTX_SPLIT32)
  {
    var rest := h[1..];
    assert rest == [(CTX_SPLIT32, 1)] && rest[1..] == [];
    assert ContextSymbols(rest, CTX_SPLIT32) == 1;
    FirstUnfolds(h, CTX_SPLIT32);
  }

  lemma {:induction false} OtherSplitUsable()
    ensures Usable(CurrentPriors()) && Usable(OtherSplit()) && OtherSplit().parents == CurrentPriors().parents
    ensures OtherSplit().own[CTX_SPLIT32] != CurrentPriors().own[CTX_SPLIT32]
    ensures forall c: Context :: c != CTX_SPLIT32 ==> OtherSplit().own[c] == CurrentPriors().own[c]
  {
    CurrentBankIsFresh();
    assert Sum([1, 1]) == 2 by {
      assert [1, 1][..1] == [1] && [1][..0] == [];
    }
  }

  /** Two contexts of one group are never both seen. */
  lemma {:induction false} SeesOnePerGroup(p: Priors, h: History, c: Context, d: Context)
    requires Usable(p) && Sees(p, h, c) && Sees(p, h, d) && GroupOf(c) == GroupOf(d)
    ensures c == d
  {
    hide VariantBank, FirstUses, Usable, GroupOf, KindOf, SlotIndex;
    OnePerGroup(VariantBank(p), h);
    var k :| 0 <= k < CTX_BUCKETS && SlotIndex(c, k) in FirstUses(VariantBank(p), h);
    var l :| 0 <= l < CTX_BUCKETS && SlotIndex(d, l) in FirstUses(VariantBank(p), h);
    SlotOfContext(c, k);
    SlotOfContext(d, l);
  }

  lemma {:induction false} SlotOfContext(c: Context, k: nat)
    requires k < CTX_BUCKETS
    ensures SlotIndex(c, k) / CTX_BUCKETS == c && Slot(SlotIndex(c, k)) && GroupOfSlot(SlotIndex(c, k)) == GroupOf(c)
  {
    hide GroupOf;
  }
}
