/** The bank of context models: its layout, lazy inheritance from group parents, and coding through it. */
module ModelBanks {
  import opened Bytes
  import opened Outcome
  import opened RangeCoder
  import opened AdaptiveModels

  const N_CTX: nat := 82
  const N_GROUPS: nat := 23
  const CTX_BUCKETS: nat := 4
  const N_POS_BUCKETS: nat := 6
  const CTX_SPLIT: nat := 0
  const CTX_MODE: nat := 1
  const CTX_DC_BASE: nat := 2
  const CTX_RUN_BASE: nat := 6
  const CTX_LEVEL_BASE: nat := 30
  const CTX_EOB_BASE: nat := 54
  const CTX_SPLIT32: nat := 78
  const CTX_SPLIT8: nat := 79
  const CTX_TX: nat := 80
  const CTX_CDEF: nat := 81

  type Context = c: nat | c < N_CTX

  // ---- Layout ----

  function KindOf(c: Context): (k: Kind) {
    if c == CTX_SPLIT || c == CTX_SPLIT32 || c == CTX_SPLIT8 then Split
    else if c == CTX_MODE then Mode
    else if c == CTX_TX then Tx
    else if c == CTX_CDEF then Cdef
    else if c < CTX_RUN_BASE then Dc
    else if c < CTX_LEVEL_BASE then Run
    else if c < CTX_EOB_BASE then Level
    else Eob
  }

  function GroupOf(c: Context): (g: nat)
    ensures g < N_GROUPS
  {
    if c == CTX_SPLIT || c == CTX_SPLIT32 || c == CTX_SPLIT8 then 0
    else if c == CTX_MODE then 1
    else if c == CTX_TX then 21
    else if c == CTX_CDEF then 22
    else if c < CTX_RUN_BASE then 2
    else if c < CTX_LEVEL_BASE then 3 + (c - CTX_RUN_BASE) % N_POS_BUCKETS
    else if c < CTX_EOB_BASE then 3 + N_POS_BUCKETS + (c - CTX_LEVEL_BASE) % N_POS_BUCKETS
    else 3 + 2 * N_POS_BUCKETS + (c - CTX_EOB_BASE) % N_POS_BUCKETS
  }

  function ParentKind(g: nat): (k: Kind)
  {
    if g == 0 then Split else if g == 1 then Mode else if g == 2 then Dc
    else if g < 9 then Run else if g < 15 then Level else if g < 21 then Eob
    else if g == 21 then Tx else Cdef
  }

  /** A context and the parent it inherits from always share an alphabet. */
  lemma {:induction false} ParentSharesAlphabet(c: Context)
    ensures ParentKind(GroupOf(c)) == KindOf(c)
  {
  }

  /** The layout, filled in place by nested loops over two lists. */
  method ModelLayout() returns (groups: seq<nat>, kinds: seq<Kind>)
    ensures |groups| == |kinds| == N_CTX
    ensures forall c :: 0 <= c < N_CTX ==> groups[c] == GroupOf(c) && kinds[c] == KindOf(c)
  {
    groups, kinds := seq(N_CTX, _ => 0), seq(N_CTX, _ => Level);
    groups, kinds := groups[CTX_SPLIT := 0], kinds[CTX_SPLIT := Split];
    groups, kinds := groups[CTX_MODE := 1], kinds[CTX_MODE := Mode];
    groups, kinds := groups[CTX_SPLIT32 := 0], kinds[CTX_SPLIT32 := Split];
    groups, kinds := groups[CTX_SPLIT8 := 0], kinds[CTX_SPLIT8 := Split];
    groups, kinds := groups[CTX_TX := 21], kinds[CTX_TX := Tx];
    groups, kinds := groups[CTX_CDEF := 22], kinds[CTX_CDEF := Cdef];
    for bucket := 0 to 4
      invariant |groups| == |kinds| == N_CTX
      invariant forall c :: 0 <= c < N_CTX && (Single(c) || InTo(c, CTX_DC_BASE, bucket))
                            ==> groups[c] == GroupOf(c) && kinds[c] == KindOf(c)
    {
      groups, kinds := groups[CTX_DC_BASE + bucket := 2], kinds[CTX_DC_BASE + bucket := Dc];
    }
    hide GroupOf, KindOf;
    for condition := 0 to 4
      invariant |groups| == |kinds| == N_CTX
      invariant forall c :: 0 <= c < N_CTX && (Single(c) || InTo(c, CTX_DC_BASE, 4) || Block(c, N_POS_BUCKETS * condition))
                            ==> groups[c] == GroupOf(c) && kinds[c] == KindOf(c)
    {
      for position := 0 to N_POS_BUCKETS
        invariant |groups| == |kinds| == N_CTX
        invariant forall c :: 0 <= c < N_CTX && (Single(c) || InTo(c, CTX_DC_BASE, 4)
                                                 || Block(c, position + N_POS_BUCKETS * condition))
                              ==> groups[c] == GroupOf(c) && kinds[c] == KindOf(c)
      {
        var run := CTX_RUN_BASE + position + N_POS_BUCKETS * condition;
        var level := CTX_LEVEL_BASE + position + N_POS_BUCKETS * condition;
        var eob := CTX_EOB_BASE + position + N_POS_BUCKETS * condition;
        BlockLayout(condition, position);
        groups, kinds := groups[run := 3 + position], kinds[run := Run];
        groups, kinds := groups[level := 3 + N_POS_BUCKETS + position], kinds[level := Level];
        groups, kinds := groups[eob := 3 + 2 * N_POS_BUCKETS + position], kinds[eob := Eob];
      }
    }
  }

  lemma {:induction false} BlockLayout(condition: nat, position: nat)
    requires condition < 4 && position < N_POS_BUCKETS
    ensures var k := position + N_POS_BUCKETS * condition;
            && GroupOf(CTX_RUN_BASE + k) == 3 + position && KindOf(CTX_RUN_BASE + k) == Run
            && GroupOf(CTX_LEVEL_BASE + k) == 3 + N_POS_BUCKETS + position && KindOf(CTX_LEVEL_BASE + k) == Level
            && GroupOf(CTX_EOB_BASE + k) == 3 + 2 * N_POS_BUCKETS + position && KindOf(CTX_EOB_BASE + k) == Eob
  {
  }

  ghost predicate Single(c: Context) {
    c == CTX_SPLIT || c == CTX_MODE || c == CTX_SPLIT32 || c == CTX_SPLIT8 || c == CTX_TX || c == CTX_CDEF
  }

  ghost predicate InTo(c: Context, base: nat, n: nat) {
    base <= c < base + n
  }

  ghost predicate Block(c: Context, n: nat) {
    InTo(c, CTX_RUN_BASE, n) || InTo(c, CTX_LEVEL_BASE, n) || InTo(c, CTX_EOB_BASE, n)
  }

  // ---- Banks as values ----

  datatype Bank = Bank(models: seq<Model>, parents: seq<Model>, previous: seq<nat>)

  function BucketOf(c: Context, previous: nat): (b: nat)
    ensures b < CTX_BUCKETS
  {
    if Alphabet(KindOf(c)) < 16 then 0 else Min(previous / 8, CTX_BUCKETS - 1)
  }

  function SlotIndex(c: Context, bucket: nat): (i: nat)
    requires bucket < CTX_BUCKETS
    ensures i < N_CTX * CTX_BUCKETS
  {
    c * CTX_BUCKETS + bucket
  }

  ghost predicate WellFormedBank(b: Bank) {
    && |b.models| == N_CTX * CTX_BUCKETS && |b.parents| == N_GROUPS && |b.previous| == N_CTX
    && (forall i :: 0 <= i < |b.models| ==> WellFormed(b.models[i], KindOf(i / CTX_BUCKETS)))
    && (forall g :: 0 <= g < N_GROUPS ==> WellFormed(b.parents[g], ParentKind(g)))
  }

  function FreshBank(): (b: Bank)
    ensures WellFormedBank(b)
  {
    Bank(seq(N_CTX * CTX_BUCKETS, i requires 0 <= i < N_CTX * CTX_BUCKETS => Fresh(KindOf(i / CTX_BUCKETS))),
         seq(N_GROUPS, g requires 0 <= g < N_GROUPS => Fresh(ParentKind(g))),
         seq(N_CTX, _ => 0))
  }

  function Selected(b: Bank, c: Context): (i: nat)
    requires |b.previous| == N_CTX
    ensures i < N_CTX * CTX_BUCKETS && i / CTX_BUCKETS == c
  {
    SlotIndex(c, BucketOf(c, b.previous[c]))
  }

  /** The table used for the next symbol of a context: its own, or its parent's when it has none yet. */
  function Prepared(b: Bank, c: Context): (m: Model)
    requires WellFormedBank(b)
    ensures WellFormed(m, KindOf(c)) && |m.freq| == Alphabet(KindOf(c))
  {
    ParentSharesAlphabet(c);
    var own := b.models[Selected(b, c)];
    var parent := b.parents[GroupOf(c)];
    if own.updates == 0 && parent.updates > 0 then parent.(updates := 0) else own
  }

  /** The bank after one symbol of a context, whether decoded or observed. */
  function Advance(b: Bank, c: Context, symbol: nat): (n: Bank)
    requires WellFormedBank(b) && symbol < Alphabet(KindOf(c))
    ensures WellFormedBank(n)
  {
    ParentSharesAlphabet(c);
    LearnKeepsForm(Prepared(b, c), KindOf(c), symbol);
    LearnKeepsForm(b.parents[GroupOf(c)], KindOf(c), symbol);
    Bank(b.models[Selected(b, c) := Learn(Prepared(b, c), symbol)],
         b.parents[GroupOf(c) := Learn(b.parents[GroupOf(c)], symbol)],
         b.previous[c := symbol])
  }

  // ---- Costs ----

  /** The cost of a symbol, as a function of its table's total and its frequency. */
  type Cost = (nat, nat) -> real

  datatype Entropy = Entropy(symbols: map<Kind, nat>, bits: map<Kind, real>)

  function Bill(e: Entropy, kind: Kind, cost: real): (n: Entropy)
    requires kind in e.symbols && kind in e.bits
    ensures n.symbols.Keys == e.symbols.Keys && n.bits.Keys == e.bits.Keys
  {
    Entropy(e.symbols[kind := e.symbols[kind] + 1], e.bits[kind := e.bits[kind] + cost])
  }

  ghost predicate Covers(e: Entropy) {
    forall kind: Kind :: kind in e.symbols && kind in e.bits
  }

  /** What decoding or observing one symbol is billed for. */
  function Charged(b: Bank, c: Context, symbol: nat): (charged: (nat, nat))
    requires WellFormedBank(b) && symbol < Alphabet(KindOf(c))
  {
    (Prepared(b, c).total, Prepared(b, c).freq[symbol])
  }

  // ---- Histories ----

  type History = h: seq<(Context, nat)> | forall i :: 0 <= i < |h| ==> h[i].1 < Alphabet(KindOf(h[i].0))

  function After(b: Bank, h: History): (n: Bank)
    requires WellFormedBank(b)
    ensures WellFormedBank(n)
    decreases |h|
  {
    if h == [] then b else After(Advance(b, h[0].0, h[0].1), h[1..])
  }

  lemma {:induction false} AfterAppend(b: Bank, h: History, c: Context, symbol: nat)
    requires WellFormedBank(b) && symbol < Alphabet(KindOf(c))
    ensures After(b, h + [(c, symbol)]) == Advance(After(b, h), c, symbol)
    decreases |h|
  {
    var longer := h + [(c, symbol)];
    if h == [] {
      assert longer[1..] == [];
    } else {
      assert longer[0] == h[0] && longer[1..] == h[1..] + [(c, symbol)];
      AfterAppend(Advance(b, h[0].0, h[0].1), h[1..], c, symbol);
    }
  }

  function Last(h: History): (x: (Context, nat))
    requires h != []
    ensures x.1 < Alphabet(KindOf(x.0))
  {
    h[|h| - 1]
  }

  function Front(h: History): (f: History)
    requires h != []
    ensures |f| == |h| - 1 && h == f + [Last(h)]
  {
    h[..|h| - 1]
  }

  /** The latest symbol of a context, 0 before any. */
  function PreviousIn(h: History, c: Context): (symbol: nat) {
    if h == [] then 0 else if Last(h).0 == c then Last(h).1 else PreviousIn(Front(h), c)
  }

  /** The symbols a group's parent has learned from. */
  function GroupSymbols(h: History, g: nat): (symbols: seq<nat>)
    requires g < N_GROUPS
    ensures Within(symbols, Alphabet(ParentKind(g)))
  {
    if h == [] then []
    else if GroupOf(Last(h).0) == g then
      ParentSharesAlphabet(Last(h).0);
      GroupSymbols(Front(h), g) + [Last(h).1]
    else GroupSymbols(Front(h), g)
  }

  predicate RoutesTo(h: History, c: Context, bucket: nat)
    requires h != []
  {
    Last(h).0 == c && BucketOf(c, PreviousIn(Front(h), c)) == bucket
  }

  /** The symbols routed to one (context, bucket) table. */
  function Routed(h: History, c: Context, bucket: nat): (symbols: seq<nat>)
    ensures Within(symbols, Alphabet(KindOf(c)))
  {
    if h == [] then []
    else if RoutesTo(h, c, bucket) then Routed(Front(h), c, bucket) + [Last(h).1]
    else Routed(Front(h), c, bucket)
  }

  /** How much of the history precedes the first symbol routed to the table: all of it when there is none. */
  function Before(h: History, c: Context, bucket: nat): (n: nat)
    ensures n <= |h|
  {
    if h == [] then 0
    else if Routed(Front(h), c, bucket) != [] then Before(Front(h), c, bucket)
    else if RoutesTo(h, c, bucket) then |h| - 1
    else |h|
  }

  function ParentAfter(h: History, g: nat): (m: Model)
    requires g < N_GROUPS
    ensures |m.freq| == Alphabet(ParentKind(g))
  {
    LearnAll(Fresh(ParentKind(g)), GroupSymbols(h, g))
  }

  /**
   * What the table of a (context, bucket) should be: its group's parent as it stood just before the first symbol
   * routed to the table, its learning rate restarted, adapted by exactly the symbols routed there.
   */
  function TableOf(h: History, c: Context, bucket: nat): (m: Model)
    ensures |m.freq| == Alphabet(KindOf(c))
  {
    var inherited := ParentAfter(h[..Before(h, c, bucket)], GroupOf(c)).(updates := 0);
    ParentSharesAlphabet(c);
    LearnAll(inherited, Routed(h, c, bucket))
  }

  ghost predicate Explains(h: History, b: Bank)
    requires WellFormedBank(b)
  {
    && (forall g :: 0 <= g < N_GROUPS ==> b.parents[g] == ParentAfter(h, g))
    && (forall c: nat :: c < N_CTX ==> b.previous[c] == PreviousIn(h, c))
    && (forall c: nat, k: nat :: c < N_CTX && k < CTX_BUCKETS
          ==> b.models[SlotIndex(c, k)] == if Routed(h, c, k) == [] then Fresh(KindOf(c)) else TableOf(h, c, k))
  }

  /** Lazy inheritance computes the history semantics, table by table, for every history. */
  lemma {:induction false} LazyInheritance(h: History)
    ensures Explains(h, After(FreshBank(), h))
  {
    hide Explains, Advance, FreshBank;
    if h == [] {
      FreshExplained();
    } else {
      LazyInheritance(Front(h));
      AfterAppend(FreshBank(), Front(h), Last(h).0, Last(h).1);
      AdvanceExplained(h, After(FreshBank(), Front(h)));
    }
  }

  lemma {:induction false} FreshExplained()
    ensures Explains([], FreshBank())
  {
    hide Fresh, Prior, TableOf, KindOf, ParentKind;
    forall g | 0 <= g < N_GROUPS
      ensures FreshBank().parents[g] == ParentAfter([], g)
    {
      assert GroupSymbols([], g) == [];
    }
  }

  /** The table handed out for the next symbol is the one the history prescribes. */
  lemma {:induction false} PreparedIsTable(h: History, b: Bank, c: Context)
    requires WellFormedBank(b) && Explains(h, b)
    ensures Prepared(b, c) == TableOf(h, c, BucketOf(c, PreviousIn(h, c)))
  {
    var k := BucketOf(c, PreviousIn(h, c));
    ParentSharesAlphabet(c);
    assert h[..|h|] == h;
    UpdatesCount(h, c, k);
    BeforeAll(h, c, k);
    assert b.models[SlotIndex(c, k)] == if Routed(h, c, k) == [] then Fresh(KindOf(c)) else TableOf(h, c, k);
  }

  lemma {:induction false} UpdatesCount(h: History, c: Context, k: nat)
    ensures TableOf(h, c, k).updates == |Routed(h, c, k)|
    ensures ParentAfter(h, GroupOf(c)).updates == |GroupSymbols(h, GroupOf(c))|
  {
    hide Fresh, Prior, KindOf, GroupOf, GroupSymbols, Routed, Before;
    ParentSharesAlphabet(c);
    var early := h[..Before(h, c, k)];
    LearnAllKeepsForm(Fresh(KindOf(c)), KindOf(c), GroupSymbols(early, GroupOf(c)));
    LearnAllKeepsForm(ParentAfter(early, GroupOf(c)).(updates := 0), KindOf(c), Routed(h, c, k));
    LearnAllKeepsForm(Fresh(KindOf(c)), KindOf(c), GroupSymbols(h, GroupOf(c)));
  }

  lemma {:induction false} BeforeAll(h: History, c: Context, k: nat)
    ensures Routed(h, c, k) == [] <==> Before(h, c, k) == |h|
  {
    if h != [] {
      BeforeAll(Front(h), c, k);
    }
  }

  lemma {:induction false} AdvanceExplained(h: History, b: Bank)
    requires h != [] && WellFormedBank(b) && Explains(Front(h), b)
    ensures Explains(h, Advance(b, Last(h).0, Last(h).1))
  {
    hide Advance, Alphabet, BucketOf, Fresh, GroupOf, KindOf, ParentAfter, ParentKind, PreviousIn, Prior, Routed, SlotIndex, TableOf,
      WellFormed;
    var n := Advance(b, Last(h).0, Last(h).1);
    forall g | 0 <= g < N_GROUPS
      ensures n.parents[g] == ParentAfter(h, g)
    {
      ParentAdvanced(h, b, g);
    }
    forall d: nat | d < N_CTX
      ensures n.previous[d] == PreviousIn(h, d)
    {
      PreviousAdvanced(h, b, d);
    }
    forall d: nat, k: nat | d < N_CTX && k < CTX_BUCKETS
      ensures n.models[SlotIndex(d, k)] == if Routed(h, d, k) == [] then Fresh(KindOf(d)) else TableOf(h, d, k)
    {
      TableAdvanced(h, b, d, k);
    }
  }

  lemma {:induction false} ParentAdvanced(h: History, b: Bank, g: nat)
    requires h != [] && WellFormedBank(b) && Explains(Front(h), b) && g < N_GROUPS
    ensures Advance(b, Last(h).0, Last(h).1).parents[g] == ParentAfter(h, g)
  {
    hide Alphabet, Fresh, GroupOf, KindOf, Learn, LearnAll, ParentKind, Prepared, PreviousIn, Prior, Routed, TableOf, WellFormed;
    if g == GroupOf(Last(h).0) {
      ParentSharesAlphabet(Last(h).0);
      LearnAppend(Fresh(ParentKind(g)), GroupSymbols(Front(h), g), Last(h).1);
    }
  }

  lemma {:induction false} PreviousAdvanced(h: History, b: Bank, d: Context)
    requires h != [] && WellFormedBank(b) && Explains(Front(h), b)
    ensures Advance(b, Last(h).0, Last(h).1).previous[d] == PreviousIn(h, d)
  {
    hide Alphabet, Fresh, GroupOf, KindOf, Learn, ParentAfter, ParentKind, Prepared, Prior, Routed, TableOf, WellFormed;
  }

  lemma {:induction false} LearnAppend(m: Model, symbols: seq<nat>, symbol: nat)
    requires Within(symbols, |m.freq|) && symbol < |m.freq|
    ensures LearnAll(m, symbols + [symbol]) == Learn(LearnAll(m, symbols), symbol)
  {
    assert (symbols + [symbol])[..|symbols|] == symbols;
  }

  lemma {:induction false} TableAdvanced(h: History, b: Bank, d: Context, k: nat)
    requires h != [] && WellFormedBank(b) && Explains(Front(h), b) && k < CTX_BUCKETS
    ensures Advance(b, Last(h).0, Last(h).1).models[SlotIndex(d, k)]
         == if Routed(h, d, k) == [] then Fresh(KindOf(d)) else TableOf(h, d, k)
  {
    if RoutesTo(h, d, k) {
      RoutedAdvanced(h, b, d, k);
    } else {
      UnroutedAdvanced(h, b, d, k);
    }
  }

  lemma {:induction false} UnroutedAdvanced(h: History, b: Bank, d: Context, k: nat)
    requires h != [] && WellFormedBank(b) && Explains(Front(h), b) && k < CTX_BUCKETS && !RoutesTo(h, d, k)
    ensures Advance(b, Last(h).0, Last(h).1).models[SlotIndex(d, k)]
         == if Routed(h, d, k) == [] then Fresh(KindOf(d)) else TableOf(h, d, k)
  {
    hide Learn, LearnAll, Prepared, KindOf, GroupOf, Fresh, GroupSymbols, WellFormed;
    var f := Front(h);
    assert b.models[SlotIndex(d, k)] == if Routed(f, d, k) == [] then Fresh(KindOf(d)) else TableOf(f, d, k);
    assert SlotIndex(d, k) != Selected(b, Last(h).0);
    assert Routed(h, d, k) == Routed(f, d, k);
    if Routed(f, d, k) != [] {
      assert h[..Before(h, d, k)] == f[..Before(f, d, k)];
    }
  }

  lemma {:induction false} RoutedAdvanced(h: History, b: Bank, d: Context, k: nat)
    requires h != [] && WellFormedBank(b) && Explains(Front(h), b) && k < CTX_BUCKETS && RoutesTo(h, d, k)
    ensures Advance(b, Last(h).0, Last(h).1).models[SlotIndex(d, k)] == TableOf(h, d, k)
  {
    var (c, symbol) := Last(h);
    PreparedIsTable(Front(h), b, d);
    assert b.previous[d] == PreviousIn(Front(h), d);
    assert Advance(b, c, symbol).models[SlotIndex(d, k)] == Learn(Prepared(b, c), symbol);
    TableGrows(h, d, k);
  }

  lemma {:induction false} TableGrows(h: History, d: Context, k: nat)
    requires h != [] && k < CTX_BUCKETS && RoutesTo(h, d, k)
    ensures TableOf(h, d, k) == Learn(TableOf(Front(h), d, k), Last(h).1)
  {
    var f := Front(h);
    BeforeAll(f, d, k);
    assert h[..Before(h, d, k)] == f[..Before(f, d, k)];
    ParentSharesAlphabet(d);
    LearnAppend(ParentAfter(f[..Before(f, d, k)], GroupOf(d)).(updates := 0), Routed(f, d, k), Last(h).1);
  }

  /** What a history is billed, each symbol at the table prepared for it. */
  function BillAll(e: Entropy, cost: Cost, b: Bank, h: History): (n: Entropy)
    requires WellFormedBank(b) && Covers(e)
    ensures Covers(n)
    decreases |h|
  {
    if h == [] then e
    else
      var (c, symbol) := h[0];
      BillAll(BillFor(e, cost, b, c, symbol), cost, Advance(b, c, symbol), h[1..])
  }

  function BillFor(e: Entropy, cost: Cost, b: Bank, c: Context, symbol: nat): (n: Entropy)
    requires WellFormedBank(b) && symbol < Alphabet(KindOf(c)) && Covers(e)
    ensures Covers(n)
  {
    Bill(e, KindOf(c), cost(Charged(b, c, symbol).0, Charged(b, c, symbol).1))
  }

  // ---- Coding a history through the bank ----

  /** The slots a history carves, each from the table the bank prepares at that point. */
  function Carve(b: Bank, h: History): (slots: seq<Slot>)
    requires WellFormedBank(b)
    ensures |slots| == |h| && forall s <- slots :: Carves(s)
    decreases |h|
  {
    if h == [] then []
    else
      SlotCarves(Prepared(b, h[0].0), KindOf(h[0].0), h[0].1);
      [SlotOf(Prepared(b, h[0].0), h[0].1)] + Carve(Advance(b, h[0].0, h[0].1), h[1..])
  }

  lemma {:induction false} CarveStep(b: Bank, h: History)
    requires WellFormedBank(b) && h != []
    ensures var slots := Carve(b, h);
            && slots[0] == SlotOf(Prepared(b, h[0].0), h[0].1)
            && slots[1..] == Carve(Advance(b, h[0].0, h[0].1), h[1..])
  {
  }

  /** Decoding one symbol in a context. */
  function Draw(data: seq<byte>, st: Cursor, b: Bank, c: Context): (res: Result<(nat, Cursor, Bank)>)
    requires Ready(st) && WellFormedBank(b)
    ensures res.Ok? ==> res.value.0 < Alphabet(KindOf(c)) && Ready(res.value.1) && WellFormedBank(res.value.2)
    ensures res.Ok? && st.pos <= |data| ==> res.value.1.pos <= |data|
  {
    var (symbol, next) :- DecodeSymbol(data, st, Prepared(b, c), KindOf(c));
    Ok((symbol, next, Advance(b, c, symbol)))
  }

  function DrawAll(data: seq<byte>, st: Cursor, b: Bank, cs: seq<Context>): (res: Result<(seq<nat>, Cursor, Bank)>)
    requires Ready(st) && WellFormedBank(b)
    decreases |cs|
  {
    if cs == [] then Ok(([], st, b))
    else
      var (symbol, next, bank) :- Draw(data, st, b, cs[0]);
      var (rest, end, last) :- DrawAll(data, next, bank, cs[1..]);
      Ok(([symbol] + rest, end, last))
  }

  /** No symbol of the run is looked up in the unused top of the range. */
  predicate NeverClamped(data: seq<byte>, st: Cursor, b: Bank, cs: seq<Context>)
    requires Ready(st) && WellFormedBank(b)
    decreases |cs|
  {
    cs == [] ||
    (var res := Draw(data, st, b, cs[0]);
     Unclamped(st, b, cs[0]) && res.Ok? && NeverClamped(data, res.value.1, res.value.2, cs[1..]))
  }

  predicate Unclamped(st: Cursor, b: Bank, c: Context)
    requires Ready(st) && WellFormedBank(b)
  {
    var total := Prepared(b, c).total;
    TotalPositive(Prepared(b, c), KindOf(c));
    DivisionBounds(st.range, total);
    st.code / (st.range / total) < total
  }

  function Contexts(h: History): (cs: seq<Context>) {
    seq(|h|, i requires 0 <= i < |h| => h[i].0)
  }

  function Symbols(h: History): (symbols: seq<nat>) {
    seq(|h|, i requires 0 <= i < |h| => h[i].1)
  }

  lemma {:induction false} DrawInverts(data: seq<byte>, iv: Interval, st: Cursor, b: Bank, c: Context, symbol: nat)
    requires WellFormedBank(b) && symbol < Alphabet(KindOf(c)) && Tracks(data, iv, st)
    requires Carves(SlotOf(Prepared(b, c), symbol)) && Inside(data, Narrow(iv, SlotOf(Prepared(b, c), symbol)))
    ensures var res := Draw(data, st, b, c);
            && res.Ok? && res.value.0 == symbol && res.value.2 == Advance(b, c, symbol)
            && Tracks(data, Narrow(iv, SlotOf(Prepared(b, c), symbol)), res.value.1)
  {
    DecodeInvertsCarve(data, iv, st, Prepared(b, c), KindOf(c), symbol);
  }

  /**
   * Range decoding inverts the nested-interval code, exactly: an adaptive decoder whose state is exact reads the
   * symbols of `h`, without its clamp firing, if and only if the stream lies in the interval that `h` carves.
   */
  lemma {:induction false} DecodingInvertsCarving(data: seq<byte>, iv: Interval, st: Cursor, b: Bank, h: History)
    requires WellFormedBank(b) && Tracks(data, iv, st)
    ensures Inside(data, NarrowAll(iv, Carve(b, h))) <==> Delivers(data, st, b, h)
    ensures Inside(data, NarrowAll(iv, Carve(b, h))) ==>
              DrawAll(data, st, b, Contexts(h))
                == Ok((Symbols(h), Remainder(data, NarrowAll(iv, Carve(b, h))), After(b, h)))
    decreases |h|
  {
    if h != [] {
      if Inside(data, NarrowAll(iv, Carve(b, h))) {
        InsideYields(data, iv, st, b, h);
      } else if Delivers(data, st, b, h) {
        YieldsInside(data, iv, st, b, h);
      }
    }
  }

  /** What it takes for a run to deliver `h`: its first symbol is right, and the rest delivers the rest. */
  lemma {:induction false} RunUnfolds(data: seq<byte>, st: Cursor, b: Bank, h: History)
    requires Ready(st) && WellFormedBank(b) && h != []
    ensures Delivers(data, st, b, h) <==>
              var res := Draw(data, st, b, h[0].0);
              && Unclamped(st, b, h[0].0) && res.Ok? && res.value.0 == h[0].1
              && Delivers(data, res.value.1, res.value.2, h[1..])
    ensures Delivers(data, st, b, h) ==>
              var res := Draw(data, st, b, h[0].0);
              DrawAll(data, st, b, Contexts(h))
                == Ok((Symbols(h), DrawAll(data, res.value.1, res.value.2, Contexts(h[1..])).value.1,
                                   DrawAll(data, res.value.1, res.value.2, Contexts(h[1..])).value.2))
  {
    hide Draw, Unclamped;
    var cs := Contexts(h);
    assert cs[0] == h[0].0 && cs[1..] == Contexts(h[1..]);
    assert Symbols(h) == [h[0].1] + Symbols(h[1..]);
    var res := Draw(data, st, b, h[0].0);
    if res.Ok? {
      var tail := DrawAll(data, res.value.1, res.value.2, cs[1..]);
      if tail.Ok? {
        var all := [res.value.0] + tail.value.0;
        assert all[0] == res.value.0 && all[1..] == tail.value.0;
        assert Symbols(h)[0] == h[0].1 && Symbols(h)[1..] == Symbols(h[1..]);
      }
    }
  }

  ghost predicate Delivers(data: seq<byte>, st: Cursor, b: Bank, h: History)
    requires Ready(st) && WellFormedBank(b)
  {
    && NeverClamped(data, st, b, Contexts(h))
    && DrawAll(data, st, b, Contexts(h)).Ok?
    && DrawAll(data, st, b, Contexts(h)).value.0 == Symbols(h)
  }

  lemma {:induction false} InsideYields(data: seq<byte>, iv: Interval, st: Cursor, b: Bank, h: History)
    requires WellFormedBank(b) && Tracks(data, iv, st) && h != [] && Inside(data, NarrowAll(iv, Carve(b, h)))
    ensures Delivers(data, st, b, h)
    ensures DrawAll(data, st, b, Contexts(h))
         == Ok((Symbols(h), Remainder(data, NarrowAll(iv, Carve(b, h))), After(b, h)))
    decreases |h|, 0
  {
    hide Draw, Inside, Prepared, Advance, Narrow, Remainder, NeverClamped, DrawAll;
    var (c, symbol) := h[0];
    CarveStep(b, h);
    var slot := SlotOf(Prepared(b, c), symbol);
    var n := Narrow(iv, slot);
    InsideAll(data, n, Carve(Advance(b, c, symbol), h[1..]));
    TracksReady(data, iv, st);
    DrawInverts(data, iv, st, b, c, symbol);
    var next := Draw(data, st, b, c).value.1;
    DecodingInvertsCarving(data, n, next, Advance(b, c, symbol), h[1..]);
    UnclampedStep(data, iv, st, b, c, symbol);
    RunUnfolds(data, st, b, h);
  }

  lemma {:induction false} UnclampedStep(data: seq<byte>, iv: Interval, st: Cursor, b: Bank, c: Context, symbol: nat)
    requires WellFormedBank(b) && Tracks(data, iv, st) && Draw(data, st, b, c).Ok? && Draw(data, st, b, c).value.0 == symbol
    ensures var slot := SlotOf(Prepared(b, c), symbol);
            && Carves(slot)
            && (Inside(data, Narrow(iv, slot)) <==> Unclamped(st, b, c))
            && (Inside(data, Narrow(iv, slot)) ==> Tracks(data, Narrow(iv, slot), Draw(data, st, b, c).value.1))
  {
    SlotCarves(Prepared(b, c), KindOf(c), symbol);
    ExactIffUnclamped(data, iv, st, SlotOf(Prepared(b, c), symbol));
    if Inside(data, Narrow(iv, SlotOf(Prepared(b, c), symbol))) {
      DrawInverts(data, iv, st, b, c, symbol);
    }
  }

  lemma {:induction false} YieldsInside(data: seq<byte>, iv: Interval, st: Cursor, b: Bank, h: History)
    requires WellFormedBank(b) && Tracks(data, iv, st) && h != [] && Delivers(data, st, b, h)
    ensures Inside(data, NarrowAll(iv, Carve(b, h)))
    decreases |h|, 0
  {
    hide *;
    TracksReady(data, iv, st);
    CarveUnfolds(iv, b, h);
    RunUnfolds(data, st, b, h);
    var (c, symbol) := h[0];
    UnclampedStep(data, iv, st, b, c, symbol);
    DrawAdvances(data, st, b, c);
    DecodingInvertsCarving(data, Narrow(iv, SlotOf(Prepared(b, c), symbol)), Draw(data, st, b, c).value.1,
                           Advance(b, c, symbol), h[1..]);
  }

  lemma {:induction false} CarveUnfolds(iv: Interval, b: Bank, h: History)
    requires Wide(iv) && WellFormedBank(b) && h != []
    ensures h[0].1 < |Prepared(b, h[0].0).freq|
    ensures var slot := SlotOf(Prepared(b, h[0].0), h[0].1);
            && Carves(slot)
            && NarrowAll(iv, Carve(b, h)) == NarrowAll(Narrow(iv, slot), Carve(Advance(b, h[0].0, h[0].1), h[1..]))
  {
    CarveStep(b, h);
    assert Carve(b, h)[0] in Carve(b, h);
  }

  lemma {:induction false} DrawAdvances(data: seq<byte>, st: Cursor, b: Bank, c: Context)
    requires Ready(st) && WellFormedBank(b) && Draw(data, st, b, c).Ok?
    ensures Draw(data, st, b, c).value.2 == Advance(b, c, Draw(data, st, b, c).value.0)
  {
  }

  /** A stream that starts a decoder, delivers the symbols of `h`, and is then used up. */
  ghost predicate ReadsBack(data: seq<byte>, b: Bank, h: History)
    requires WellFormedBank(b)
  {
    && Start(data).Ok?
    && var res := DrawAll(data, Start(data).value, b, Contexts(h));
       res.Ok? && res.value.0 == Symbols(h) && res.value.1.pos == |data| && res.value.2 == After(b, h)
  }

  /** What the encoder writes for a history, the decoder reads back, to the last byte, and both banks end alike. */
  lemma {:induction false} EntropyRoundTrip(b: Bank, h: History)
    requires WellFormedBank(b)
    ensures ReadsBack(Message(Carve(b, h)), b, h)
  {
    MessageOpens(Carve(b, h));
    var data := Message(Carve(b, h));
    DecodingInvertsCarving(data, WHOLE, Start(data).value, b, h);
  }

  lemma {:induction false} MessageOpens(slots: seq<Slot>)
    requires forall s <- slots :: Carves(s)
    ensures var data := Message(slots);
            && Start(data).Ok? && Tracks(data, WHOLE, Start(data).value)
            && Inside(data, NarrowAll(WHOLE, slots))
            && Remainder(data, NarrowAll(WHOLE, slots)).pos == |data|
  {
    hide Message, NarrowAll;
    MessageInside(slots);
    StartTracks(Message(slots));
  }
}
