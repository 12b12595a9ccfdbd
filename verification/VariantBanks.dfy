/** Banks that start from other priors, and how little of those priors a replay can see. */
module VariantBanks {
  import opened AdaptiveModels
  import opened ModelBanks

  /** The starting frequencies of every context's own tables, and of every group's parent. */
  datatype Priors = Priors(own: seq<seq<nat>>, parents: seq<seq<nat>>)

  function ModelFromFreq(freq: seq<nat>): Model {
    Model(freq, Sum(freq), 0)
  }

  ghost predicate Usable(p: Priors) {
    && |p.own| == N_CTX && |p.parents| == N_GROUPS
    && (forall c :: 0 <= c < N_CTX ==> WellFormed(ModelFromFreq(p.own[c]), KindOf(c)))
    && (forall g :: 0 <= g < N_GROUPS ==> WellFormed(ModelFromFreq(p.parents[g]), ParentKind(g)))
  }

  function VariantBank(p: Priors): (b: Bank)
    requires Usable(p)
    ensures WellFormedBank(b)
  {
    Bank(seq(N_CTX * CTX_BUCKETS, i requires 0 <= i < N_CTX * CTX_BUCKETS => ModelFromFreq(p.own[i / CTX_BUCKETS])),
         seq(N_GROUPS, g requires 0 <= g < N_GROUPS => ModelFromFreq(p.parents[g])),
         seq(N_CTX, _ => 0))
  }

  /** The priors the format itself uses. */
  function CurrentPriors(): Priors {
    Priors(seq(N_CTX, c requires 0 <= c < N_CTX => Prior(KindOf(c))),
           seq(N_GROUPS, g requires 0 <= g < N_GROUPS => Prior(ParentKind(g))))
  }

  /** With them a variant bank is the decoder's own. */
  lemma {:induction false} CurrentBankIsFresh()
    ensures Usable(CurrentPriors()) && VariantBank(CurrentPriors()) == FreshBank()
  {
    hide KindOf, ParentKind, Prior, WellFormed, Sum;
    var p := CurrentPriors();
    forall c | 0 <= c < N_CTX
      ensures ModelFromFreq(p.own[c]) == Fresh(KindOf(c)) && WellFormed(ModelFromFreq(p.own[c]), KindOf(c))
    {
    }
    forall g | 0 <= g < N_GROUPS
      ensures ModelFromFreq(p.parents[g]) == Fresh(ParentKind(g)) && WellFormed(ModelFromFreq(p.parents[g]), ParentKind(g))
    {
    }
    assert VariantBank(p).models == FreshBank().models;
    assert VariantBank(p).parents == FreshBank().parents;
  }

  predicate ColdParent(b: Bank, c: Context)
    requires |b.parents| == N_GROUPS
  {
    b.parents[GroupOf(c)].updates == 0
  }

  /** The tables that are used while their group's parent has not learned anything yet. */
  function FirstUses(b: Bank, h: History): (slots: set<nat>)
    requires WellFormedBank(b)
    decreases |h|
  {
    if h == [] then {}
    else
      (if ColdParent(b, h[0].0) then {Selected(b, h[0].0)} else {}) + FirstUses(Advance(b, h[0].0, h[0].1), h[1..])
  }

  predicate Slot(i: nat) {
    i < N_CTX * CTX_BUCKETS
  }

  function GroupOfSlot(i: nat): (g: nat)
    requires Slot(i)
    ensures g < N_GROUPS
  {
    GroupOf(i / CTX_BUCKETS)
  }

  /** One symbol warms the parent of its group, and cools none. */
  lemma {:induction false} ParentsWarm(b: Bank, c: Context, symbol: nat)
    requires WellFormedBank(b) && symbol < Alphabet(KindOf(c))
    ensures var n := Advance(b, c, symbol);
            && n.parents[GroupOf(c)].updates > 0
            && forall g :: 0 <= g < N_GROUPS && b.parents[g].updates > 0 ==> n.parents[g].updates > 0
  {
    hide KindOf, GroupOf, ParentKind, Prepared, Selected, WellFormed;
  }

  /** In each group at most one table is ever used cold, and none in a group that is warm already. */
  lemma {:induction false} OnePerGroup(b: Bank, h: History)
    requires WellFormedBank(b)
    ensures forall i :: i in FirstUses(b, h) ==> Slot(i) && b.parents[GroupOfSlot(i)].updates == 0
    ensures forall i, j :: i in FirstUses(b, h) && j in FirstUses(b, h) && GroupOfSlot(i) == GroupOfSlot(j) ==> i == j
    decreases |h|
  {
    if h != [] {
      var (c, symbol) := h[0];
      ParentsWarm(b, c, symbol);
      OnePerGroup(Advance(b, c, symbol), h[1..]);
      hide Advance, KindOf, GroupOf, WellFormedBank, Alphabet;
    }
  }

  /** Two banks that differ only in tables nobody will read: cold ones whose parent is warm, or that are not used before it is. */
  ghost predicate Alike(x: Bank, y: Bank, uses: set<nat>)
    requires WellFormedBank(x) && WellFormedBank(y)
  {
    && x.parents == y.parents && x.previous == y.previous
    && forall i :: 0 <= i < N_CTX * CTX_BUCKETS && x.models[i] != y.models[i] ==>
         && x.models[i].updates == 0 && y.models[i].updates == 0
         && (x.parents[GroupOfSlot(i)].updates > 0 || i !in uses)
  }

  lemma {:induction false} AlikePrepared(x: Bank, y: Bank, h: History)
    requires WellFormedBank(x) && WellFormedBank(y) && h != [] && Alike(x, y, FirstUses(x, h))
    ensures Prepared(x, h[0].0) == Prepared(y, h[0].0) && Selected(x, h[0].0) == Selected(y, h[0].0)
  {
    hide Advance, KindOf, GroupOf, WellFormed, Alphabet;
    var i := Selected(x, h[0].0);
    assert ColdParent(x, h[0].0) ==> i in FirstUses(x, h);
  }

  lemma {:induction false} AlikeAdvance(x: Bank, y: Bank, h: History)
    requires WellFormedBank(x) && WellFormedBank(y) && h != [] && Alike(x, y, FirstUses(x, h))
    ensures var (c, symbol) := h[0]; var x' := Advance(x, c, symbol);
            Alike(x', Advance(y, c, symbol), FirstUses(x', h[1..]))
  {
    hide FirstUses, KindOf, GroupOf, WellFormed, Alphabet, Prepared, Learn, BucketOf;
    var (c, symbol) := h[0];
    AlikePrepared(x, y, h);
    ParentsWarm(x, c, symbol);
    LaterUsesToo(x, h);
  }

  lemma {:induction false} LaterUsesToo(x: Bank, h: History)
    requires WellFormedBank(x) && h != []
    ensures FirstUses(Advance(x, h[0].0, h[0].1), h[1..]) <= FirstUses(x, h)
  {
    hide Advance, KindOf, GroupOf, WellFormed, Alphabet, Prepared;
  }

  // ---- The contexts whose priors are seen ----

  /** Of its group the context is the first to occur. */
  predicate FirstOfGroup(h: History, c: Context) {
    exists i :: 0 <= i < |h| && FirstAt(h, c, i)
  }

  predicate FirstAt(h: History, c: Context, i: nat)
    requires i < |h|
  {
    h[i].0 == c && forall j :: 0 <= j < i ==> GroupOf(h[j].0) != GroupOf(c)
  }

  lemma {:induction false} FirstUnfolds(h: History, c: Context)
    requires h != []
    ensures FirstOfGroup(h, c) <==> h[0].0 == c || (GroupOf(h[0].0) != GroupOf(c) && FirstOfGroup(h[1..], c))
  {
    hide GroupOf, KindOf, Alphabet, FirstAt;
    FirstAtOnce(h, c);
    if FirstOfGroup(h[1..], c) && GroupOf(h[0].0) != GroupOf(c) {
      var i :| 0 <= i < |h[1..]| && FirstAt(h[1..], c, i);
      FirstAtLater(h, c, i + 1);
    }
    if FirstOfGroup(h, c) && h[0].0 != c {
      var i :| 0 <= i < |h| && FirstAt(h, c, i);
      FirstAtLater(h, c, i);
    }
  }

  lemma {:induction false} FirstAtOnce(h: History, c: Context)
    requires h != []
    ensures FirstAt(h, c, 0) <==> h[0].0 == c
  {
  }

  lemma {:induction false} FirstAtLater(h: History, c: Context, i: nat)
    requires 0 < i < |h|
    ensures FirstAt(h, c, i) <==> GroupOf(h[0].0) != GroupOf(c) && FirstAt(h[1..], c, i - 1)
  {
    hide GroupOf, KindOf, Alphabet;
    var rest := h[1..];
    assert forall j :: 0 <= j < |rest| ==> rest[j] == h[j + 1];
    assert forall j :: 0 < j < |h| ==> h[j] == rest[j - 1];
  }

  /** A table is used cold exactly if its context is the first of a cold group, and the table the one selected now. */
  lemma {:induction false} UsedCold(b: Bank, h: History, i: nat)
    requires WellFormedBank(b) && Slot(i)
    ensures i in FirstUses(b, h) <==>
              FirstOfGroup(h, i / CTX_BUCKETS) && ColdParent(b, i / CTX_BUCKETS) && i == Selected(b, i / CTX_BUCKETS)
    decreases |h|
  {
    if h != [] {
      var (c, symbol) := h[0];
      FirstUnfolds(h, i / CTX_BUCKETS);
      ParentsWarm(b, c, symbol);
      UsedCold(Advance(b, c, symbol), h[1..], i);
      hide KindOf, GroupOf, WellFormed, Alphabet, FirstOfGroup, BucketOf, Prepared, Learn;
    }
  }

  // ---- The tables a history meets ----

  /** At every symbol of the history both banks hand out the same table. */
  ghost predicate SameTables(x: Bank, y: Bank, h: History)
    requires WellFormedBank(x) && WellFormedBank(y)
    decreases |h|
  {
    h == [] || (Prepared(x, h[0].0) == Prepared(y, h[0].0)
                && SameTables(Advance(x, h[0].0, h[0].1), Advance(y, h[0].0, h[0].1), h[1..]))
  }

  lemma {:induction false} AlikeSameTables(x: Bank, y: Bank, h: History)
    requires WellFormedBank(x) && WellFormedBank(y) && Alike(x, y, FirstUses(x, h))
    ensures SameTables(x, y, h)
    decreases |h|
  {
    hide Alike, FirstUses, Advance, WellFormedBank, Prepared, KindOf;
    if h != [] {
      AlikePrepared(x, y, h);
      AlikeAdvance(x, y, h);
      AlikeSameTables(Advance(x, h[0].0, h[0].1), Advance(y, h[0].0, h[0].1), h[1..]);
    }
  }

  /** What is used cold is met as it is: banks that hand out the same tables agree on it. */
  lemma {:induction false} SameTablesAgree(x: Bank, y: Bank, h: History, i: nat)
    requires WellFormedBank(x) && WellFormedBank(y) && x.parents == y.parents && x.previous == y.previous
    requires SameTables(x, y, h) && i in FirstUses(x, h)
    ensures Slot(i) && x.models[i] == y.models[i]
    decreases |h|
  {
    hide SameTables, FirstUses, Advance, Prepared, KindOf, GroupOf, BucketOf, WellFormed, Alphabet;
    OnePerGroup(x, h);
    FirstUseOf(x, h, i);
    var (c, symbol) := h[0];
    TablesUnfold(x, y, h);
    if ColdParent(x, c) && i == Selected(x, c) {
      ColdPrepared(x, y, c);
    } else {
      SameTablesAgree(Advance(x, c, symbol), Advance(y, c, symbol), h[1..], i);
      LaterUse(x, y, h, i);
    }
  }

  lemma {:induction false} FirstUseOf(x: Bank, h: History, i: nat)
    requires WellFormedBank(x) && i in FirstUses(x, h)
    ensures h != [] && ((ColdParent(x, h[0].0) && i == Selected(x, h[0].0)) || i in FirstUses(Advance(x, h[0].0, h[0].1), h[1..]))
  {
  }

  lemma {:induction false} TablesUnfold(x: Bank, y: Bank, h: History)
    requires WellFormedBank(x) && WellFormedBank(y) && x.parents == y.parents && x.previous == y.previous
    requires SameTables(x, y, h) && h != []
    ensures var (x', y') := (Advance(x, h[0].0, h[0].1), Advance(y, h[0].0, h[0].1));
            && Prepared(x, h[0].0) == Prepared(y, h[0].0) && SameTables(x', y', h[1..])
            && x'.parents == y'.parents && x'.previous == y'.previous
  {
    hide Prepared, GroupOf, WellFormed, Alphabet, Learn, KindOf;
  }

  lemma {:induction false} ColdPrepared(x: Bank, y: Bank, c: Context)
    requires WellFormedBank(x) && WellFormedBank(y) && x.parents == y.parents && x.previous == y.previous && ColdParent(x, c)
    ensures Selected(x, c) == Selected(y, c) && Slot(Selected(x, c))
    ensures Prepared(x, c) == x.models[Selected(x, c)] && Prepared(y, c) == y.models[Selected(y, c)]
  {
  }

  /** A table used cold later is not the one in use now. */
  lemma {:induction false} LaterUse(x: Bank, y: Bank, h: History, i: nat)
    requires WellFormedBank(x) && WellFormedBank(y) && x.previous == y.previous && h != []
    requires i in FirstUses(Advance(x, h[0].0, h[0].1), h[1..])
    ensures Slot(i) && |x.models| == |y.models| == N_CTX * CTX_BUCKETS && |Advance(y, h[0].0, h[0].1).models| == N_CTX * CTX_BUCKETS
    ensures Advance(x, h[0].0, h[0].1).models[i] == x.models[i] && Advance(y, h[0].0, h[0].1).models[i] == y.models[i]
  {
    hide Advance, FirstUses, KindOf, GroupOf, WellFormed, WellFormedBank, Alphabet, BucketOf, Prepared;
    LaterSlot(x, h, i);
    OtherTables(x, h[0].0, h[0].1, i);
    OtherTables(y, h[0].0, h[0].1, i);
  }

  lemma {:induction false} LaterSlot(b: Bank, h: History, i: nat)
    requires WellFormedBank(b) && h != [] && i in FirstUses(Advance(b, h[0].0, h[0].1), h[1..])
    ensures Slot(i) && GroupOfSlot(i) != GroupOf(h[0].0)
    ensures |b.models| == |Advance(b, h[0].0, h[0].1).models| == N_CTX * CTX_BUCKETS
  {
    hide Advance, FirstUses, KindOf, GroupOf, WellFormed, Alphabet, BucketOf, Prepared;
    OnePerGroup(Advance(b, h[0].0, h[0].1), h[1..]);
    ParentsWarm(b, h[0].0, h[0].1);
  }

  lemma {:induction false} OtherTables(b: Bank, c: Context, symbol: nat, i: nat)
    requires WellFormedBank(b) && symbol < Alphabet(KindOf(c)) && Slot(i) && GroupOfSlot(i) != GroupOf(c)
    ensures |b.models| == |Advance(b, c, symbol).models| == N_CTX * CTX_BUCKETS && Advance(b, c, symbol).models[i] == b.models[i]
  {
    hide KindOf, GroupOf, WellFormed, Alphabet, BucketOf, Prepared, Learn;
  }
}
