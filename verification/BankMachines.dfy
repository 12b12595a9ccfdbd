/** The model bank and the entropy ledger as objects with fields, proved against ModelBanks. */
module BankMachines {
  import opened Outcome
  import opened RangeCoder
  import opened RangeMachines
  import opened AdaptiveModels
  import opened ModelBanks
  import opened VariantBanks

  // ---- The entropy ledger ----

  class EntropyLedger {
    const cost: Cost
    var symbols: map<Kind, nat>
    var bits: map<Kind, real>

    ghost function State(): (e: Entropy)
      reads this
    {
      Entropy(symbols, bits)
    }

    ghost predicate Valid()
      reads this
    {
      Covers(State())
    }

    constructor (cost: Cost)
      ensures Valid() && this.cost == cost
      ensures forall kind: Kind :: symbols[kind] == 0 && bits[kind] == 0.0
    {
      this.cost := cost;
      symbols := map[Split := 0, Eob := 0, Mode := 0, Tx := 0, Cdef := 0, Dc := 0, Run := 0, Level := 0];
      bits := map[Split := 0.0, Eob := 0.0, Mode := 0.0, Tx := 0.0, Cdef := 0.0, Dc := 0.0, Run := 0.0, Level := 0.0];
      new;
      forall kind: Kind
        ensures kind in symbols && kind in bits
      {
        match kind
        case Split =>
        case Eob =>
        case Mode =>
        case Tx =>
        case Cdef =>
        case Dc =>
        case Run =>
        case Level =>
      }
    }

    method Charge(kind: Kind, charged: (nat, nat))
      requires Valid()
      modifies this
      ensures Valid() && State() == Bill(old(State()), kind, cost(charged.0, charged.1))
    {
      symbols := symbols[kind := symbols[kind] + 1];
      bits := bits[kind := bits[kind] + cost(charged.0, charged.1)];
    }
  }

  // ---- The bank ----

  class ModelBank {
    const groupOf: seq<nat>
    const kindOf: seq<Kind>
    var models: seq<AdaptiveModel>
    var parents: seq<AdaptiveModel>
    var previous: seq<nat>
    /** Every table the bank owns or has owned. */
    ghost var tables: set<AdaptiveModel>

    ghost function State(): (b: Bank)
      reads this, models, parents
    {
      Bank(seq(|models|, i requires 0 <= i < |models| reads this, models => models[i].State()),
           seq(|parents|, i requires 0 <= i < |parents| reads this, parents => parents[i].State()),
           previous)
    }

    ghost predicate LaidOut()
      reads this
    {
      && |groupOf| == |kindOf| == N_CTX
      && (forall c :: 0 <= c < N_CTX ==> groupOf[c] == GroupOf(c) && kindOf[c] == KindOf(c))
    }

    ghost predicate Valid()
      reads this, models, parents
    {
      && LaidOut()
      && |models| == N_CTX * CTX_BUCKETS && |parents| == N_GROUPS && |previous| == N_CTX
      && (forall i :: 0 <= i < |models| ==> models[i] in tables && Houses(models[i], i, KindOf(i / CTX_BUCKETS)))
      && (forall g :: 0 <= g < |parents| ==> parents[g] in tables && Houses(parents[g], N_CTX * CTX_BUCKETS + g, ParentKind(g)))
    }

    /** A well-formed table of the right kind, owned by this place: no two places hold the same object. */
    ghost static predicate Houses(m: AdaptiveModel, place: nat, kind: Kind)
      reads m
    {
      m.home == place && m.kind == kind && m.Valid()
    }

    /** A cold bank: one table per context and bucket, one parent per group, no previous symbols. */
    constructor ()
      ensures Valid() && State() == FreshBank() && fresh(tables)
    {
      hide Fresh, KindOf, GroupOf, ParentKind, WellFormed, WellFormedBank;
      var groups, kinds := ModelLayout();
      var own := NewTables(kinds);
      var heads := NewParents(groups, kinds);
      groupOf, kindOf := groups, kinds;
      models, parents, previous := own, heads, seq(N_CTX, _ => 0);
      tables := (set m <- own) + (set m <- heads);
      new;
      assert State().models == FreshBank().models;
      assert State().parents == FreshBank().parents;
    }

    /** A cold bank that starts from other priors. */
    constructor Variant(p: Priors)
      requires Usable(p)
      ensures Valid() && State() == VariantBank(p) && fresh(tables)
    {
      hide Fresh, KindOf, GroupOf, ParentKind, WellFormed, WellFormedBank, ModelFromFreq;
      var groups, kinds := ModelLayout();
      var own := VariantTables(kinds, p);
      var heads := VariantParents(groups, kinds, p);
      groupOf, kindOf := groups, kinds;
      models, parents, previous := own, heads, seq(N_CTX, _ => 0);
      tables := (set m <- own) + (set m <- heads);
      new;
      assert State().models == VariantBank(p).models;
      assert State().parents == VariantBank(p).parents;
    }

    static method TableFrom(kind: Kind, freq: seq<nat>, ghost home: nat) returns (table: AdaptiveModel)
      requires WellFormed(ModelFromFreq(freq), kind)
      ensures fresh(table) && Houses(table, home, kind) && table.State() == ModelFromFreq(freq)
    {
      table := new AdaptiveModel.Copy(kind, freq, Sum(freq), 0, home);
    }

    static method VariantTables(kinds: seq<Kind>, p: Priors) returns (own: seq<AdaptiveModel>)
      requires |kinds| == N_CTX && (forall c :: 0 <= c < N_CTX ==> kinds[c] == KindOf(c)) && Usable(p)
      ensures |own| == N_CTX * CTX_BUCKETS && fresh(own)
      ensures forall i :: 0 <= i < |own| ==>
                Houses(own[i], i, KindOf(i / CTX_BUCKETS)) && own[i].State() == ModelFromFreq(p.own[i / CTX_BUCKETS])
    {
      hide ModelFromFreq, WellFormed, KindOf;
      own := [];
      for context := 0 to N_CTX
        invariant |own| == context * CTX_BUCKETS && fresh(own)
        invariant forall i :: 0 <= i < |own| ==>
                    Houses(own[i], i, KindOf(i / CTX_BUCKETS)) && own[i].State() == ModelFromFreq(p.own[i / CTX_BUCKETS])
      {
        for k := 0 to CTX_BUCKETS
          invariant |own| == context * CTX_BUCKETS + k && fresh(own)
          invariant forall i :: 0 <= i < |own| ==>
                      Houses(own[i], i, KindOf(i / CTX_BUCKETS)) && own[i].State() == ModelFromFreq(p.own[i / CTX_BUCKETS])
        {
          assert (context * CTX_BUCKETS + k) / CTX_BUCKETS == context;
          var table := TableFrom(kinds[context], p.own[context], context * CTX_BUCKETS + k);
          own := own + [table];
        }
      }
    }

    static method VariantParents(groups: seq<nat>, kinds: seq<Kind>, p: Priors) returns (heads: seq<AdaptiveModel>)
      requires |groups| == |kinds| == N_CTX && Usable(p)
      requires forall c :: 0 <= c < N_CTX ==> groups[c] == GroupOf(c) && kinds[c] == KindOf(c)
      ensures |heads| == N_GROUPS && fresh(heads)
      ensures forall g :: 0 <= g < N_GROUPS ==>
                Houses(heads[g], N_CTX * CTX_BUCKETS + g, ParentKind(g)) && heads[g].State() == ModelFromFreq(p.parents[g])
    {
      hide ModelFromFreq, WellFormed, KindOf, GroupOf, ParentKind;
      var parentKinds := ParentKinds(groups, kinds);
      heads := [];
      for g := 0 to N_GROUPS
        invariant |heads| == g && fresh(heads)
        invariant forall i :: 0 <= i < g ==>
                    Houses(heads[i], N_CTX * CTX_BUCKETS + i, ParentKind(i)) && heads[i].State() == ModelFromFreq(p.parents[i])
      {
        var head := TableFrom(parentKinds[g], p.parents[g], N_CTX * CTX_BUCKETS + g);
        heads := heads + [head];
      }
    }

    static method NewTables(kinds: seq<Kind>) returns (own: seq<AdaptiveModel>)
      requires |kinds| == N_CTX && forall c :: 0 <= c < N_CTX ==> kinds[c] == KindOf(c)
      ensures |own| == N_CTX * CTX_BUCKETS && fresh(own)
      ensures forall i :: 0 <= i < |own| ==>
                Houses(own[i], i, KindOf(i / CTX_BUCKETS)) && own[i].State() == Fresh(KindOf(i / CTX_BUCKETS))
    {
      hide Fresh, WellFormed, KindOf;
      own := [];
      for context := 0 to N_CTX
        invariant |own| == context * CTX_BUCKETS && fresh(own)
        invariant forall i :: 0 <= i < |own| ==>
                    Houses(own[i], i, KindOf(i / CTX_BUCKETS)) && own[i].State() == Fresh(KindOf(i / CTX_BUCKETS))
      {
        for k := 0 to CTX_BUCKETS
          invariant |own| == context * CTX_BUCKETS + k && fresh(own)
          invariant forall i :: 0 <= i < |own| ==>
                      Houses(own[i], i, KindOf(i / CTX_BUCKETS)) && own[i].State() == Fresh(KindOf(i / CTX_BUCKETS))
        {
          assert (context * CTX_BUCKETS + k) / CTX_BUCKETS == context;
          var table := new AdaptiveModel(kinds[context], context * CTX_BUCKETS + k);
          own := own + [table];
        }
      }
    }

    /** The kind of a parent is that of the last context in its group; unused groups would be `Level`. */
    static method ParentKinds(groups: seq<nat>, kinds: seq<Kind>) returns (parentKinds: seq<Kind>)
      requires |groups| == |kinds| == N_CTX
      requires forall c :: 0 <= c < N_CTX ==> groups[c] == GroupOf(c) && kinds[c] == KindOf(c)
      ensures |parentKinds| == N_GROUPS && forall g :: 0 <= g < N_GROUPS ==> parentKinds[g] == ParentKind(g)
    {
      parentKinds := seq(N_GROUPS, _ => Level);
      for context := 0 to N_CTX
        invariant |parentKinds| == N_GROUPS
        invariant forall c :: 0 <= c < context ==> parentKinds[GroupOf(c)] == ParentKind(GroupOf(c))
      {
        ParentSharesAlphabet(context);
        parentKinds := parentKinds[groups[context] := kinds[context]];
      }
      EveryGroupIsUsed(parentKinds);
    }

    static method NewParents(groups: seq<nat>, kinds: seq<Kind>) returns (heads: seq<AdaptiveModel>)
      requires |groups| == |kinds| == N_CTX
      requires forall c :: 0 <= c < N_CTX ==> groups[c] == GroupOf(c) && kinds[c] == KindOf(c)
      ensures |heads| == N_GROUPS && fresh(heads)
      ensures forall g :: 0 <= g < N_GROUPS ==>
                Houses(heads[g], N_CTX * CTX_BUCKETS + g, ParentKind(g)) && heads[g].State() == Fresh(ParentKind(g))
    {
      var parentKinds := ParentKinds(groups, kinds);
      heads := [];
      for g := 0 to N_GROUPS
        invariant |heads| == g && fresh(heads)
        invariant forall i :: 0 <= i < g ==>
                    Houses(heads[i], N_CTX * CTX_BUCKETS + i, ParentKind(i)) && heads[i].State() == Fresh(ParentKind(i))
      {
        var head := new AdaptiveModel(parentKinds[g], N_CTX * CTX_BUCKETS + g);
        heads := heads + [head];
      }
    }

    static lemma {:induction false} EveryGroupIsUsed(parentKinds: seq<Kind>)
      requires |parentKinds| == N_GROUPS
      requires forall c :: 0 <= c < N_CTX ==> parentKinds[GroupOf(c)] == ParentKind(GroupOf(c))
      ensures forall g :: 0 <= g < N_GROUPS ==> parentKinds[g] == ParentKind(g)
    {
      forall g | 0 <= g < N_GROUPS
        ensures parentKinds[g] == ParentKind(g)
      {
        var c: Context := if g == 0 then CTX_SPLIT else if g == 1 then CTX_MODE else if g == 2 then CTX_DC_BASE
                          else if g < 9 then CTX_RUN_BASE + (g - 3) else if g < 15 then CTX_LEVEL_BASE + (g - 9)
                          else if g < 21 then CTX_EOB_BASE + (g - 15) else if g == 21 then CTX_TX else CTX_CDEF;
        assert GroupOf(c) == g;
      }
    }

    lemma {:induction false} ValidMeansWellFormed()
      requires Valid()
      ensures WellFormedBank(State())
    {
    }

    /** The table for the next symbol; a cold table is first replaced by a clone of its warm parent. */
    method Prepare(context: Context) returns (model: AdaptiveModel, ghost index: nat)
      requires Valid()
      modifies this`models, this`tables
      ensures Valid() && WellFormedBank(old(State()))
      ensures index == Selected(old(State()), context) && model == models[index] && model.kind == KindOf(context)
      ensures model == old(models)[index] || fresh(model)
      ensures models == old(models)[index := model] && model in tables && old(tables) <= tables && fresh(tables - old(tables))
      ensures model.State() == Prepared(old(State()), context) && model.Valid() && index < |models|
    {
      hide WellFormed, WellFormedBank, Fresh;
      ValidMeansWellFormed();
      ParentSharesAlphabet(context);
      var bucket := if previous[context] / 8 < CTX_BUCKETS - 1 then previous[context] / 8 else CTX_BUCKETS - 1;
      if Alphabet(kindOf[context]) < 16 {
        bucket := 0;
      }
      var modelIndex := context * CTX_BUCKETS + bucket;
      index := modelIndex;
      var group := groupOf[context];
      model := models[modelIndex];
      if model.updates == 0 && parents[group].updates > 0 {
        model := Warm(modelIndex, group);
      }
    }

    /** Installs a clone of a parent, its learning rate restarted: the parent itself is never shared. */
    method Warm(index: nat, group: nat) returns (model: AdaptiveModel)
      requires Valid() && index < |models| && group < |parents| && ParentKind(group) == KindOf(index / CTX_BUCKETS)
      modifies this`models, this`tables
      ensures Valid() && models == old(models)[index := model] && fresh(model) && tables == old(tables) + {model}
      ensures Houses(model, index, KindOf(index / CTX_BUCKETS))
      ensures model.State() == parents[group].State().(updates := 0)
    {
      model := parents[group].Clone(index);
      model.updates := 0;
      Install(index, model);
    }

    method Install(index: nat, model: AdaptiveModel)
      requires Valid() && index < |models|
      requires Houses(model, index, KindOf(index / CTX_BUCKETS))
      modifies this`models, this`tables
      ensures Valid() && models == old(models)[index := model] && tables == old(tables) + {model}
    {
      models := models[index := model];
      tables := tables + {model};
    }

    method Decode(decoder: RangeDecoder, context: Context, entropy: EntropyLedger) returns (res: Result<nat>)
      requires Valid() && decoder.Valid() && entropy.Valid()
      modifies this, tables, decoder, entropy
      ensures WellFormedBank(old(State()))
      ensures var spec := Draw(decoder.data, old(decoder.State()), old(State()), context);
              && res.Ok? == spec.Ok?
              && (res.Err? ==> res.fault == spec.fault)
              && (res.Ok? ==>
                    && Valid() && decoder.Valid() && entropy.Valid() && res.value == spec.value.0
                    && decoder.State() == spec.value.1 && State() == spec.value.2
                    && fresh(tables - old(tables))
                    && entropy.State() == BillFor(old(entropy.State()), entropy.cost, old(State()), context, res.value))
    {
      var charged;
      res, charged := DecodeTables(decoder, context);
      if res.Ok? {
        entropy.Charge(kindOf[context], charged);
      }
    }

    method DecodeTables(decoder: RangeDecoder, context: Context) returns (res: Result<nat>, charged: (nat, nat))
      requires Valid() && decoder.Valid()
      modifies this, tables, decoder
      ensures WellFormedBank(old(State()))
      ensures var spec := Draw(decoder.data, old(decoder.State()), old(State()), context);
              && res.Ok? == spec.Ok?
              && (res.Err? ==> res.fault == spec.fault)
              && (res.Ok? ==>
                    && Valid() && decoder.Valid() && res.value == spec.value.0
                    && decoder.State() == spec.value.1 && State() == spec.value.2
                    && fresh(tables - old(tables))
                    && charged == Charged(old(State()), context, res.value))
    {
      hide DecodeSymbol, Learn, Prepared, Selected, GroupOf, ParentKind, KindOf, WellFormed, WellFormedBank, Advance;
      ghost var b := State();
      var model, index := Prepare(context);
      assert State().models == b.models[index := Prepared(b, context)];
      res, charged := DecodeAt(model, index, context, decoder);
      if res.Ok? {
        Record(context, res.value, b, index);
      }
    }

    /** Decoding with one table changes that entry of the bank's state and nothing else. */
    method DecodeAt(model: AdaptiveModel, ghost index: nat, ghost context: Context, decoder: RangeDecoder)
      returns (res: Result<nat>, charged: (nat, nat))
      requires Valid() && decoder.Valid() && index < |models| && model == models[index] && model.kind == KindOf(context)
      requires WellFormed(model.State(), KindOf(context))
      modifies model, decoder
      ensures var spec := DecodeSymbol(decoder.data, old(decoder.State()), old(model.State()), KindOf(context));
              && res.Ok? == spec.Ok?
              && (res.Err? ==> res.fault == spec.fault)
              && (res.Ok? ==> Valid() && decoder.Valid() && res.value == spec.value.0
                              && decoder.State() == spec.value.1
                              && State() == old(State()).(models := old(State()).models[index := Learn(old(model.State()), res.value)])
                              && charged == (old(model.State()).total, old(model.State()).freq[res.value]))
    {
      res, charged := model.Decode(decoder);
      if res.Ok? {
        assert State().models == old(State()).models[index := Learn(old(model.State()), res.value)];
      }
    }

    method ObserveAt(model: AdaptiveModel, ghost index: nat, symbol: nat) returns (charged: (nat, nat))
      requires Valid() && index < |models| && model == models[index] && model.Valid() && symbol < Alphabet(model.kind)
      modifies model
      ensures Valid() && State() == old(State()).(models := old(State()).models[index := Learn(old(model.State()), symbol)])
      ensures charged == (old(model.State()).total, old(model.State()).freq[symbol])
    {
      charged := model.Observe(symbol);
      assert State().models == old(State()).models[index := Learn(old(model.State()), symbol)];
    }

    /** Codes one symbol: the encoder's half of `Decode`, with the same effect on the tables. */
    method Encode(encoder: RangeEncoder, context: Context, symbol: nat)
      requires Valid() && encoder.Valid() && symbol < Alphabet(KindOf(context))
      modifies this, tables, encoder
      ensures WellFormedBank(old(State())) && Valid() && encoder.Valid() && fresh(tables - old(tables))
      ensures State() == Advance(old(State()), context, symbol)
      ensures symbol < |Prepared(old(State()), context).freq|
      ensures var slot := SlotOf(Prepared(old(State()), context), symbol);
              Carves(slot) && encoder.State() == CodeSlot(old(encoder.State()), slot)
    {
      hide CodeSlot, Learn, Selected, GroupOf, ParentKind, KindOf, WellFormed, WellFormedBank, Advance;
      ghost var b := State();
      var model, index := Prepare(context);
      assert State().models == b.models[index := Prepared(b, context)];
      EncodeAt(model, index, symbol, encoder);
      Record(context, symbol, b, index);
    }

    method EncodeAt(model: AdaptiveModel, ghost index: nat, symbol: nat, encoder: RangeEncoder)
      requires Valid() && encoder.Valid() && index < |models| && model == models[index] && model.Valid()
      requires symbol < Alphabet(model.kind)
      modifies model, encoder
      ensures Valid() && encoder.Valid()
      ensures State() == old(State()).(models := old(State()).models[index := Learn(old(model.State()), symbol)])
      ensures Carves(SlotOf(old(model.State()), symbol))
      ensures encoder.State() == CodeSlot(old(encoder.State()), SlotOf(old(model.State()), symbol))
    {
      model.Encode(encoder, symbol);
      assert State().models == old(State()).models[index := Learn(old(model.State()), symbol)];
    }

    /** Learns a known symbol, with the same effect on the tables as decoding it. */
    method Observe(context: Context, symbol: nat, entropy: EntropyLedger)
      requires Valid() && entropy.Valid() && symbol < Alphabet(KindOf(context))
      modifies this, tables, entropy
      ensures WellFormedBank(old(State())) && Valid() && entropy.Valid()
      ensures State() == Advance(old(State()), context, symbol)
      ensures fresh(tables - old(tables))
      ensures entropy.State() == BillFor(old(entropy.State()), entropy.cost, old(State()), context, symbol)
    {
      var charged := ObserveTables(context, symbol);
      entropy.Charge(kindOf[context], charged);
    }

    method ObserveTables(context: Context, symbol: nat) returns (charged: (nat, nat))
      requires Valid() && symbol < Alphabet(KindOf(context))
      modifies this, tables
      ensures WellFormedBank(old(State())) && Valid() && fresh(tables - old(tables))
      ensures State() == Advance(old(State()), context, symbol) && charged == Charged(old(State()), context, symbol)
    {
      hide DecodeSymbol, Learn, Prepared, Selected, GroupOf, ParentKind, KindOf, WellFormed, WellFormedBank, Advance;
      ghost var b := State();
      var model, index := Prepare(context);
      assert State().models == b.models[index := Prepared(b, context)];
      charged := ObserveAt(model, index, symbol);
      Record(context, symbol, b, index);
    }

    /** The part common to both: the parent learns the symbol and the context remembers it. */
    method Record(context: Context, symbol: nat, ghost b: Bank, ghost index: nat)
      requires Valid() && symbol < Alphabet(KindOf(context)) && WellFormedBank(b)
      requires index == Selected(b, context) && symbol < |Prepared(b, context).freq|
      requires State() == b.(models := b.models[index := Learn(Prepared(b, context), symbol)])
      modifies this`previous, parents
      ensures Valid() && State() == Advance(b, context, symbol)
    {
      hide WellFormed, WellFormedBank, Fresh, Learn;
      ParentSharesAlphabet(context);
      parents[groupOf[context]].Adapt(symbol);
      previous := previous[context := symbol];
      assert State().models == Advance(b, context, symbol).models;
      assert State().parents == Advance(b, context, symbol).parents;
    }
  }
}
