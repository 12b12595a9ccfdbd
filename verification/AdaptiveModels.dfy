/** Adaptive frequency tables: their priors, their learning step, and decoding one symbol with them. */
module AdaptiveModels {
  import opened Bytes
  import opened Outcome
  import opened RangeCoder
  import opened RangeMachines

  const ADAPT_LIMIT: nat := 8192

  datatype Kind = Split | Eob | Mode | Tx | Cdef | Dc | Run | Level

  function Alphabet(kind: Kind): (n: nat)
    ensures 2 <= n <= 32
  {
    match kind
    case Split => 2
    case Eob => 2
    case Mode => 15
    case Tx => 4
    case Cdef => 4
    case Dc => 32
    case Run => 22
    case Level => 32
  }

  function Prior(kind: Kind): (freq: seq<nat>)
    ensures |freq| == Alphabet(kind) && forall i :: 0 <= i < |freq| ==> 1 <= freq[i] <= 32
  {
    match kind
    case Split => [3, 2]
    case Eob => [1, 1]
    case Mode => seq(15, _ => 1)
    case Tx => [8, 2, 2, 1]
    case Cdef => [8, 3, 2, 1]
    case Dc => seq(32, s requires 0 <= s < 32 => if s < 32 && 16 - s / 2 > 1 then 16 - s / 2 else 1)
    case Run => seq(22, s requires 0 <= s < 22 => if s == 0 then 32 else if s == 1 then 16 else if s == 2 then 8
                                                  else if s <= 7 then 4 else 1)
    case Level => seq(32, s requires 0 <= s < 32 => if s == 0 then 32 else if s == 1 then 16 else if s <= 3 then 4 else 1)
  }

  function Sum(s: seq<nat>): (total: nat) {
    if s == [] then 0 else Sum(s[..|s| - 1]) + s[|s| - 1]
  }

  lemma {:induction false} SumPrefix(s: seq<nat>, n: nat)
    requires n < |s|
    ensures Sum(s[..n + 1]) == Sum(s[..n]) + s[n]
  {
    assert s[..n + 1][..n] == s[..n];
  }

  lemma {:induction false} SumMonotone(s: seq<nat>, m: nat, n: nat)
    requires m <= n <= |s|
    ensures Sum(s[..m]) <= Sum(s[..n])
    decreases n
  {
    if m < n {
      SumMonotone(s, m, n - 1);
      SumPrefix(s, n - 1);
    }
  }

  lemma {:induction false} SumUpdate(s: seq<nat>, i: nat, v: nat)
    requires i < |s|
    ensures Sum(s[i := v]) + s[i] == Sum(s) + v
  {
    var last := |s| - 1;
    if i == last {
      assert s[i := v][..last] == s[..last];
    } else {
      assert s[i := v][..last] == s[..last][i := v];
      SumUpdate(s[..last], i, v);
    }
  }

  lemma {:induction false} SumBounded(s: seq<nat>, bound: nat)
    requires forall i :: 0 <= i < |s| ==> s[i] <= bound
    ensures Sum(s) <= |s| * bound
  {
    if s != [] {
      SumBounded(s[..|s| - 1], bound);
      assert |s| * bound == (|s| - 1) * bound + bound;
    }
  }

  // ---- Models as values ----

  datatype Model = Model(freq: seq<nat>, total: nat, updates: nat)

  ghost predicate Positive(freq: seq<nat>) {
    forall i :: 0 <= i < |freq| ==> 1 <= freq[i]
  }

  ghost predicate Within(symbols: seq<nat>, n: nat) {
    forall i :: 0 <= i < |symbols| ==> symbols[i] < n
  }

  /** Positive frequencies whose sum is `total`, under the halving limit. */
  ghost predicate WellFormed(m: Model, kind: Kind) {
    && |m.freq| == Alphabet(kind)
    && Positive(m.freq)
    && m.total == Sum(m.freq) && m.total < ADAPT_LIMIT
  }

  function Fresh(kind: Kind): (m: Model)
    ensures WellFormed(m, kind) && m.updates == 0
  {
    SumBounded(Prior(kind), 32);
    Model(Prior(kind), Sum(Prior(kind)), 0)
  }

  function Increment(updates: nat): (inc: nat)
    ensures 32 <= inc <= 256
  {
    if updates <= 15 then 256 else if updates <= 63 then 128 else if updates <= 255 then 64 else 32
  }

  function Halve(freq: seq<nat>): (half: seq<nat>)
    ensures |half| == |freq|
    ensures forall i :: 0 <= i < |freq| ==> half[i] == if freq[i] / 2 > 1 then freq[i] / 2 else 1
  {
    seq(|freq|, i requires 0 <= i < |freq| => if freq[i] / 2 > 1 then freq[i] / 2 else 1)
  }

  lemma {:induction false} HalvedSum(freq: seq<nat>)
    requires Positive(freq)
    ensures 2 * Sum(Halve(freq)) <= Sum(freq) + |freq|
  {
    if freq != [] {
      var last := |freq| - 1;
      assert Halve(freq)[..last] == Halve(freq[..last]);
      HalvedSum(freq[..last]);
    }
  }

  function Learn(m: Model, symbol: nat): (n: Model)
    requires symbol < |m.freq|
    ensures |n.freq| == |m.freq| && n.updates == m.updates + 1
  {
    var inc := Increment(m.updates);
    var raised := m.freq[symbol := m.freq[symbol] + inc];
    if m.total + inc >= ADAPT_LIMIT then Model(Halve(raised), Sum(Halve(raised)), m.updates + 1)
    else Model(raised, m.total + inc, m.updates + 1)
  }

  /** Learning keeps the table a table, and the learned symbol keeps at least its former weight or half of its new one. */
  lemma {:induction false} LearnKeepsForm(m: Model, kind: Kind, symbol: nat)
    requires WellFormed(m, kind) && symbol < Alphabet(kind)
    ensures WellFormed(Learn(m, symbol), kind)
  {
    hide Sum, Halve, Positive;
    var inc := Increment(m.updates);
    var raised := m.freq[symbol := m.freq[symbol] + inc];
    RaisedTable(m.freq, symbol, inc);
    if m.total + inc >= ADAPT_LIMIT {
      HalvedTable(raised);
    }
  }

  lemma {:induction false} RaisedTable(freq: seq<nat>, symbol: nat, inc: nat)
    requires Positive(freq) && symbol < |freq|
    ensures var raised := freq[symbol := freq[symbol] + inc];
            Positive(raised) && Sum(raised) == Sum(freq) + inc
  {
    SumUpdate(freq, symbol, freq[symbol] + inc);
  }

  lemma {:induction false} HalvedTable(freq: seq<nat>)
    requires Positive(freq) && |freq| <= 32 && Sum(freq) < ADAPT_LIMIT + 256
    ensures Positive(Halve(freq)) && Sum(Halve(freq)) < ADAPT_LIMIT
  {
    HalvedSum(freq);
  }

  /** Any run of learning steps and clones keeps every table well-formed. */
  function LearnAll(m: Model, symbols: seq<nat>): (n: Model)
    requires Within(symbols, |m.freq|)
    ensures |n.freq| == |m.freq|
  {
    if symbols == [] then m
    else Learn(LearnAll(m, symbols[..|symbols| - 1]), symbols[|symbols| - 1])
  }

  lemma {:induction false} LearnAllKeepsForm(m: Model, kind: Kind, symbols: seq<nat>)
    requires WellFormed(m, kind) && Within(symbols, Alphabet(kind))
    ensures WellFormed(LearnAll(m, symbols), kind) && LearnAll(m, symbols).updates == m.updates + |symbols|
  {
    if symbols != [] {
      LearnAllKeepsForm(m, kind, symbols[..|symbols| - 1]);
      LearnKeepsForm(LearnAll(m, symbols[..|symbols| - 1]), kind, symbols[|symbols| - 1]);
    }
  }

  // ---- One symbol through the range coder ----

  function SlotOf(m: Model, symbol: nat): (s: Slot)
    requires symbol < |m.freq|
  {
    Slot(Sum(m.freq[..symbol]), m.freq[symbol], m.total)
  }

  lemma {:induction false} SlotCarves(m: Model, kind: Kind, symbol: nat)
    requires WellFormed(m, kind) && symbol < Alphabet(kind)
    ensures Carves(SlotOf(m, symbol))
  {
    SumPrefix(m.freq, symbol);
    SumMonotone(m.freq, symbol + 1, |m.freq|);
    assert m.freq[..|m.freq|] == m.freq;
  }

  /** The symbol whose share holds the looked-up position: the scan never runs off the table. */
  function SymbolAt(freq: seq<nat>, target: nat, from: nat): (symbol: nat)
    requires from < |freq| && Sum(freq[..from]) <= target < Sum(freq)
    ensures from <= symbol < |freq|
    ensures Sum(freq[..symbol]) <= target < Sum(freq[..symbol]) + freq[symbol]
    decreases |freq| - from
  {
    SumPrefix(freq, from);
    assert freq[..|freq|] == freq;
    if Sum(freq[..from]) + freq[from] > target then from else SymbolAt(freq, target, from + 1)
  }

  lemma {:induction false} SymbolIsUnique(freq: seq<nat>, target: nat, a: nat, b: nat)
    requires a < |freq| && Sum(freq[..a]) <= target < Sum(freq[..a]) + freq[a]
    requires b < |freq| && Sum(freq[..b]) <= target < Sum(freq[..b]) + freq[b]
    ensures a == b
  {
    SumPrefix(freq, a);
    SumPrefix(freq, b);
    if a < b {
      SumMonotone(freq, a + 1, b);
    } else if b < a {
      SumMonotone(freq, b + 1, a);
    }
  }

  function Lookup(st: Cursor, m: Model, kind: Kind): (symbol: nat)
    requires Ready(st) && WellFormed(m, kind)
    ensures symbol < Alphabet(kind) && Carves(SlotOf(m, symbol))
    ensures SlotOf(m, symbol).cum <= Target(st, m.total) < SlotOf(m, symbol).cum + SlotOf(m, symbol).freq
  {
    TotalPositive(m, kind);
    var symbol := SymbolAt(m.freq, Target(st, m.total), 0);
    SlotCarves(m, kind, symbol);
    symbol
  }

  lemma {:induction false} TotalPositive(m: Model, kind: Kind)
    requires WellFormed(m, kind)
    ensures 0 < m.total <= TOTAL_LIMIT && Sum(m.freq[..0]) == 0
  {
    SumPrefix(m.freq, 0);
    SumMonotone(m.freq, 1, |m.freq|);
    assert m.freq[..|m.freq|] == m.freq;
  }

  /** One adaptive symbol: which it is, and where the range decoder stands after it. */
  function DecodeSymbol(data: seq<byte>, st: Cursor, m: Model, kind: Kind): (res: Result<(nat, Cursor)>)
    requires Ready(st) && WellFormed(m, kind)
    ensures res.Ok? ==> res.value.0 < Alphabet(kind) && Ready(res.value.1)
    ensures res.Ok? && st.pos <= |data| ==> res.value.1.pos <= |data|
  {
    var symbol := Lookup(st, m, kind);
    var next :- Consume(data, st, SlotOf(m, symbol));
    Ok((symbol, next))
  }

  /** Decoding inverts carving: a stream inside the symbol's part yields that very symbol. */
  lemma {:induction false} DecodeInvertsCarve(data: seq<byte>, iv: Interval, st: Cursor, m: Model, kind: Kind, symbol: nat)
    requires WellFormed(m, kind) && symbol < Alphabet(kind) && Tracks(data, iv, st)
    requires Carves(SlotOf(m, symbol)) && Inside(data, Narrow(iv, SlotOf(m, symbol)))
    ensures var res := DecodeSymbol(data, st, m, kind);
            res.Ok? && res.value.0 == symbol && Tracks(data, Narrow(iv, SlotOf(m, symbol)), res.value.1)
  {
    StepTracks(data, iv, st, SlotOf(m, symbol));
    SymbolIsUnique(m.freq, Target(st, m.total), symbol, Lookup(st, m, kind));
  }

  /** From any state decoding a symbol reads at most two bytes, and with two left it succeeds. */
  lemma {:induction false} AtMostTwoBytes(data: seq<byte>, st: Cursor, m: Model, kind: Kind)
    requires Ready(st) && WellFormed(m, kind)
    ensures DecodeSymbol(data, st, m, kind).Ok? ==> st.pos <= DecodeSymbol(data, st, m, kind).value.1.pos <= st.pos + 2
    ensures st.pos + 2 <= |data| ==> DecodeSymbol(data, st, m, kind).Ok?
  {
    var s := SlotOf(m, Lookup(st, m, kind));
    WideShare(st.range, s);
    hide Lookup, Offset, Share, SlotOf, Width;
    CodeCovers(st.code, Share(st.range, s), s.cum);
    TwoRefills(data, Cursor(st.code - Offset(st.range, s), Width(st.range, s), st.pos));
  }

  lemma {:induction false} TwoRefills(data: seq<byte>, st: Cursor)
    requires 2048 <= st.range < WORD
    ensures Refill(data, st).Ok? ==> st.pos <= Refill(data, st).value.pos <= st.pos + 2
    ensures st.pos + 2 <= |data| ==> Refill(data, st).Ok?
  {
    if st.range < TOP && st.pos < |data| {
      var next := Cursor((256 * st.code + data[st.pos]) % WORD, 256 * st.range, st.pos + 1);
      if next.range < TOP && next.pos < |data| {
        var last := Cursor((256 * next.code + data[next.pos]) % WORD, 256 * next.range, next.pos + 1);
        assert Refill(data, st) == Refill(data, next) == Refill(data, last) == Ok(last);
      }
    }
  }

  /** With a total under the halving limit an interval gains at most two digits by a symbol. */
  lemma {:induction false} AtMostTwoDigits(iv: Interval, m: Model, kind: Kind, symbol: nat)
    requires Wide(iv) && WellFormed(m, kind) && symbol < Alphabet(kind) && Carves(SlotOf(m, symbol))
    ensures iv.shifts <= Narrow(iv, SlotOf(m, symbol)).shifts <= iv.shifts + 2
  {
    var part := Part(iv, SlotOf(m, symbol));
    WideShare(iv.range, SlotOf(m, symbol));
    WidenShifts(part);
    if part.range < TOP && Next(part).range < TOP {
      assert Widen(part) == Widen(Next(part)) == Widen(Next(Next(part)));
    }
  }

  lemma {:induction false} WideShare(range: nat, s: Slot)
    requires Carves(s) && TOP <= range < WORD && s.total < ADAPT_LIMIT
    ensures 2048 <= Width(range, s)
  {
    WideQuotient(range, s.total);
    ShareBounds(Share(range, s), s, range);
  }

  lemma {:induction false} WideQuotient(range: nat, total: nat)
    requires 0x100_0000 <= range && 0 < total < 8192
    ensures 2048 <= range / total
  {
    var r := range / total;
    DivisionBounds(range, total);
    MulMonotone(r + 1, total, 8191);
  }

  lemma {:induction false} FormSays(m: Model, kind: Kind)
    requires WellFormed(m, kind)
    ensures |m.freq| == Alphabet(kind) && m.total == Sum(m.freq)
  {
  }

  /** A table as an object that adapts in place. */
  class AdaptiveModel {
    const kind: Kind
    /** The place in its bank that owns the object: two places never share one. */
    ghost const home: nat
    var frequency: seq<nat>
    var total: nat
    var updates: nat

    ghost function State(): (m: Model)
      reads this
    {
      Model(frequency, total, updates)
    }

    ghost predicate Valid()
      reads this
    {
      WellFormed(State(), kind)
    }

    constructor (kind: Kind, ghost home: nat)
      ensures Valid() && this.kind == kind && this.home == home && State() == Fresh(kind)
    {
      this.kind := kind;
      this.home := home;
      frequency := Prior(kind);
      total := Sum(Prior(kind));
      updates := 0;
      new;
      assert State() == Fresh(kind);
    }

    constructor Copy(kind: Kind, frequency: seq<nat>, total: nat, updates: nat, ghost home: nat)
      ensures this.kind == kind && this.home == home && State() == Model(frequency, total, updates)
    {
      this.kind := kind;
      this.home := home;
      this.frequency, this.total, this.updates := frequency, total, updates;
    }

    method Clone(ghost place: nat) returns (clone: AdaptiveModel)
      ensures fresh(clone) && clone.kind == kind && clone.home == place && clone.State() == State()
    {
      clone := new AdaptiveModel.Copy(kind, frequency, total, updates, place);
    }

    method Adapt(symbol: nat)
      requires Valid() && symbol < Alphabet(kind)
      modifies this
      ensures Valid() && State() == Learn(old(State()), symbol)
    {
      hide Halve, Sum, WellFormed;
      LearnKeepsForm(State(), kind, symbol);
      FormSays(State(), kind);
      var increment := if updates <= 15 then 256 else if updates <= 63 then 128 else if updates <= 255 then 64 else 32;
      updates := updates + 1;
      frequency := frequency[symbol := frequency[symbol] + increment];
      total := total + increment;
      if total >= ADAPT_LIMIT {
        frequency := Halve(frequency);
        total := Sum(frequency);
      }
    }

    /** The scan over the table: it stops inside it, so a symbol outside the model cannot arise. */
    method Scan(slot: nat) returns (symbol: nat, cumulative: nat)
      requires Valid() && slot < total
      ensures symbol < Alphabet(kind) && cumulative == Sum(frequency[..symbol])
      ensures cumulative <= slot < cumulative + frequency[symbol]
    {
      assert frequency[..|frequency|] == frequency;
      symbol, cumulative := 0, 0;
      while symbol < |frequency|
        invariant symbol <= |frequency| && cumulative == Sum(frequency[..symbol]) <= slot
      {
        SumPrefix(frequency, symbol);
        if cumulative + frequency[symbol] > slot {
          return;
        }
        cumulative := cumulative + frequency[symbol];
        symbol := symbol + 1;
      }
      assert false;
    }

    /** Decodes and learns one symbol; `charged` is the total and frequency its cost is a function of. */
    method Decode(decoder: RangeDecoder) returns (res: Result<nat>, charged: (nat, nat))
      requires Valid() && decoder.Valid()
      modifies this, decoder
      ensures var spec := DecodeSymbol(decoder.data, old(decoder.State()), old(State()), kind);
              && res.Ok? == spec.Ok?
              && (res.Err? ==> res.fault == spec.fault)
              && (res.Ok? ==> Valid() && decoder.Valid() && res.value == spec.value.0
                              && decoder.State() == spec.value.1
                              && State() == Learn(old(State()), res.value)
                              && charged == (old(total), old(frequency)[res.value]))
    {
      TotalPositive(State(), kind);
      ghost var found := Lookup(decoder.State(), State(), kind);
      var slot := decoder.DecodeFreq(total);
      var symbol, cumulative := Scan(slot);
      SymbolIsUnique(frequency, slot, symbol, found);
      charged := (total, frequency[symbol]);
      var step := decoder.Update(cumulative, frequency[symbol], total);
      if step.Err? {
        return Err(step.fault), charged;
      }
      Adapt(symbol);
      res := Ok(symbol);
    }

    /** Codes and learns one symbol, as the encoder does. */
    method Encode(encoder: RangeEncoder, symbol: nat)
      requires Valid() && encoder.Valid() && symbol < Alphabet(kind)
      modifies this, encoder
      ensures Valid() && encoder.Valid() && State() == Learn(old(State()), symbol)
      ensures Carves(SlotOf(old(State()), symbol))
      ensures encoder.State() == CodeSlot(old(encoder.State()), SlotOf(old(State()), symbol))
    {
      var cumulative := 0;
      for s := 0 to symbol
        invariant State() == old(State()) && encoder.State() == old(encoder.State()) && encoder.Valid()
        invariant cumulative == Sum(frequency[..s])
      {
        SumPrefix(frequency, s);
        cumulative := cumulative + frequency[s];
      }
      SlotCarves(State(), kind, symbol);
      encoder.EncodeSlot(cumulative, frequency[symbol], total);
      Adapt(symbol);
    }

    /** Learns a known symbol; returns the total and frequency its cost is a function of. */
    method Observe(symbol: nat) returns (charged: (nat, nat))
      requires Valid() && symbol < Alphabet(kind)
      modifies this
      ensures charged == (old(total), old(frequency[symbol]))
      ensures Valid() && State() == Learn(old(State()), symbol)
    {
      charged := (total, frequency[symbol]);
      Adapt(symbol);
    }
  }
}
