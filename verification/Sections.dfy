/** One plane section end to end: the objects that write it and the objects that read it back. */
module Sections {
  import opened Bytes
  import opened Outcome
  import opened RangeCoder
  import opened RangeMachines
  import opened AdaptiveModels
  import opened ModelBanks
  import opened BankMachines
  import opened RawBits
  import opened PlaneSyntax
  import opened PlaneCodec
  import opened Tallies
  import opened PlaneMachine

  /** What a tile's decoder carries from plane to plane. */
  datatype PlaneOutput = PlaneOutput(plane: Plane, trace: seq<(Context, nat)>, tally: Tally)

  /** Opens both streams of a section and decodes its plane with the tile's bank. */
  method DecodeSection(tokens: seq<byte>, raw: seq<byte>, bank: ModelBank, entropy: EntropyLedger, area: Area,
                       trace: seq<(Context, nat)>, tally: Tally) returns (res: Result<PlaneOutput>)
    requires bank.Valid() && entropy.Valid()
    modifies bank, bank.tables, entropy
    ensures Sound(Carry(old(bank.State()), trace, old(entropy.State())))
    ensures var spec := DecodePlane(Streams(tokens, raw, entropy.cost), Carry(old(bank.State()), trace, old(entropy.State())), area);
            && res.Ok? == spec.Ok? && (res.Err? ==> res.fault == spec.fault)
            && (res.Ok? ==>
                  && bank.Valid() && entropy.Valid() && fresh(bank.tables - old(bank.tables))
                  && res.value.plane == spec.value.plane && ValidPlane(area, res.value.plane)
                  && Carry(bank.State(), res.value.trace, entropy.State()) == spec.value.carry
                  && res.value.tally == TallyRoots(tally, area, 0, res.value.plane.roots))
  {
    hide WellFormedBank, ModelBank.Valid, ModelBank.State, EntropyLedger.Valid, EntropyLedger.State, Covers;
    hide RangeDecoder.Valid, RangeDecoder.State, RawBitReader.Valid, ReadPlane, Closed, TallyRoots, ValidPlane, Start, Ready;
    bank.ValidMeansWellFormed();
    LedgerCovers(entropy);
    var range := RangeDecoder.Open(tokens);
    if range.Err? {
      return Err(range.fault);
    }
    var reader := new RawBitReader(raw);
    var decoder := new PlaneSyntaxDecoder(bank, range.value, reader, entropy, area, trace, tally);
    var plane := decoder.Decode();
    if plane.Err? {
      return Err(plane.fault);
    }
    return Ok(PlaneOutput(plane.value, decoder.trace, decoder.tally));
  }

  lemma {:induction false} LedgerCovers(entropy: EntropyLedger)
    requires entropy.Valid()
    ensures Covers(entropy.State())
  {
  }

  // ---- Writing ----

  /** Codes a trace through the bank and finishes the range stream. */
  method WriteTokens(bank: ModelBank, h: History) returns (tokens: seq<byte>)
    requires bank.Valid()
    modifies bank, bank.tables
    ensures bank.Valid() && fresh(bank.tables - old(bank.tables))
    ensures WellFormedBank(old(bank.State()))
    ensures tokens == Message(Carve(old(bank.State()), h)) && bank.State() == After(old(bank.State()), h)
  {
    hide WellFormedBank, ModelBank.Valid, ModelBank.State, EncodeAll, Carve, After, Settled, Finish;
    bank.ValidMeansWellFormed();
    ghost var b := bank.State();
    var encoder := new RangeEncoder();
    var i := 0;
    while i < |h|
      invariant i <= |h| && bank.Valid() && encoder.Valid() && fresh(bank.tables - old(bank.tables))
      invariant WellFormedBank(bank.State())
      invariant After(bank.State(), h[i..]) == After(b, h)
      invariant EncodeAll(encoder.State(), Carve(bank.State(), h[i..])) == EncodeAll(FRESH, Carve(b, h))
    {
      RestUnfolds(bank.State(), encoder.State(), h, i);
      bank.Encode(encoder, h[i].0, h[i].1);
      bank.ValidMeansWellFormed();
      i := i + 1;
    }
    RestEnds(bank.State(), encoder.State(), h);
    tokens := encoder.FinishStream();
  }

  lemma {:induction false} RestUnfolds(b: Bank, e: Carrier, h: History, i: nat)
    requires WellFormedBank(b) && TOP <= e.range < WORD && Settled(e, e.range) && i < |h|
    ensures After(b, h[i..]) == After(Advance(b, h[i].0, h[i].1), h[i + 1..])
    ensures h[i].1 < |Prepared(b, h[i].0).freq| && Carves(SlotOf(Prepared(b, h[i].0), h[i].1))
    ensures EncodeAll(e, Carve(b, h[i..]))
         == EncodeAll(CodeSlot(e, SlotOf(Prepared(b, h[i].0), h[i].1)), Carve(Advance(b, h[i].0, h[i].1), h[i + 1..]))
  {
    hide Prepared, Advance, CodeSlot, Settled, WellFormedBank;
    assert h[i..][0] == h[i] && h[i..][1..] == h[i + 1..];
    CarveUnfolds(WHOLE, b, h[i..]);
    CarveStep(b, h[i..]);
  }

  lemma {:induction false} RestEnds(b: Bank, e: Carrier, h: History)
    requires WellFormedBank(b) && TOP <= e.range < WORD && Settled(e, e.range)
    ensures After(b, h[|h|..]) == b && EncodeAll(e, Carve(b, h[|h|..])) == e
  {
  }

  /** Writes the raw fields one after another and packs them. */
  method WriteFields(ops: seq<Op>) returns (raw: seq<byte>)
    requires AllCodable(ops)
    ensures Packs(raw, FieldBits(ops))
  {
    hide ToBits, BitWriter.Written, BitsOf, FieldBits, Pow2;
    var writer := new BitWriter();
    FieldsBegin(ops);
    for i := 0 to |ops|
      invariant writer.Valid() && fresh(writer)
      invariant writer.Written() == FieldBits(ops[..i])
    {
      FieldsStep(ops, i);
      if ops[i].Field? {
        writer.Write(ops[i].v, ops[i].n);
      }
    }
    assert ops[..|ops|] == ops;
    raw := writer.Finish();
  }

  lemma {:induction false} FieldsBegin(ops: seq<Op>)
    ensures FieldBits(ops[..0]) == []
  {
  }

  lemma {:induction false} FieldsStep(ops: seq<Op>, i: nat)
    requires AllCodable(ops) && i < |ops|
    ensures FieldBits(ops[..i + 1]) == FieldBits(ops[..i]) + (if ops[i].Field? then ToBits(ops[i].v, ops[i].n) else [])
    ensures ops[i].Field? ==> ops[i].n <= 24 && ops[i].v < Pow2(ops[i].n)
  {
    assert Codable(ops[i]);
    assert ops[..i + 1] == ops[..i] + [ops[i]];
    BitsConcat(ops[..i], [ops[i]]);
    assert [ops[i]][1..] == [];
  }

  /**
   * Writes a plane with a cold bank, reads the section back with another, and gets the plane: the two halves of the
   * codec, run one after the other, agree on the plane and leave equal banks.
   */
  method WriteThenRead(area: Area, plane: Plane, entropy: EntropyLedger)
    returns (res: Result<PlaneOutput>, writing: ModelBank, reading: ModelBank)
    requires ValidPlane(area, plane) && entropy.Valid()
    modifies entropy
    ensures AllCodable(PlaneOps(area, plane))
    ensures res.Ok? && res.value.plane == plane && res.value.trace == TraceOf(PlaneOps(area, plane))
    ensures writing != reading && writing.Valid() && reading.Valid() && writing.State() == reading.State()
  {
    hide WellFormedBank, ModelBank.Valid, ModelBank.State, EntropyLedger.State, EntropyLedger.Valid, PlaneOps, TraceOf,
      FieldBits, Carve, Message, Packs, ValidPlane, DecodePlane, TallyRoots, BillAll, After, AllCodable, Covers, FreshBank;
    PlaneCodable(area, plane);
    LedgerCovers(entropy);
    var ops := PlaneOps(area, plane);
    writing := new ModelBank();
    var tokens := WriteTokens(writing, TraceOf(ops));
    var raw := WriteFields(ops);
    OwnTables(writing);
    ghost var written := writing.State();
    reading := new ModelBank();
    PlaneIsOps(Streams(tokens, raw, entropy.cost), Carry(reading.State(), [], entropy.State()), area, plane);
    PlaneRoundTrip(Streams(tokens, raw, entropy.cost), Carry(reading.State(), [], entropy.State()), area, plane);
    res := DecodeSection(tokens, raw, reading, entropy, area, [], NOTHING);
    assert [] + TraceOf(ops) == TraceOf(ops);
  }

  lemma {:induction false} OwnTables(bank: ModelBank)
    requires bank.Valid()
    ensures forall m <- bank.models :: m in bank.tables
    ensures forall m <- bank.parents :: m in bank.tables
  {
  }
}
