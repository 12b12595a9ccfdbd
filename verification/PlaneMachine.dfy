/** The plane decoder as an object that traces its symbols, proved against PlaneSyntax and Tallies. */
module PlaneMachine {
  import opened Outcome
  import opened RangeMachines
  import opened ModelBanks
  import opened BankMachines
  import opened RawBits
  import opened PlaneSyntax
  import opened PlaneCodec
  import opened Tallies

  class PlaneSyntaxDecoder {
    const bank: ModelBank
    const range: RangeDecoder
    const raw: RawBitReader
    const entropy: EntropyLedger
    const area: Area
    var previousNnz: nat
    var tally: Tally
    var trace: seq<(Context, nat)>

    ghost predicate Valid()
      reads this, bank, bank.models, bank.parents, range, raw, entropy
    {
      bank.Valid() && range.Valid() && raw.Valid() && entropy.Valid() && previousNnz < 4
    }

    ghost function Input(): (d: Streams) {
      Streams(range.data, raw.data, entropy.cost)
    }

    ghost function Here(): (src: Source)
      reads this, bank, bank.models, bank.parents, range, raw, entropy
    {
      Source(range.State(), bank.State(), raw.bitsRead, trace, entropy.State())
    }

    constructor (bank: ModelBank, range: RangeDecoder, raw: RawBitReader, entropy: EntropyLedger, area: Area,
                 trace: seq<(Context, nat)>, tally: Tally)
      requires bank.Valid() && range.Valid() && raw.Valid() && entropy.Valid()
      ensures Valid() && this.bank == bank && this.range == range && this.raw == raw && this.entropy == entropy
      ensures this.area == area && previousNnz == 0 && this.trace == trace && this.tally == tally
      ensures Here() == Source(range.State(), bank.State(), raw.bitsRead, trace, entropy.State())
    {
      this.bank, this.range, this.raw, this.entropy, this.area := bank, range, raw, entropy, area;
      this.trace, this.tally, previousNnz := trace, tally, 0;
    }

    lemma {:induction false} ValidMeansLive()
      requires Valid()
      ensures Live(Here())
    {
      bank.ValidMeansWellFormed();
    }

    /** One symbol, entered in the trace. */
    method Symbol(context: Context) returns (res: Result<nat>)
      requires Valid()
      modifies this, range, raw, entropy, bank, bank.tables
      ensures Live(old(Here()))
      ensures var spec := ReadSymbol(Input(), old(Here()), context);
              && res.Ok? == spec.Ok? && (res.Err? ==> res.fault == spec.fault)
              && (res.Ok? ==> Valid() && fresh(bank.tables - old(bank.tables)) && res.value == spec.value.value
                              && Here() == spec.value.src && tally == old(tally) && previousNnz == old(previousNnz))
    {
      hide Draw, BillFor, WellFormedBank, ModelBank.Valid, ModelBank.State, EntropyLedger.Valid, EntropyLedger.State;
      hide RangeDecoder.Valid, RangeDecoder.State, RawBitReader.Valid;
      ValidMeansLive();
      res := bank.Decode(range, context, entropy);
      if res.Ok? {
        trace := trace + [(context, res.value)];
      }
    }

    /** Raw bits, read without touching anything else. */
    method RawField(n: nat) returns (res: Result<nat>)
      requires Valid()
      modifies raw
      ensures Live(old(Here()))
      ensures var spec := ReadField(Input(), old(Here()), n);
              && res.Ok? == spec.Ok? && (res.Err? ==> res.fault == spec.fault)
              && (res.Ok? ==> Valid() && res.value == spec.value.value
                              && Here() == spec.value.src && tally == old(tally) && previousNnz == old(previousNnz)
                              && raw.bitsRead == old(raw.bitsRead) + n)
    {
      hide WellFormedBank, ModelBank.Valid, ModelBank.State, EntropyLedger.Valid, EntropyLedger.State;
      hide RangeDecoder.Valid, RangeDecoder.State, RawBitReader.Valid, ReadAt;
      ValidMeansLive();
      res := raw.Read(n);
    }

    method Detokenized(symbol: nat) returns (res: Result<nat>)
      requires Valid()
      modifies raw
      ensures var spec := Detokenize(symbol, raw.data, old(raw.bitsRead));
              && res.Ok? == spec.Ok? && (res.Err? ==> res.fault == spec.fault)
              && (res.Ok? ==> Valid() && res.value == spec.value.0
                              && Here() == old(Here()).(p := spec.value.1)
                              && tally == old(tally) && previousNnz == old(previousNnz))
    {
      hide WellFormedBank, ModelBank.Valid, ModelBank.State, EntropyLedger.Valid, EntropyLedger.State;
      hide RangeDecoder.Valid, RangeDecoder.State, RawBitReader.Valid, Detokenize;
      res := DetokenizeFrom(symbol, raw);
    }

    /** A symbol and the raw field it announces. */
    method Token(context: Context) returns (res: Result<nat>)
      requires Valid()
      modifies this, range, raw, entropy, bank, bank.tables
      ensures Live(old(Here()))
      ensures var spec := ReadToken(Input(), old(Here()), context);
              && res.Ok? == spec.Ok? && (res.Err? ==> res.fault == spec.fault)
              && (res.Ok? ==> Valid() && fresh(bank.tables - old(bank.tables)) && res.value == spec.value.value
                              && Here() == spec.value.src && tally == old(tally) && previousNnz == old(previousNnz)
                              && res.value < VALUE_LIMIT && raw.bitsRead == old(raw.bitsRead) + TokenizeShape(res.value).1)
    {
      hide WellFormedBank, ModelBank.Valid, ModelBank.State, EntropyLedger.Valid, EntropyLedger.State;
      hide RangeDecoder.Valid, RangeDecoder.State, RawBitReader.Valid, Detokenize, ReadSymbol, TokenizeShape;
      ValidMeansLive();
      ghost var src := Here();
      var symbol := Symbol(context);
      if symbol.Err? {
        return symbol;
      }
      res := Detokenized(symbol.value);
      if res.Ok? {
        TokenWidth(Input(), src, context);
      }
    }

    /** The body of the coefficient loop after a clear end-of-block flag: the run, then the level and its sign. */
    method Coefficient(size: nat, position: nat, previous: nat) returns (res: Result<Ac>)
      requires Valid() && BlockSize(size)
      modifies this, range, raw, entropy, bank, bank.tables
      ensures Live(old(Here()))
      ensures var spec := ReadAc(Input(), old(Here()), size, position, old(previousNnz), previous);
              && res.Ok? == spec.Ok? && (res.Err? ==> res.fault == spec.fault)
              && (res.Ok? ==> Valid() && fresh(bank.tables - old(bank.tables)) && res.value == spec.value.value
                              && Here() == spec.value.src && previousNnz == old(previousNnz)
                              && ValidAc(size, position, res.value) && tally == TallyAc(old(tally), position, res.value))
    {
      hide WellFormedBank, ModelBank.Valid, ModelBank.State, EntropyLedger.Valid, EntropyLedger.State, TokenizeShape;
      hide RangeDecoder.Valid, RangeDecoder.State, RawBitReader.Valid, ReadRun, ReadLevel, RunContext, LevelContext;
      ValidMeansLive();
      var at := Run(size, position);
      if at.Err? {
        return Err(at.fault);
      }
      var before := raw.bitsRead;
      var level := Level(LevelContext(size, at.value, previous));
      if level.Err? {
        return Err(level.fault);
      }
      tally := tally.(rawLevelSign := tally.rawLevelSign + (raw.bitsRead - before),
                      acNonzero := tally.acNonzero + 1, acAbsSum := tally.acAbsSum + level.value.0);
      return Ok(Ac(at.value, level.value.0, level.value.1));
    }

    method Run(size: nat, position: nat) returns (res: Result<nat>)
      requires Valid() && BlockSize(size)
      modifies this, range, raw, entropy, bank, bank.tables
      ensures Live(old(Here()))
      ensures var spec := ReadRun(Input(), old(Here()), size, position, old(previousNnz));
              && res.Ok? == spec.Ok? && (res.Err? ==> res.fault == spec.fault)
              && (res.Ok? ==> Valid() && fresh(bank.tables - old(bank.tables)) && res.value == spec.value.value
                              && Here() == spec.value.src && previousNnz == old(previousNnz)
                              && tally == old(tally).(rawRun := old(tally).rawRun + TokenizeShape(res.value - position).1))
    {
      hide WellFormedBank, ModelBank.Valid, ModelBank.State, EntropyLedger.Valid, EntropyLedger.State, TokenizeShape;
      hide RangeDecoder.Valid, RangeDecoder.State, RawBitReader.Valid, ReadToken, RunContext;
      ValidMeansLive();
      var before := raw.bitsRead;
      var run := Token(RunContext(size, position, previousNnz));
      if run.Err? {
        return Err(run.fault);
      }
      tally := tally.(rawRun := tally.rawRun + (raw.bitsRead - before));
      if position + run.value >= size * size {
        return Err(RunOutsideBlock);
      }
      return Ok(position + run.value);
    }

    method Level(context: Context) returns (res: Result<(nat, bool)>)
      requires Valid()
      modifies this, range, raw, entropy, bank, bank.tables
      ensures Live(old(Here()))
      ensures var spec := ReadLevel(Input(), old(Here()), context);
              && res.Ok? == spec.Ok? && (res.Err? ==> res.fault == spec.fault)
              && (res.Ok? ==> Valid() && fresh(bank.tables - old(bank.tables)) && res.value == spec.value.value
                              && Here() == spec.value.src && tally == old(tally) && previousNnz == old(previousNnz)
                              && 1 <= res.value.0 <= VALUE_LIMIT
                              && raw.bitsRead == old(raw.bitsRead) + TokenizeShape(res.value.0 - 1).1 + 1)
    {
      hide WellFormedBank, ModelBank.Valid, ModelBank.State, EntropyLedger.Valid, EntropyLedger.State, TokenizeShape;
      hide RangeDecoder.Valid, RangeDecoder.State, RawBitReader.Valid, ReadToken, ReadField;
      ValidMeansLive();
      var level := Token(context);
      if level.Err? {
        return Err(level.fault);
      }
      var sign := RawField(1);
      if sign.Err? {
        return Err(sign.fault);
      }
      return Ok((level.value + 1, sign.value == 1));
    }

    /** The coefficient loop of a block. */
    method Coefficients(size: nat) returns (res: Result<seq<Ac>>)
      requires Valid() && BlockSize(size)
      modifies this, range, raw, entropy, bank, bank.tables
      ensures Live(old(Here()))
      ensures var spec := ReadAcs(Input(), old(Here()), size, 1, old(previousNnz), 0);
              && res.Ok? == spec.Ok? && (res.Err? ==> res.fault == spec.fault)
              && (res.Ok? ==> Valid() && fresh(bank.tables - old(bank.tables)) && res.value == spec.value.value
                              && Here() == spec.value.src && previousNnz == old(previousNnz)
                              && ValidAcs(size, 1, res.value) && tally == TallyAcs(old(tally), size, 1, res.value))
    {
      hide WellFormedBank, ModelBank.Valid, ModelBank.State, EntropyLedger.Valid, EntropyLedger.State, TallyAc, TallyAcs;
      hide RangeDecoder.Valid, RangeDecoder.State, RawBitReader.Valid, ReadSymbol, ReadAc, ReadAcs, EobContext, Live;
      ValidMeansLive();
      ghost var spec := ReadAcs(Input(), Here(), size, 1, previousNnz, 0);
      var acs: seq<Ac>, position, previous := [], 1, 0;
      EmptyTally(tally, size, 1);
      while position < size * size
        invariant Valid() && Live(Here()) && fresh(bank.tables - old(bank.tables)) && previousNnz == old(previousNnz)
        invariant Prepend(acs, ReadAcs(Input(), Here(), size, position, previousNnz, previous)) == spec
        invariant ValidAcs(size, 1, acs) && position == NextPosition(1, acs)
        invariant tally == TallyAcs(old(tally), size, 1, acs)
        decreases size * size - position
      {
        ReadAcsUnfolds(Input(), Here(), size, position, previousNnz, previous, acs);
        var eob := Symbol(EobContext(size, position, previousNnz));
        if eob.Err? {
          return Err(eob.fault);
        }
        ValidMeansLive();
        if eob.value == 1 {
          return Ok(acs);
        }
        var ac := Coefficient(size, position, previous);
        if ac.Err? {
          return Err(ac.fault);
        }
        ValidMeansLive();
        TallyAppend(old(tally), size, 1, acs, ac.value);
        acs := acs + [ac.value];
        previous := ac.value.magnitude;
        position := ac.value.pos + 1;
      }
      ReadAcsEnds(Input(), Here(), size, position, previousNnz, previous, acs);
      return Ok(acs);
    }

    /** A block: its mode, its transform, its DC token and its coefficients. */
    method DecodeLeaf(size: nat) returns (res: Result<Node>)
      requires Valid() && BlockSize(size)
      modifies this, range, raw, entropy, bank, bank.tables
      ensures Live(old(Here()))
      ensures var spec := ReadBlock(Input(), old(Here()), size, old(previousNnz));
              && res.Ok? == spec.Ok? && (res.Err? ==> res.fault == spec.fault)
              && (res.Ok? ==> Valid() && fresh(bank.tables - old(bank.tables)) && res.value == spec.value.tree
                              && Here() == spec.value.src && previousNnz == spec.value.nnz
                              && res.value.Whole? && ValidLeaf(size, res.value.leaf)
                              && tally == TallyLeaf(old(tally), size, res.value.leaf))
    {
      hide WellFormedBank, ModelBank.Valid, ModelBank.State, EntropyLedger.Valid, EntropyLedger.State;
      hide RangeDecoder.Valid, RangeDecoder.State, RawBitReader.Valid, ReadSymbol, ReadToken, ReadAcs, TallyAcs, TokenizeShape, ValidAcs, Live,
        NnzBucket, NormalizedNnz, Unzigzag, Zigzag, Bump;
      ValidMeansLive();
      var mode := Symbol(CTX_MODE);
      if mode.Err? {
        return Err(mode.fault);
      }
      ValidMeansLive();
      var tx := Symbol(CTX_TX);
      if tx.Err? {
        return Err(tx.fault);
      }
      ValidMeansLive();
      tally := tally.(blocks := Bump(tally.blocks, size));
      var before := raw.bitsRead;
      var dc := Token(CTX_DC_BASE);
      if dc.Err? {
        return Err(dc.fault);
      }
      ValidMeansLive();
      ZigzagInverts(Unzigzag(dc.value), dc.value);
      tally := tally.(rawDc := tally.rawDc + (raw.bitsRead - before));
      var acs := Coefficients(size);
      if acs.Err? {
        return Err(acs.fault);
      }
      previousNnz := NnzBucket(NormalizedNnz(size, |acs.value|));
      return Ok(Whole(Leaf(mode.value, tx.value, Unzigzag(dc.value), acs.value)));
    }

    /** An 8-square: one block, or the 4-blocks of its in-plane quarters. */
    method DecodeNode8(x: nat, y: nat) returns (res: Result<Node>)
      requires Valid()
      modifies this, range, raw, entropy, bank, bank.tables
      ensures Live(old(Here()))
      ensures var spec := ReadNode(Input(), old(Here()), area, 8, x, y, old(previousNnz));
              && res.Ok? == spec.Ok? && (res.Err? ==> res.fault == spec.fault)
              && (res.Ok? ==> Valid() && fresh(bank.tables - old(bank.tables)) && res.value == spec.value.tree
                              && Here() == spec.value.src && previousNnz == spec.value.nnz
                              && ValidNode(area, 8, x, y, res.value)
                              && tally == TallyNode(old(tally), area, 8, x, y, res.value))
      decreases 8, 0
    {
      hide WellFormedBank, ModelBank.Valid, ModelBank.State, EntropyLedger.Valid, EntropyLedger.State;
      hide RangeDecoder.Valid, RangeDecoder.State, RawBitReader.Valid, ReadSymbol, ReadBlock, ReadKids, TallyLeaf, ValidLeaf, Live, ReadNode;
      ValidMeansLive();
      NodeUnfolds(Input(), Here(), area, 8, x, y, previousNnz);
      var split := Symbol(CTX_SPLIT8);
      if split.Err? {
        return Err(split.fault);
      }
      ValidMeansLive();
      if split.value == 0 {
        tally := tally.(whole := Bump(tally.whole, 8));
        res := DecodeLeaf(8);
        return;
      }
      tally := tally.(split := Bump(tally.split, 8));
      var kids := DecodeQuarters(4, x, y);
      return if kids.Ok? then Ok(Quad(kids.value)) else Err(kids.fault);
    }

    /** A quarter of a split square: another square, or at the bottom a 4-block. */
    method DecodeQuarter(size: nat, x: nat, y: nat) returns (res: Result<Node>)
      requires Valid() && (size == 4 || size == 8 || size == 16)
      modifies this, range, raw, entropy, bank, bank.tables
      ensures Live(old(Here()))
      ensures var spec := ReadNode(Input(), old(Here()), area, size, x, y, old(previousNnz));
              && res.Ok? == spec.Ok? && (res.Err? ==> res.fault == spec.fault)
              && (res.Ok? ==> Valid() && fresh(bank.tables - old(bank.tables)) && res.value == spec.value.tree
                              && Here() == spec.value.src && previousNnz == spec.value.nnz
                              && ValidNode(area, size, x, y, res.value)
                              && tally == TallyNode(old(tally), area, size, x, y, res.value))
      decreases size, 1
    {
      hide WellFormedBank, ModelBank.Valid, ModelBank.State, EntropyLedger.Valid, EntropyLedger.State;
      hide RangeDecoder.Valid, RangeDecoder.State, RawBitReader.Valid, ReadBlock, TallyLeaf, ValidLeaf, Live, ReadNode, ValidNode,
        TallyNode;
      ValidMeansLive();
      if size == 4 {
        FourIsBlock(Input(), Here(), area, x, y, previousNnz, tally);
        res := DecodeLeaf(4);
      } else if size == 8 {
        res := DecodeNode8(x, y);
      } else {
        res := DecodeNode16(x, y);
      }
    }

    /** The in-plane quarters of a split square, in reading order. */
    method DecodeQuarters(half: nat, x: nat, y: nat) returns (res: Result<seq<Node>>)
      requires Valid() && (half == 4 || half == 8 || half == 16)
      modifies this, range, raw, entropy, bank, bank.tables
      ensures Live(old(Here()))
      ensures var spec := ReadKids(Input(), old(Here()), area, half, x, y, 0, old(previousNnz));
              && res.Ok? == spec.Ok? && (res.Err? ==> res.fault == spec.fault)
              && (res.Ok? ==> Valid() && fresh(bank.tables - old(bank.tables)) && res.value == spec.value.tree
                              && Here() == spec.value.src && previousNnz == spec.value.nnz
                              && ValidKids(area, half, x, y, 0, res.value)
                              && tally == TallyKids(old(tally), area, half, x, y, 0, res.value))
      decreases half, 2
    {
      hide WellFormedBank, ModelBank.Valid, ModelBank.State, EntropyLedger.Valid, EntropyLedger.State;
      hide RangeDecoder.Valid, RangeDecoder.State, RawBitReader.Valid, ReadNode, ReadBlock, ReadKids, Continues, Live, InPlane, TallyLeaf, TallyNode, TallyKids, ValidKids;
      ValidMeansLive();
      ghost var d, t0, spec := Input(), tally, ReadKids(Input(), Here(), area, half, x, y, 0, previousNnz);
      var kids: seq<Node> := [];
      KidsBegin(d, Here(), area, half, x, y, previousNnz, t0);
      for index := 0 to 4
        invariant Valid() && Live(Here()) && fresh(bank.tables - old(bank.tables))
        invariant Continues(d, Here(), area, half, x, y, index, previousNnz, tally, kids, t0, spec)
      {
        KidsContinue(d, Here(), area, half, x, y, index, previousNnz, tally, kids, t0, spec);
        if InPlane(area, half, area.KidX(x, index), area.KidY(y, index)) {
          var kid := DecodeQuarter(half, area.KidX(x, index), area.KidY(y, index));
          if kid.Err? {
            return Err(kid.fault);
          }
          ValidMeansLive();
          kids := kids + [kid.value];
        }
      }
      KidsEnd(d, Here(), area, half, x, y, previousNnz, tally, kids, t0, spec);
      return Ok(kids);
    }

    /** A 16-square: one block, or its in-plane 8-squares. */
    method DecodeNode16(x: nat, y: nat) returns (res: Result<Node>)
      requires Valid()
      modifies this, range, raw, entropy, bank, bank.tables
      ensures Live(old(Here()))
      ensures var spec := ReadNode(Input(), old(Here()), area, 16, x, y, old(previousNnz));
              && res.Ok? == spec.Ok? && (res.Err? ==> res.fault == spec.fault)
              && (res.Ok? ==> Valid() && fresh(bank.tables - old(bank.tables)) && res.value == spec.value.tree
                              && Here() == spec.value.src && previousNnz == spec.value.nnz
                              && ValidNode(area, 16, x, y, res.value)
                              && tally == TallyNode(old(tally), area, 16, x, y, res.value))
      decreases 16, 0
    {
      hide WellFormedBank, ModelBank.Valid, ModelBank.State, EntropyLedger.Valid, EntropyLedger.State;
      hide RangeDecoder.Valid, RangeDecoder.State, RawBitReader.Valid, ReadSymbol, ReadBlock, ReadKids, TallyLeaf, ValidLeaf, Live, ReadNode;
      ValidMeansLive();
      NodeUnfolds(Input(), Here(), area, 16, x, y, previousNnz);
      var split := Symbol(CTX_SPLIT);
      if split.Err? {
        return Err(split.fault);
      }
      ValidMeansLive();
      if split.value == 0 {
        tally := tally.(whole := Bump(tally.whole, 16));
        res := DecodeLeaf(16);
        return;
      }
      tally := tally.(split := Bump(tally.split, 16));
      var kids := DecodeQuarters(8, x, y);
      return if kids.Ok? then Ok(Quad(kids.value)) else Err(kids.fault);
    }

    /** A root: one block, or its in-plane 16-squares. */
    method DecodeRoot(x: nat, y: nat) returns (res: Result<Node>)
      requires Valid()
      modifies this, range, raw, entropy, bank, bank.tables
      ensures Live(old(Here()))
      ensures var spec := ReadNode(Input(), old(Here()), area, 32, x, y, old(previousNnz));
              && res.Ok? == spec.Ok? && (res.Err? ==> res.fault == spec.fault)
              && (res.Ok? ==> Valid() && fresh(bank.tables - old(bank.tables)) && res.value == spec.value.tree
                              && Here() == spec.value.src && previousNnz == spec.value.nnz
                              && ValidNode(area, 32, x, y, res.value)
                              && tally == TallyNode(old(tally), area, 32, x, y, res.value))
    {
      hide WellFormedBank, ModelBank.Valid, ModelBank.State, EntropyLedger.Valid, EntropyLedger.State;
      hide RangeDecoder.Valid, RangeDecoder.State, RawBitReader.Valid, ReadSymbol, ReadBlock, ReadKids, TallyLeaf, ValidLeaf, Live, ReadNode;
      ValidMeansLive();
      NodeUnfolds(Input(), Here(), area, 32, x, y, previousNnz);
      var split := Symbol(CTX_SPLIT32);
      if split.Err? {
        return Err(split.fault);
      }
      ValidMeansLive();
      if split.value == 0 {
        tally := tally.(whole := Bump(tally.whole, 32));
        res := DecodeLeaf(32);
        return;
      }
      tally := tally.(split := Bump(tally.split, 32));
      var kids := DecodeQuarters(16, x, y);
      return if kids.Ok? then Ok(Quad(kids.value)) else Err(kids.fault);
    }

    /** The whole plane, root by root in raster order, and the check that both streams are used up. */
    method Decode() returns (res: Result<Plane>)
      requires Valid() && previousNnz == 0
      modifies this, range, raw, entropy, bank, bank.tables
      ensures Live(old(Here()))
      ensures var spec := FinishPlane(Input(), old(Here()), area);
              && res.Ok? == spec.Ok? && (res.Err? ==> res.fault == spec.fault)
              && (res.Ok? ==> Valid() && fresh(bank.tables - old(bank.tables)) && res.value == spec.value.plane
                              && Carry(bank.State(), trace, entropy.State()) == spec.value.carry
                              && ValidPlane(area, res.value) && tally == TallyRoots(old(tally), area, 0, res.value.roots))
    {
      hide WellFormedBank, ModelBank.Valid, ModelBank.State, EntropyLedger.Valid, EntropyLedger.State;
      hide RangeDecoder.Valid, ReadSymbol, ReadRoots, Live, TallyRoots, ValidRoots;
      ValidMeansLive();
      var strength := Symbol(CTX_CDEF);
      if strength.Err? {
        return Err(strength.fault);
      }
      ValidMeansLive();
      var roots := DecodeRoots();
      if roots.Err? {
        return Err(roots.fault);
      }
      if range.pos != |range.data| {
        return Err(RangeLeftover);
      }
      UsedUp();
      if raw.pos != |raw.data| {
        return Err(RawLeftover);
      }
      return Ok(Plane(strength.value, roots.value));
    }

    /** The reader has loaded as many bytes as its bits need. */
    lemma {:induction false} UsedUp()
      requires raw.Valid()
      ensures raw.pos == (raw.bitsRead + 7) / 8
    {
    }

    method DecodeRoots() returns (res: Result<seq<Node>>)
      requires Valid()
      modifies this, range, raw, entropy, bank, bank.tables
      ensures Live(old(Here()))
      ensures var spec := ReadRoots(Input(), old(Here()), area, 0, old(previousNnz));
              && res.Ok? == spec.Ok? && (res.Err? ==> res.fault == spec.fault)
              && (res.Ok? ==> Valid() && fresh(bank.tables - old(bank.tables)) && res.value == spec.value.tree
                              && Here() == spec.value.src && previousNnz == spec.value.nnz
                              && ValidRoots(area, 0, res.value)
                              && tally == TallyRoots(old(tally), area, 0, res.value))
    {
      hide WellFormedBank, ModelBank.Valid, ModelBank.State, EntropyLedger.Valid, EntropyLedger.State;
      hide RangeDecoder.Valid, RangeDecoder.State, RawBitReader.Valid, ReadNode, ReadRoots, RootsContinue, Live,
        TallyNode, TallyRoots, ValidRoots, ValidNode, Roots, RootCount;
      ValidMeansLive();
      ghost var d, t0, spec := Input(), tally, ReadRoots(Input(), Here(), area, 0, previousNnz);
      var roots: seq<Node> := [];
      var columns, rows := Roots(area.width), Roots(area.height);
      RootsBegin(d, Here(), area, previousNnz, t0);
      ghost var k := 0;
      for rootY := 0 to rows
        invariant Valid() && Live(Here()) && fresh(bank.tables - old(bank.tables))
        invariant k == rootY * columns && k <= RootCount(area)
        invariant RootsContinue(d, Here(), area, k, previousNnz, tally, roots, t0, spec)
      {
        RowFits(area, rootY, columns, rows);
        for rootX := 0 to columns
          invariant Valid() && Live(Here()) && fresh(bank.tables - old(bank.tables))
          invariant k == rootY * columns + rootX && k <= RootCount(area)
          invariant RootsContinue(d, Here(), area, k, previousNnz, tally, roots, t0, spec)
        {
          RootIndex(area, rootX, rootY, columns, rows, k);
          RootsStep(d, Here(), area, k, rootX, rootY, previousNnz, tally, roots, t0, spec);
          var root := DecodeRoot(rootX, rootY);
          if root.Err? {
            return Err(root.fault);
          }
          ValidMeansLive();
          roots := roots + [root.value];
          k := k + 1;
        }
        assert k == (rootY + 1) * columns;
      }
      RowFits(area, rows, columns, rows);
      RootsEnd(d, Here(), area, k, previousNnz, tally, roots, t0, spec);
      return Ok(roots);
    }
  }

  /** A list already read, followed by what is still to read. */
  function Prepend(acs: seq<Ac>, rest: Result<Read<seq<Ac>>>): (all: Result<Read<seq<Ac>>>) {
    if rest.Ok? then Ok(Read(acs + rest.value.value, rest.value.src)) else rest
  }

  lemma {:induction false} EmptyTally(t: Tally, size: nat, position: nat)
    ensures TallyAcs(t, size, position, []) == t
    ensures forall res: Result<Read<seq<Ac>>> :: Prepend([], res) == res
  {
    forall res: Result<Read<seq<Ac>>>
      ensures Prepend([], res) == res
    {
      if res.Ok? {
        assert [] + res.value.value == res.value.value;
      }
    }
  }

  lemma {:induction false} ReadAcsEnds(d: Streams, src: Source, size: nat, position: nat, nnz: nat, previous: nat, acs: seq<Ac>)
    requires Live(src) && nnz < 4 && size * size <= position
    ensures Prepend(acs, ReadAcs(d, src, size, position, nnz, previous)) == Ok(Read(acs, src))
  {
    assert acs + [] == acs;
  }

  lemma {:induction false} ReadAcsUnfolds(d: Streams, src: Source, size: nat, position: nat, nnz: nat, previous: nat, acs: seq<Ac>)
    requires Live(src) && nnz < 4 && position < size * size
    ensures var whole := Prepend(acs, ReadAcs(d, src, size, position, nnz, previous));
            var eob := ReadSymbol(d, src, EobContext(size, position, nnz));
            && (eob.Err? ==> whole == Err(eob.fault))
            && (eob.Ok? && eob.value.value == 1 ==> whole == Ok(Read(acs, eob.value.src)))
            && (eob.Ok? && eob.value.value != 1 ==>
                  var ac := ReadAc(d, eob.value.src, size, position, nnz, previous);
                  && (ac.Err? ==> whole == Err(ac.fault))
                  && (ac.Ok? ==> whole == Prepend(acs + [ac.value.value],
                        ReadAcs(d, ac.value.src, size, ac.value.value.pos + 1, nnz, ac.value.value.magnitude))))
  {
    hide ReadSymbol, ReadAc, EobContext, Live;
    assert acs + [] == acs;
    var eob := ReadSymbol(d, src, EobContext(size, position, nnz));
    if eob.Ok? && eob.value.value != 1 {
      var ac := ReadAc(d, eob.value.src, size, position, nnz, previous);
      if ac.Ok? {
        var rest := ReadAcs(d, ac.value.src, size, ac.value.value.pos + 1, nnz, ac.value.value.magnitude);
        if rest.Ok? {
          assert acs + ([ac.value.value] + rest.value.value) == acs + [ac.value.value] + rest.value.value;
        }
      }
    }
  }

  // ---- Loops over the quarters of a square ----

  /** The quarters still to read complete those already read into `spec`, and complete the tally as well. */
  ghost predicate Continues(d: Streams, src: Source, a: Area, half: nat, x: nat, y: nat, i: nat, nnz: nat,
                            t: Tally, kids: seq<Node>, t0: Tally, spec: Result<Piece<seq<Node>>>)
    requires Live(src) && i <= 4 && BlockSize(half)
  {
    nnz < 4 &&
    var rest := ReadKids(d, src, a, half, x, y, i, nnz);
    && rest.Ok? == spec.Ok? && (rest.Err? ==> rest.fault == spec.fault)
    && (rest.Ok? ==>
          && spec.value == rest.value.(tree := kids + rest.value.tree)
          && ValidKids(a, half, x, y, 0, spec.value.tree) && ValidKids(a, half, x, y, i, rest.value.tree)
          && TallyKids(t0, a, half, x, y, 0, spec.value.tree) == TallyKids(t, a, half, x, y, i, rest.value.tree))
  }

  lemma {:induction false} KidsBegin(d: Streams, src: Source, a: Area, half: nat, x: nat, y: nat, nnz: nat, t: Tally)
    requires Live(src) && nnz < 4 && BlockSize(half)
    ensures Continues(d, src, a, half, x, y, 0, nnz, t, [], t, ReadKids(d, src, a, half, x, y, 0, nnz))
  {
    hide ReadKids, ValidKids, KidsOps, Replay, Live, TallyKids;
    var rest := ReadKids(d, src, a, half, x, y, 0, nnz);
    if rest.Ok? {
      KidsReplay(d, src, a, half, x, y, 0, nnz, rest.value.tree, rest.value.src, rest.value.nnz);
      assert [] + rest.value.tree == rest.value.tree;
    }
  }

  /** One turn of the loop: skip a quarter outside the plane, or read the one inside it. */
  lemma {:induction false} KidsContinue(d: Streams, src: Source, a: Area, half: nat, x: nat, y: nat, i: nat, nnz: nat,
                     t: Tally, kids: seq<Node>, t0: Tally, spec: Result<Piece<seq<Node>>>)
    requires Live(src) && i < 4 && BlockSize(half)
    requires Continues(d, src, a, half, x, y, i, nnz, t, kids, t0, spec)
    ensures nnz < 4
    ensures !InPlane(a, half, a.KidX(x, i), a.KidY(y, i)) ==>
              Continues(d, src, a, half, x, y, i + 1, nnz, t, kids, t0, spec)
    ensures InPlane(a, half, a.KidX(x, i), a.KidY(y, i)) ==>
              var first := ReadNode(d, src, a, half, a.KidX(x, i), a.KidY(y, i), nnz);
              && (first.Err? ==> spec == Err(first.fault))
              && (first.Ok? ==>
                    && ValidNode(a, half, a.KidX(x, i), a.KidY(y, i), first.value.tree)
                    && Continues(d, first.value.src, a, half, x, y, i + 1, first.value.nnz,
                         TallyNode(t, a, half, a.KidX(x, i), a.KidY(y, i), first.value.tree),
                         kids + [first.value.tree], t0, spec))
  {
    hide ReadNode, ValidNode, Live, InPlane, TallyNode, NodeOps, Replay;
    var (kx, ky) := (a.KidX(x, i), a.KidY(y, i));
    if InPlane(a, half, kx, ky) {
      var first := ReadNode(d, src, a, half, kx, ky, nnz);
      if first.Ok? {
        NodeReplay(d, src, a, half, kx, ky, nnz, first.value.tree, first.value.src, first.value.nnz);
        var rest := ReadKids(d, first.value.src, a, half, x, y, i + 1, first.value.nnz);
        if rest.Ok? {
          var tail := [first.value.tree] + rest.value.tree;
          assert tail[0] == first.value.tree && tail[1..] == rest.value.tree;
          assert kids + tail == kids + [first.value.tree] + rest.value.tree;
        }
      }
    }
  }

  lemma {:induction false} KidsEnd(d: Streams, src: Source, a: Area, half: nat, x: nat, y: nat, nnz: nat,
                t: Tally, kids: seq<Node>, t0: Tally, spec: Result<Piece<seq<Node>>>)
    requires Live(src) && BlockSize(half) && Continues(d, src, a, half, x, y, 4, nnz, t, kids, t0, spec)
    ensures nnz < 4 && spec == Ok(Piece(kids, src, nnz)) && ValidKids(a, half, x, y, 0, kids)
    ensures t == TallyKids(t0, a, half, x, y, 0, kids)
  {
    assert kids + [] == kids;
  }

  lemma {:induction false} FourIsBlock(d: Streams, src: Source, a: Area, x: nat, y: nat, nnz: nat, t: Tally)
    requires Live(src) && nnz < 4
    ensures ReadNode(d, src, a, 4, x, y, nnz) == ReadBlock(d, src, 4, nnz)
    ensures forall leaf :: ValidLeaf(4, leaf) ==>
              ValidNode(a, 4, x, y, Whole(leaf)) && TallyNode(t, a, 4, x, y, Whole(leaf)) == TallyLeaf(t, 4, leaf)
  {
    hide TallyLeaf, ValidLeaf, Live, ReadBlock;
  }

  lemma {:induction false} NodeUnfolds(d: Streams, src: Source, a: Area, size: nat, x: nat, y: nat, nnz: nat)
    requires Live(src) && nnz < 4 && BlockSize(size) && size > 4
    ensures var node := ReadNode(d, src, a, size, x, y, nnz);
            var split := ReadSymbol(d, src, SplitContext(size));
            && (split.Err? ==> node == Err(split.fault))
            && (split.Ok? && split.value.value == 0 ==> node == ReadBlock(d, split.value.src, size, nnz))
            && (split.Ok? && split.value.value != 0 ==>
                  var kids := ReadKids(d, split.value.src, a, size / 2, x, y, 0, nnz);
                  && (kids.Err? ==> node == Err(kids.fault))
                  && (kids.Ok? ==> node == Ok(Piece(Quad(kids.value.tree), kids.value.src, kids.value.nnz))))
  {
    hide ReadSymbol, ReadBlock, ReadKids, Live, SplitContext;
  }

  // ---- Loops over the roots of a plane ----

  function FinishPlane(d: Streams, src: Source, a: Area): (res: Result<Decoded>)
    requires Live(src)
  {
    var read :- ReadPlane(d, src, a);
    Closed(d, read)
  }

  ghost predicate RootsContinue(d: Streams, src: Source, a: Area, k: nat, nnz: nat,
                                t: Tally, roots: seq<Node>, t0: Tally, spec: Result<Piece<seq<Node>>>)
    requires Live(src) && k <= RootCount(a)
  {
    nnz < 4 &&
    var rest := ReadRoots(d, src, a, k, nnz);
    && rest.Ok? == spec.Ok? && (rest.Err? ==> rest.fault == spec.fault)
    && (rest.Ok? ==>
          && spec.value == rest.value.(tree := roots + rest.value.tree)
          && ValidRoots(a, 0, spec.value.tree) && ValidRoots(a, k, rest.value.tree)
          && TallyRoots(t0, a, 0, spec.value.tree) == TallyRoots(t, a, k, rest.value.tree))
  }

  lemma {:induction false} RootsBegin(d: Streams, src: Source, a: Area, nnz: nat, t: Tally)
    requires Live(src) && nnz < 4
    ensures RootsContinue(d, src, a, 0, nnz, t, [], t, ReadRoots(d, src, a, 0, nnz))
  {
    hide ReadRoots, ValidRoots, RootsOps, Replay, Live, TallyRoots, RootCount;
    var rest := ReadRoots(d, src, a, 0, nnz);
    if rest.Ok? {
      RootsReplay(d, src, a, 0, nnz, rest.value.tree, rest.value.src, rest.value.nnz);
      assert [] + rest.value.tree == rest.value.tree;
    }
  }

  lemma {:induction false} RootsStep(d: Streams, src: Source, a: Area, k: nat, x: nat, y: nat, nnz: nat,
                  t: Tally, roots: seq<Node>, t0: Tally, spec: Result<Piece<seq<Node>>>)
    requires Live(src) && k < RootCount(a) && Roots(a.width) > 0
    requires x == k % Roots(a.width) && y == k / Roots(a.width)
    requires RootsContinue(d, src, a, k, nnz, t, roots, t0, spec)
    ensures nnz < 4
    ensures var first := ReadNode(d, src, a, 32, x, y, nnz);
            && (first.Err? ==> spec == Err(first.fault))
            && (first.Ok? ==>
                  && ValidNode(a, 32, x, y, first.value.tree)
                  && RootsContinue(d, first.value.src, a, k + 1, first.value.nnz,
                       TallyNode(t, a, 32, x, y, first.value.tree), roots + [first.value.tree], t0, spec))
  {
    hide ReadNode, ValidNode, Live, TallyNode, NodeOps, Replay, RootCount, Roots;
    var first := ReadNode(d, src, a, 32, x, y, nnz);
    if first.Ok? {
      NodeReplay(d, src, a, 32, x, y, nnz, first.value.tree, first.value.src, first.value.nnz);
      var rest := ReadRoots(d, first.value.src, a, k + 1, first.value.nnz);
      if rest.Ok? {
        var tail := [first.value.tree] + rest.value.tree;
        assert tail[0] == first.value.tree && tail[1..] == rest.value.tree;
        assert roots + tail == roots + [first.value.tree] + rest.value.tree;
      }
    }
  }

  lemma {:induction false} RootsEnd(d: Streams, src: Source, a: Area, k: nat, nnz: nat, t: Tally, roots: seq<Node>, t0: Tally,
                 spec: Result<Piece<seq<Node>>>)
    requires Live(src) && k == RootCount(a) && RootsContinue(d, src, a, k, nnz, t, roots, t0, spec)
    ensures spec.Ok? && spec.value.tree == roots && spec.value.src == src && spec.value.nnz == nnz
    ensures ValidRoots(a, 0, spec.value.tree) && t == TallyRoots(t0, a, 0, spec.value.tree)
  {
    hide RootCount;
    assert roots + [] == roots;
  }

  lemma {:induction false} RowFits(a: Area, y: nat, columns: nat, rows: nat)
    requires columns == Roots(a.width) && rows == Roots(a.height) && y <= rows
    ensures y * columns <= RootCount(a) && rows * columns == RootCount(a)
    ensures y < rows ==> y * columns + columns <= RootCount(a) && (y + 1) * columns == y * columns + columns
  {
    assert y * columns <= rows * columns;
    assert y < rows ==> (y + 1) * columns <= rows * columns;
  }

  lemma {:induction false} RootIndex(a: Area, x: nat, y: nat, columns: nat, rows: nat, k: nat)
    requires columns == Roots(a.width) && rows == Roots(a.height) && x < columns && y < rows && k == y * columns + x
    ensures 0 < columns && k % columns == x && k / columns == y && k < RootCount(a)
  {
    QuotientIs(k, columns, y, x);
    RowFits(a, y, columns, rows);
  }
}
