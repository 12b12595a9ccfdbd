/** The range decoder and the range encoder as objects with fields, proved against RangeCoder. */
module RangeMachines {
  import opened Bytes
  import opened Outcome
  import opened RangeCoder

  class RangeDecoder {
    const data: seq<byte>
    var code: nat
    var range: nat
    var r: nat
    var pos: nat

    ghost function State(): (st: Cursor)
      reads this
    {
      Cursor(code, range, pos)
    }

    ghost predicate Valid()
      reads this
    {
      Ready(State()) && pos <= |data|
    }

    constructor Begin(data: seq<byte>)
      requires Start(data).Ok?
      ensures Valid() && this.data == data && State() == Start(data).value
    {
      this.data := data;
      code := 0x100_0000 * data[1] as int + 0x1_0000 * data[2] as int + 0x100 * data[3] as int + data[4];
      range := INIT;
      r := 0;
      pos := 5;
    }

    /** Opens a stream, or reports the fault of its header. */
    static method Open(data: seq<byte>) returns (res: Result<RangeDecoder>)
      ensures res.Ok? <==> Start(data).Ok?
      ensures res.Err? ==> res.fault == Start(data).fault
      ensures res.Ok? ==> fresh(res.value) && res.value.Valid()
                          && res.value.data == data && res.value.State() == Start(data).value
    {
      if |data| < 5 || data[0] != 0 {
        return Err(BadRangeStart);
      }
      var d := new RangeDecoder.Begin(data);
      return Ok(d);
    }

    method DecodeFreq(total: nat) returns (slot: nat)
      requires Valid() && 0 < total <= TOTAL_LIMIT
      modifies this`r
      ensures r == range / total && slot == Target(State(), total)
    {
      assert 256 <= range / total by {
        DivisionBounds(range, total);
      }
      r := range / total;
      slot := if code / r < total - 1 then code / r else total - 1;
    }

    method Update(cumulative: nat, frequency: nat, ghost total: nat) returns (res: Result<()>)
      requires Valid() && Carves(Slot(cumulative, frequency, total))
      requires r == range / total && cumulative <= Target(State(), total)
      modifies this
      ensures var spec := Consume(data, old(State()), Slot(cumulative, frequency, total));
              && res.Ok? == spec.Ok?
              && (res.Ok? ==> Valid() && State() == spec.value)
              && (res.Err? ==> res.fault == spec.fault)
    {
      ghost var s := Slot(cumulative, frequency, total);
      CodeCovers(code, r, cumulative);
      assert r == Share(range, s) && r * cumulative == Offset(range, s) && r * frequency == Width(range, s);
      ghost var spec := Consume(data, State(), s);
      code := code - r * cumulative;
      range := r * frequency;
      while range < TOP
        invariant 256 <= range < WORD && code < WORD && pos <= |data|
        invariant Refill(data, State()) == spec
        decreases |data| - pos
      {
        if pos >= |data| {
          return Err(RangeExhausted);
        }
        code := (256 * code + data[pos]) % WORD;
        pos := pos + 1;
        range := 256 * range;
      }
      return Ok(());
    }
  }

  /** `low` fits 64 bits and `range` 32; the assertions are the encoder's own debug assertions. */
  class RangeEncoder {
    var low: nat
    var range: nat
    var cache: byte
    var pendingFF: nat
    var started: bool
    var out: seq<byte>

    ghost function State(): (e: Carrier)
      reads this
    {
      Carrier(low, range, cache, pendingFF, out)
    }

    ghost predicate Valid()
      reads this
    {
      TOP <= range < WORD && Settled(State(), range) && (started <==> out != [])
    }

    constructor ()
      ensures Valid() && State() == FRESH
    {
      low, range, cache, pendingFF, started, out := 0, INIT, 0, 0, false, [];
    }

    method ShiftLow(ghost width: nat)
      requires 0 < width <= TOP && Settled(State(), width) && (started <==> out != [])
      modifies this`low, this`cache, this`pendingFF, this`started, this`out
      ensures State() == Shift(old(State())) && started && out != []
    {
      ShiftScales(State(), width);
      ghost var spec := Shift(State());
      var carry := (low / WORD) % 256;
      if low < 0xFF00_0000 || carry == 1 {
        assert started || carry == 0;
        assert carry == low / WORD;
        out := out + [(cache + carry) % 256];
        started := true;
        ghost var head, n := out, pendingFF;
        while pendingFF > 0
          invariant pendingFF <= n && started && low == old(low) && cache == old(cache) && range == old(range)
          invariant out == head + Repeat((255 + carry) % 256, n - pendingFF)
        {
          out := out + [(255 + carry) % 256];
          pendingFF := pendingFF - 1;
        }
        cache := (low / TOP) % 256;
      } else {
        assert started;
        pendingFF := pendingFF + 1;
      }
      low := (256 * low) % WORD;
    }

    method EncodeSlot(cum: nat, freq: nat, total: nat)
      requires Valid() && Carves(Slot(cum, freq, total))
      modifies this
      ensures Valid() && State() == CodeSlot(old(State()), Slot(cum, freq, total))
    {
      ghost var s := Slot(cum, freq, total);
      ghost var spec := CodeSlot(State(), s);
      DivisionBounds(range, total);
      var r := range / total;
      assert r * cum == Offset(range, s) && r * freq == Width(range, s);
      low := low + r * cum;
      range := r * freq;
      while range < TOP
        invariant 256 <= range < WORD && Settled(State(), range) && (started <==> out != [])
        invariant Flush(State()) == spec
        decreases if range < TOP then TOP - range else 0
      {
        ShiftScales(State(), range);
        ShiftLow(range);
        range := 256 * range;
      }
    }

    method FinishStream() returns (bytes: seq<byte>)
      requires Valid()
      modifies this
      ensures bytes == Finish(old(State()))
    {
      ghost var e := State();
      ShiftScales(e, 1);
      ShiftLow(1);
      ShiftScales(State(), 1);
      ShiftLow(1);
      ShiftScales(State(), 1);
      ShiftLow(1);
      ShiftScales(State(), 1);
      ShiftLow(1);
      ShiftScales(State(), 1);
      ShiftLow(1);
      bytes := out;
    }
  }
}
