/** The v7 range coder: the nested intervals it carves, the decoder that reads them, the encoder that writes them. */
module RangeCoder {
  import opened Bytes
  import opened Outcome

  const TOP: nat := 0x100_0000
  const INIT: nat := 0xFF00_0000
  const WORD: nat := 0x1_0000_0000
  const TOTAL_LIMIT: nat := 0x1_0000

  /** The share of the interval given to one symbol. */
  datatype Slot = Slot(cum: nat, freq: nat, total: nat)

  predicate Carves(s: Slot) {
    0 < s.freq && s.cum + s.freq <= s.total <= TOTAL_LIMIT
  }

  // ---- Nested intervals, in exact arithmetic ----

  /** The numbers `low .. low + range`, in units of 256^-shifts of the first four code bytes. */
  datatype Interval = Interval(low: nat, range: nat, shifts: nat)

  const WHOLE := Interval(0, INIT, 0)

  predicate Wide(iv: Interval) {
    TOP <= iv.range < WORD
  }

  function Widen(iv: Interval): (w: Interval)
    requires 0 < iv.range < WORD
    ensures Wide(w)
    decreases if iv.range < TOP then TOP - iv.range else 0
  {
    if iv.range < TOP then Widen(Next(iv)) else iv
  }

  function Share(range: nat, s: Slot): (r: nat)
    requires Carves(s) && TOP <= range < WORD
    ensures r * s.total <= range < (r + 1) * s.total && 256 <= r
  {
    DivisionBounds(range, s.total);
    range / s.total
  }

  /** Where the symbol's part starts, and how wide it is, inside a range split into equal shares. */
  function Offset(range: nat, s: Slot): (o: nat)
    requires Carves(s) && TOP <= range < WORD
  {
    Share(range, s) * s.cum
  }

  function Width(range: nat, s: Slot): (w: nat)
    requires Carves(s) && TOP <= range < WORD
    ensures 256 <= w && Offset(range, s) + w <= range
  {
    ShareBounds(Share(range, s), s, range);
    Share(range, s) * s.freq
  }

  function Narrow(iv: Interval, s: Slot): (n: Interval)
    requires Carves(s) && Wide(iv)
    ensures Wide(n)
  {
    Widen(Part(iv, s))
  }

  function Part(iv: Interval, s: Slot): (n: Interval)
    requires Carves(s) && Wide(iv)
    ensures 0 < n.range <= iv.range
  {
    Interval(iv.low + Offset(iv.range, s), Width(iv.range, s), iv.shifts)
  }

  lemma {:induction false} DivisionBounds(range: nat, total: nat)
    requires 0 < total <= TOTAL_LIMIT && TOP <= range
    ensures (range / total) * total <= range < (range / total + 1) * total
    ensures 256 <= range / total
  {
    var r := range / total;
    assert range == r * total + range % total;
    assert r < 256 ==> (r + 1) * total <= 256 * total;
  }

  lemma {:induction false} ShareBounds(r: nat, s: Slot, range: nat)
    requires Carves(s) && r * s.total <= range && 0 < r
    ensures 0 < r <= r * s.freq && r * s.cum + r * s.freq <= range
    ensures r * s.freq <= range
  {
    assert r * s.cum + r * s.freq == r * (s.cum + s.freq);
    MulMonotone(r, s.cum + s.freq, s.total);
    MulMonotone(r, 1, s.freq);
    MulMonotone(r, 0, s.cum);
  }

  // ---- Which byte streams lie in an interval ----

  ghost predicate Inside(data: seq<byte>, iv: Interval) {
    && 5 + iv.shifts <= |data|
    && iv.low <= BigEndian(data[..5 + iv.shifts]) < iv.low + iv.range
  }

  /** The interval left by a whole message. */
  function NarrowAll(iv: Interval, slots: seq<Slot>): (n: Interval)
    requires Wide(iv) && forall s <- slots :: Carves(s)
    ensures Wide(n)
    decreases |slots|
  {
    if slots == [] then iv else NarrowAll(Narrow(iv, slots[0]), slots[1..])
  }

  lemma {:induction false} InsideWidened(data: seq<byte>, iv: Interval)
    requires 0 < iv.range < WORD && Inside(data, Widen(iv))
    ensures Inside(data, iv)
    decreases if iv.range < TOP then TOP - iv.range else 0
  {
    if iv.range < TOP {
      InsideWidened(data, Next(iv));
      BigEndianPrefix(data, 5 + iv.shifts);
    }
  }

  lemma {:induction false} InsideNarrowed(data: seq<byte>, iv: Interval, s: Slot)
    requires Carves(s) && Wide(iv) && Inside(data, Narrow(iv, s))
    ensures Inside(data, Part(iv, s)) && Inside(data, iv)
  {
    hide Offset, Width;
    InsideWidened(data, Part(iv, s));
  }

  lemma {:induction false} InsideAll(data: seq<byte>, iv: Interval, slots: seq<Slot>)
    requires Wide(iv) && (forall s <- slots :: Carves(s)) && Inside(data, NarrowAll(iv, slots))
    ensures Inside(data, iv)
    decreases |slots|
  {
    if slots != [] {
      InsideAll(data, Narrow(iv, slots[0]), slots[1..]);
      InsideNarrowed(data, iv, slots[0]);
    }
  }

  // ---- The decoder on values ----

  datatype Cursor = Cursor(code: nat, range: nat, pos: nat)

  predicate Ready(st: Cursor) {
    TOP <= st.range < WORD && st.code < WORD
  }

  /** The value of the two range-stream checks and the initial code word. */
  function Start(data: seq<byte>): (res: Result<Cursor>)
    ensures res.Ok? ==> Ready(res.value)
  {
    if |data| < 5 || data[0] != 0 then Err(BadRangeStart)
    else Ok(Cursor(0x100_0000 * data[1] as int + 0x1_0000 * data[2] as int + 0x100 * data[3] as int + data[4], INIT, 5))
  }

  /** Byte-wise renormalisation; the mask is the decoder's own. */
  function Refill(data: seq<byte>, st: Cursor): (res: Result<Cursor>)
    requires st.range < WORD
    ensures res.Ok? ==> TOP <= res.value.range < WORD && st.pos <= res.value.pos
    ensures res.Ok? && st.code < WORD ==> res.value.code < WORD
    ensures res.Ok? && st.pos <= |data| ==> res.value.pos <= |data|
    decreases |data| - st.pos
  {
    if st.range >= TOP then Ok(st)
    else if st.pos >= |data| then Err(RangeExhausted)
    else Refill(data, Cursor((256 * st.code + data[st.pos]) % WORD, 256 * st.range, st.pos + 1))
  }

  function Min(a: nat, b: nat): nat {
    if a < b then a else b
  }

  /** The cumulative position the decoder looks up, clamped to the last position of the total. */
  function Target(st: Cursor, total: nat): (t: nat)
    requires Ready(st) && 0 < total <= TOTAL_LIMIT
    ensures t < total
  {
    DivisionBounds(st.range, total);
    Min(st.code / (st.range / total), total - 1)
  }

  function Consume(data: seq<byte>, st: Cursor, s: Slot): (res: Result<Cursor>)
    requires Ready(st) && Carves(s) && s.cum <= Target(st, s.total)
    ensures res.Ok? ==> Ready(res.value) && st.pos <= res.value.pos
    ensures res.Ok? && st.pos <= |data| ==> res.value.pos <= |data|
  {
    CodeCovers(st.code, Share(st.range, s), s.cum);
    Refill(data, Cursor(st.code - Offset(st.range, s), Width(st.range, s), st.pos))
  }

  lemma {:induction false} CodeCovers(code: nat, r: nat, cum: nat)
    requires 0 < r && cum <= code / r
    ensures r * cum <= code
  {
    assert r * cum <= r * (code / r);
  }

  /** The decoder's state is the exact remainder of the bytes read over the interval's lower end. */
  ghost predicate Tracks(data: seq<byte>, iv: Interval, st: Cursor) {
    Wide(iv) && Inside(data, iv) && st == Remainder(data, iv)
  }

  /** An exact decoder holds its code below its range. */
  lemma {:induction false} TracksReady(data: seq<byte>, iv: Interval, st: Cursor)
    requires Tracks(data, iv, st)
    ensures Ready(st) && st.code < st.range && st.pos <= |data| && Wide(iv)
  {
  }

  lemma {:induction false} StartTracks(data: seq<byte>)
    ensures Start(data).Ok? ==> (Tracks(data, WHOLE, Start(data).value) <==> data[1] < 255)
    ensures Start(data).Ok? <==> 5 <= |data| && data[0] == 0
    ensures Start(data).Ok? ==> (Inside(data, WHOLE) <==> data[1] < 255)
  {
    if Start(data).Ok? {
      assert data[..0] == [];
      BigEndianPrefix(data, 0);
      BigEndianPrefix(data, 1);
      BigEndianPrefix(data, 2);
      BigEndianPrefix(data, 3);
      BigEndianPrefix(data, 4);
    }
  }

  function Remainder(data: seq<byte>, iv: Interval): (st: Cursor)
    requires Inside(data, iv)
  {
    Cursor(BigEndian(data[..5 + iv.shifts]) - iv.low, iv.range, 5 + iv.shifts)
  }

  function Next(iv: Interval): (n: Interval) {
    Interval(256 * iv.low, 256 * iv.range, iv.shifts + 1)
  }

  /** While the code stays below the range, the 32-bit mask drops nothing. */
  lemma {:induction false} MaskDropsNothing(data: seq<byte>, iv: Interval)
    requires 0 < iv.range < TOP && Inside(data, iv) && 5 + iv.shifts < |data|
    ensures Inside(data, Next(iv))
    ensures var st := Remainder(data, iv);
            Remainder(data, Next(iv))
              == Cursor((256 * st.code + data[st.pos]) % WORD, 256 * st.range, st.pos + 1)
  {
    BigEndianPrefix(data, 5 + iv.shifts);
  }

  lemma {:induction false} RefillTracks(data: seq<byte>, iv: Interval)
    requires 0 < iv.range < WORD && Inside(data, iv)
    requires 5 + Widen(iv).shifts <= |data|
    ensures var res := Refill(data, Remainder(data, iv));
            res.Ok? && Tracks(data, Widen(iv), res.value)
    decreases if iv.range < TOP then TOP - iv.range else 0
  {
    if iv.range < TOP {
      WidenShifts(iv);
      MaskDropsNothing(data, iv);
      RefillTracks(data, Next(iv));
      assert Refill(data, Remainder(data, iv)) == Refill(data, Remainder(data, Next(iv)));
    }
  }

  lemma {:induction false} WidenShifts(iv: Interval)
    requires 0 < iv.range < WORD
    ensures iv.shifts <= Widen(iv).shifts
    ensures iv.range < TOP ==> iv.shifts < Widen(iv).shifts
    decreases if iv.range < TOP then TOP - iv.range else 0
  {
    if iv.range < TOP {
      WidenShifts(Next(iv));
    }
  }

  lemma {:induction false} QuotientBounds(code: nat, r: nat, lo: nat, hi: nat)
    requires 0 < r && r * lo <= code < r * hi
    ensures lo <= code / r < hi
  {
    var q := code / r;
    assert code == r * q + code % r;
    assert q < lo ==> r * (q + 1) <= r * lo;
    assert hi <= q ==> r * hi <= r * q;
  }

  /** A stream that lies in a symbol's part makes the decoder find that symbol, and stays exact. */
  lemma {:induction false} StepTracks(data: seq<byte>, iv: Interval, st: Cursor, s: Slot)
    requires Tracks(data, iv, st) && Carves(s) && Inside(data, Narrow(iv, s))
    ensures s.cum <= Target(st, s.total) < s.cum + s.freq
    ensures var res := Consume(data, st, s); res.Ok? && Tracks(data, Narrow(iv, s), res.value)
  {
    TargetInPart(data, iv, st, s);
    ConsumeTracks(data, iv, st, s);
  }

  lemma {:induction false} TargetInPart(data: seq<byte>, iv: Interval, st: Cursor, s: Slot)
    requires Tracks(data, iv, st) && Carves(s) && Inside(data, Narrow(iv, s))
    ensures s.cum <= Target(st, s.total) < s.cum + s.freq
  {
    InsideNarrowed(data, iv, s);
    PartEnd(iv.range, s);
    QuotientBounds(st.code, Share(iv.range, s), s.cum, s.cum + s.freq);
  }

  lemma {:induction false} PartEnd(range: nat, s: Slot)
    requires Carves(s) && TOP <= range < WORD
    ensures Offset(range, s) + Width(range, s) == Share(range, s) * (s.cum + s.freq)
    ensures Offset(range, s) == Share(range, s) * s.cum
  {
    hide Share;
  }

  lemma {:induction false} ConsumeTracks(data: seq<byte>, iv: Interval, st: Cursor, s: Slot)
    requires Tracks(data, iv, st) && Carves(s) && Inside(data, Narrow(iv, s))
    requires s.cum <= Target(st, s.total)
    ensures var res := Consume(data, st, s); res.Ok? && Tracks(data, Narrow(iv, s), res.value)
  {
    hide Offset, Width, Target;
    InsideNarrowed(data, iv, s);
    RefillTracks(data, Part(iv, s));
  }

  /** The renormalisation reads as many bytes as the interval gains digits, whatever the code is. */
  lemma {:induction false} RefillPosition(data: seq<byte>, iv: Interval, st: Cursor)
    requires 0 < iv.range < WORD && st.range == iv.range && st.pos == 5 + iv.shifts
    requires Refill(data, st).Ok?
    ensures Refill(data, st).value.pos == 5 + Widen(iv).shifts
    ensures st.pos <= |data| ==> 5 + Widen(iv).shifts <= |data|
    decreases if iv.range < TOP then TOP - iv.range else 0
  {
    if iv.range < TOP {
      RefillPosition(data, Next(iv), Cursor((256 * st.code + data[st.pos]) % WORD, 256 * st.range, st.pos + 1));
    }
  }

  /**
   * The decoder stays exact through a symbol if and only if its clamp `min(code // r, total - 1)` did not fire:
   * a stream in the unused top of the range decodes as the last symbol and leaves every interval.
   */
  lemma {:induction false} ExactIffUnclamped(data: seq<byte>, iv: Interval, st: Cursor, s: Slot)
    requires Tracks(data, iv, st) && Carves(s)
    requires s.cum <= Target(st, s.total) < s.cum + s.freq
    requires Consume(data, st, s).Ok?
    ensures Tracks(data, Narrow(iv, s), Consume(data, st, s).value)
       <==> st.code / Share(st.range, s) < s.total
  {
    if st.code / Share(st.range, s) < s.total {
      UnclampedInside(data, iv, st, s);
      ConsumeTracks(data, iv, st, s);
    } else {
      ClampedOutside(data, iv, st, s);
    }
  }

  lemma {:induction false} ClampedOutside(data: seq<byte>, iv: Interval, st: Cursor, s: Slot)
    requires Tracks(data, iv, st) && Carves(s)
    requires s.total <= st.code / Share(st.range, s)
    ensures !Inside(data, Narrow(iv, s))
  {
    var r := Share(st.range, s);
    PartEnd(iv.range, s);
    CodeCovers(st.code, r, s.total);
    MulMonotone(r, s.cum + s.freq, s.total);
    if Inside(data, Narrow(iv, s)) {
      InsideNarrowed(data, iv, s);
    }
  }

  lemma {:induction false} PartHolds(data: seq<byte>, iv: Interval, st: Cursor, s: Slot)
    requires Tracks(data, iv, st) && Carves(s)
    requires s.cum <= st.code / Share(st.range, s) < s.cum + s.freq
    ensures Inside(data, Part(iv, s))
  {
    var r := Share(st.range, s);
    QuotientHolds(st.code, r, s.cum, s.freq);
    PartIsOffset(data, iv, st, s);
  }

  lemma {:induction false} QuotientHolds(code: nat, r: nat, cum: nat, freq: nat)
    requires 0 < r && cum <= code / r < cum + freq
    ensures r * cum <= code < r * cum + r * freq
  {
    var q := code / r;
    assert r * q <= code < r * q + r;
    MulMonotone(r, cum, q);
    MulMonotone(r, q + 1, cum + freq);
    assert r * (q + 1) == r * q + r;
    assert r * (cum + freq) == r * cum + r * freq;
  }

  lemma {:induction false} MulMonotone(r: nat, a: nat, b: nat)
    requires a <= b
    ensures r * a <= r * b
  {
  }

  lemma {:induction false} PartIsOffset(data: seq<byte>, iv: Interval, st: Cursor, s: Slot)
    requires Tracks(data, iv, st) && Carves(s)
    requires Offset(iv.range, s) <= st.code < Offset(iv.range, s) + Width(iv.range, s)
    ensures Inside(data, Part(iv, s))
  {
    hide Offset, Width, Share;
  }

  lemma {:induction false} UnclampedInside(data: seq<byte>, iv: Interval, st: Cursor, s: Slot)
    requires Tracks(data, iv, st) && Carves(s)
    requires s.cum <= Target(st, s.total) < s.cum + s.freq && Consume(data, st, s).Ok?
    requires st.code / Share(st.range, s) < s.total
    ensures Inside(data, Narrow(iv, s))
  {
    PartHolds(data, iv, st, s);
    hide Offset, Width, Target;
    RefillPosition(data, Part(iv, s), Remainder(data, Part(iv, s)));
    RefillTracks(data, Part(iv, s));
  }

  /** A stream the decoder accepts and then cannot hold below its range: the top 2^24 code words are unused. */
  lemma {:induction false} TopCodeWordsEscape()
    ensures var data: seq<byte> := [0, 255, 0, 0, 0];
            Start(data).Ok? && Start(data).value.code >= Start(data).value.range
            && !Tracks(data, WHOLE, Start(data).value)
  {
    StartTracks([0, 255, 0, 0, 0]);
  }

  // ---- The encoder on values ----

  datatype Carrier = Carrier(low: nat, range: nat, cache: byte, pending: nat, out: seq<byte>)

  const FRESH := Carrier(0, INIT, 0, 0, [])

  /** Everything written so far: the emitted bytes, the cached byte and the pending 255s. */
  function Digits(e: Carrier): (d: seq<byte>) {
    e.out + [e.cache] + Repeat(255, e.pending)
  }

  /** The lower end of the encoder's interval, read back from its split representation. */
  function Lower(e: Carrier): (low: nat) {
    BigEndian(Digits(e)) * WORD + e.low
  }

  /** What the carry logic relies on, for an interval of width `width` above the current `low`. */
  ghost predicate Settled(e: Carrier, width: nat) {
    && e.low + width <= 2 * WORD
    && (e.cache == 255 ==> e.low + width <= WORD)
    && (e.out == [] ==> e.cache == 0 && e.pending == 0 && e.low + width <= INIT)
    && (e.out != [] ==> e.out[0] == 0)
  }

  function Shift(e: Carrier): (n: Carrier)
    requires e.low < 2 * WORD
  {
    var low := 256 * (e.low % TOP);
    if e.low < 0xFF00_0000 || e.low >= WORD then
      var carry := e.low / WORD;
      Carrier(low, e.range, (e.low / TOP) % 256, 0,
              e.out + [(e.cache + carry) % 256] + Repeat((255 + carry) % 256, e.pending))
    else
      Carrier(low, e.range, e.cache, e.pending + 1, e.out)
  }

  /** Shifting a byte out multiplies the number written by 256, carry or not. */
  lemma {:induction false} ShiftScales(e: Carrier, width: nat)
    requires 0 < width <= TOP && Settled(e, width)
    ensures Lower(Shift(e)) == 256 * Lower(e) && |Digits(Shift(e))| == |Digits(e)| + 1
    ensures Settled(Shift(e), 256 * width)
    ensures Shift(e).low == (256 * e.low) % WORD && Shift(e).out != []
  {
    ShiftedDigits(e, width);
    ShiftedSettles(e, width);
  }

  lemma {:induction false} ShiftedDigits(e: Carrier, width: nat)
    requires 0 < width <= TOP && Settled(e, width)
    ensures Lower(Shift(e)) == 256 * Lower(e) && |Digits(Shift(e))| == |Digits(e)| + 1
  {
    if e.low < 0xFF00_0000 {
      PlainShift(e);
    } else if e.low >= WORD {
      CarryShift(e);
    } else {
      PendingShift(e);
    }
  }

  lemma {:induction false} PlainShift(e: Carrier)
    requires e.low < 0xFF00_0000
    ensures Lower(Shift(e)) == 256 * Lower(e) && |Digits(Shift(e))| == |Digits(e)| + 1
  {
    var n := Shift(e);
    assert Digits(n) == Digits(e) + [n.cache] by {
      assert e.low / WORD == 0;
      assert n.out == Digits(e);
    }
    BigEndianAppend(Digits(e), n.cache);
  }

  lemma {:induction false} CarryShift(e: Carrier)
    requires WORD <= e.low < 2 * WORD && e.cache < 255
    ensures Lower(Shift(e)) == 256 * Lower(e) && |Digits(Shift(e))| == |Digits(e)| + 1
  {
    var n := Shift(e);
    var carried := e.out + [e.cache + 1] + Repeat(0, e.pending);
    assert Digits(n) == carried + [n.cache] by {
      assert e.low / WORD == 1;
      assert n.out == carried;
    }
    BigEndianAppend(carried, n.cache);
    CarryRipples(e.out, e.cache, e.pending);
    CarriedLow(e.low);
  }

  lemma {:induction false} CarriedLow(low: nat)
    requires WORD <= low < 2 * WORD
    ensures low == WORD + TOP * ((low / TOP) % 256) + low % TOP
  {
  }

  lemma {:induction false} PendingShift(e: Carrier)
    requires 0xFF00_0000 <= e.low < WORD
    ensures Lower(Shift(e)) == 256 * Lower(e) && |Digits(Shift(e))| == |Digits(e)| + 1
  {
    var n := Shift(e);
    assert Digits(n) == Digits(e) + [255];
    BigEndianAppend(Digits(e), 255);
  }

  lemma {:induction false} ShiftedSettles(e: Carrier, width: nat)
    requires 0 < width <= TOP && Settled(e, width)
    ensures Settled(Shift(e), 256 * width)
    ensures Shift(e).low == (256 * e.low) % WORD && Shift(e).out != []
  {
  }

  function Flush(e: Carrier): (n: Carrier)
    requires 0 < e.range < WORD && Settled(e, e.range)
    ensures TOP <= n.range < WORD && Settled(n, n.range)
    decreases if e.range < TOP then TOP - e.range else 0
  {
    if e.range < TOP then
      ShiftScales(e, e.range);
      Flush(Shift(e).(range := 256 * e.range))
    else e
  }

  function CodeSlot(e: Carrier, s: Slot): (n: Carrier)
    requires Carves(s) && TOP <= e.range < WORD && Settled(e, e.range)
    ensures TOP <= n.range < WORD && Settled(n, n.range)
  {
    Flush(e.(low := e.low + Offset(e.range, s), range := Width(e.range, s)))
  }

  function Finish(e: Carrier): (out: seq<byte>)
    requires 0 < e.range && Settled(e, e.range)
  {
    ShiftScales(e, 1);
    var e1 := Shift(e);
    ShiftScales(e1, 1);
    var e2 := Shift(e1);
    ShiftScales(e2, 1);
    var e3 := Shift(e2);
    ShiftScales(e3, 1);
    var e4 := Shift(e3);
    ShiftScales(e4, 1);
    Shift(e4).out
  }

  /** The encoder's split state stands for the interval. */
  ghost predicate Mirrors(e: Carrier, iv: Interval) {
    e.range == iv.range && Lower(e) == iv.low && |Digits(e)| == 1 + iv.shifts && Settled(e, e.range)
  }

  lemma {:induction false} FlushMirrors(e: Carrier, iv: Interval)
    requires 0 < iv.range < WORD && Mirrors(e, iv)
    ensures Mirrors(Flush(e), Widen(iv))
    decreases if e.range < TOP then TOP - e.range else 0
  {
    if e.range < TOP {
      ShiftScales(e, e.range);
      FlushMirrors(Shift(e).(range := 256 * e.range), Next(iv));
    }
  }

  lemma {:induction false} EncodeMirrors(e: Carrier, iv: Interval, s: Slot)
    requires Wide(iv) && Mirrors(e, iv) && Carves(s)
    ensures Mirrors(CodeSlot(e, s), Narrow(iv, s))
  {
    hide Offset, Width;
    FlushMirrors(e.(low := e.low + Offset(e.range, s), range := Width(e.range, s)), Part(iv, s));
  }

  function EncodeAll(e: Carrier, slots: seq<Slot>): (n: Carrier)
    requires TOP <= e.range < WORD && Settled(e, e.range) && forall s <- slots :: Carves(s)
    ensures TOP <= n.range < WORD && Settled(n, n.range)
    decreases |slots|
  {
    if slots == [] then e else EncodeAll(CodeSlot(e, slots[0]), slots[1..])
  }

  lemma {:induction false} EncodeAllMirrors(e: Carrier, iv: Interval, slots: seq<Slot>)
    requires Wide(iv) && Mirrors(e, iv) && forall s <- slots :: Carves(s)
    ensures Mirrors(EncodeAll(e, slots), NarrowAll(iv, slots))
    decreases |slots|
  {
    if slots != [] {
      EncodeMirrors(e, iv, slots[0]);
      EncodeAllMirrors(CodeSlot(e, slots[0]), Narrow(iv, slots[0]), slots[1..]);
    }
  }

  /** Four shifts empty `low`; the fifth writes out the cached byte and everything pending. */
  lemma {:induction false} FinishWritesLower(e: Carrier)
    requires 0 < e.range && Settled(e, e.range)
    ensures BigEndian(Finish(e)) == Lower(e) && |Finish(e)| == |Digits(e)| + 4
    ensures Finish(e) != [] && Finish(e)[0] == 0
  {
    ShiftScales(e, 1);
    var e1 := Shift(e);
    ShiftScales(e1, 1);
    var e2 := Shift(e1);
    ShiftScales(e2, 1);
    var e3 := Shift(e2);
    ShiftScales(e3, 1);
    var e4 := Shift(e3);
    ShiftScales(e4, 1);
    FourShiftsEmpty(e.low);
    LastShift(e4);
  }

  lemma {:induction false} FourShiftsEmpty(low: nat)
    ensures var once := (256 * low) % WORD;
            var twice := (256 * once) % WORD;
            var thrice := (256 * twice) % WORD;
            (256 * thrice) % WORD == 0
  {
    var once := (256 * low) % WORD;
    var twice := (256 * once) % WORD;
    SecondShift(low);
    ThirdShift(twice);
  }

  lemma {:induction false} SecondShift(low: nat)
    ensures (256 * ((256 * low) % WORD)) % WORD % 0x1_0000 == 0
  {
    var q := 256 * low / WORD;
    assert 256 * ((256 * low) % WORD) == 0x1_0000 * (low - 0x100_0000 * q);
  }

  lemma {:induction false} ThirdShift(twice: nat)
    requires twice % 0x1_0000 == 0
    ensures (256 * ((256 * twice) % WORD)) % WORD == 0
  {
    var (w, q) := (twice / 0x1_0000, 256 * twice / WORD);
    assert 256 * ((256 * twice) % WORD) == WORD * (w - 256 * q);
  }

  lemma {:induction false} LastShift(e: Carrier)
    requires e.low == 0
    ensures BigEndian(Shift(e).out) * 256 * WORD == Lower(Shift(e))
    ensures |Digits(Shift(e))| == |Shift(e).out| + 1
  {
    var n := Shift(e);
    assert Digits(n) == n.out + [0];
    BigEndianAppend(n.out, 0);
  }

  /** The bytes of a whole message. */
  function Message(slots: seq<Slot>): (data: seq<byte>)
    requires forall s <- slots :: Carves(s)
  {
    Finish(EncodeAll(FRESH, slots))
  }

  /**
   * The encoder's bytes start with the zero byte the decoder demands, lie in the interval its symbols carve,
   * and number exactly the five start-up bytes plus one for every renormalisation.
   */
  lemma {:induction false} MessageInside(slots: seq<Slot>)
    requires forall s <- slots :: Carves(s)
    ensures var data := Message(slots);
            && Inside(data, NarrowAll(WHOLE, slots))
            && |data| == 5 + NarrowAll(WHOLE, slots).shifts
            && data[0] == 0 && data[1] < 255
  {
    FreshMirrors();
    EncodeAllMirrors(FRESH, WHOLE, slots);
    FinishInside(EncodeAll(FRESH, slots), NarrowAll(WHOLE, slots));
    InsideAll(Message(slots), WHOLE, slots);
    WholeHeader(Message(slots));
  }

  lemma {:induction false} FreshMirrors()
    ensures Mirrors(FRESH, WHOLE)
  {
    assert Digits(FRESH) == [0];
    assert BigEndian([0]) == 0 by { BigEndianAppend([], 0); }
  }

  lemma {:induction false} FinishInside(e: Carrier, iv: Interval)
    requires Wide(iv) && Mirrors(e, iv)
    ensures Inside(Finish(e), iv) && |Finish(e)| == 5 + iv.shifts && Finish(e)[0] == 0
  {
    hide Finish, Lower, Digits;
    FinishWritesLower(e);
    assert Finish(e)[..|Finish(e)|] == Finish(e);
  }

  lemma {:induction false} WholeHeader(data: seq<byte>)
    requires Inside(data, WHOLE) && data[0] == 0
    ensures data[1] < 255
  {
    StartTracks(data);
  }
}
