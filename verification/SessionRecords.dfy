/** The stored session record: what is written, what is read back, and what one operation makes of it. */
module SessionRecords {
  import opened Outcome

  const MAX_SAFE_INTEGER: nat := 0x1F_FFFF_FFFF_FFFF

  /** A JSON value; a number that is no integer is only ever refused. */
  datatype Json =
    | JNull
    | JBool(b: bool)
    | JInt(n: int)
    | JFraction
    | JString(s: string)
    | JArray(items: seq<Json>)
    | JObject(fields: map<string, Json>)

  /** A stored text: the value it denotes, or no JSON at all. */
  datatype Raw = Garbled | Text(value: Json)

  type Cell = Option<Raw>

  datatype Refresh = Cookie | Token(token: string)
  datatype SessionRecord = SessionRecord(accessToken: Option<string>, refresh: Option<Refresh>, expiresAt: Option<string>)
  datatype Stored = Active(revision: nat, session: SessionRecord) | Empty(revision: nat)

  predicate SafeRevision(v: Option<Json>) {
    v.Some? && v.value.JInt? && 0 <= v.value.n <= MAX_SAFE_INTEGER
  }

  function Get(fields: map<string, Json>, name: string): Option<Json> {
    if name in fields then Some(fields[name]) else None
  }

  predicate NullableString(v: Option<Json>) {
    v.Some? && (v.value.JNull? || v.value.JString?)
  }

  function AsString(v: Option<Json>): Option<string>
    requires NullableString(v)
  {
    if v.value.JString? then Some(v.value.s) else None
  }

  /** A missing, malformed or browser-readable refresh capability makes the whole session unreadable. */
  function ParseSession(v: Option<Json>): Option<SessionRecord> {
    if v.None? || !v.value.JObject? then None
    else
      var row := v.value.fields;
      var (access, expires, refresh) := (Get(row, "accessToken"), Get(row, "expiresAt"), Get(row, "refresh"));
      if !NullableString(access) || !NullableString(expires) || refresh.None? then None
      else if refresh.value.JNull? then Some(SessionRecord(AsString(access), None, AsString(expires)))
      else if refresh.value.JObject? && Get(refresh.value.fields, "kind") == Some(JString("cookie")) then
        Some(SessionRecord(AsString(access), Some(Cookie), AsString(expires)))
      else None
  }

  function ParseStoredRecord(raw: Raw): Option<Stored> {
    if raw.Garbled? || !raw.value.JObject? then None
    else
      var row := raw.value.fields;
      var revision := Get(row, "revision");
      if Get(row, "version") != Some(JInt(1)) || !SafeRevision(revision) then None
      else if Get(row, "kind") == Some(JString("empty")) then Some(Empty(revision.value.n))
      else if Get(row, "kind") != Some(JString("active")) then None
      else
        var session := ParseSession(Get(row, "session"));
        if session.None? || session.value.refresh.None? then None else Some(Active(revision.value.n, session.value))
  }

  /** The revision of a record that cannot be read otherwise. */
  function LooseRevision(raw: Raw): nat {
    if raw.Text? && raw.value.JObject? && SafeRevision(Get(raw.value.fields, "revision"))
    then Get(raw.value.fields, "revision").value.n else 0
  }

  /** What the store reads: signed out if nothing is there, or nothing it can read. */
  function Seen(cell: Cell): Stored {
    if cell.None? then Empty(0)
    else
      var record := ParseStoredRecord(cell.value);
      if record.Some? then record.value else Empty(LooseRevision(cell.value))
  }

  function JsonString(s: Option<string>): Json {
    if s.Some? then JString(s.value) else JNull
  }

  function RefreshJson(refresh: Option<Refresh>): Json {
    match refresh
    case None => JNull
    case Some(Cookie) => JObject(map["kind" := JString("cookie")])
    case Some(Token(token)) => JObject(map["kind" := JString("token"), "token" := JString(token)])
  }

  function SessionJson(session: SessionRecord): Json {
    JObject(map["accessToken" := JsonString(session.accessToken), "refresh" := RefreshJson(session.refresh),
                "expiresAt" := JsonString(session.expiresAt)])
  }

  function Written(record: Stored): Raw {
    match record
    case Empty(revision) =>
      Text(JObject(map["version" := JInt(1), "kind" := JString("empty"), "revision" := JInt(revision)]))
    case Active(revision, session) =>
      Text(JObject(map["version" := JInt(1), "kind" := JString("active"), "revision" := JInt(revision),
                       "session" := SessionJson(session)]))
  }

  /** The records this store may write. */
  predicate Proper(record: Stored) {
    record.revision <= MAX_SAFE_INTEGER && (record.Active? ==> record.session.refresh == Some(Cookie))
  }

  /** Exactly the proper records survive being written and read: none comes back changed, and no other comes back at all. */
  lemma {:induction false} WrittenThenRead(record: Stored)
    ensures ParseStoredRecord(Written(record)) == if Proper(record) then Some(record) else None
  {
    if record.Active? {
      SessionReads(record.session);
      hide ParseSession, SessionJson;
    }
  }

  lemma {:induction false} SessionReads(session: SessionRecord)
    ensures ParseSession(Some(SessionJson(session))) ==
            if session.refresh.Some? && session.refresh.value.Token? then None else Some(session)
  {
    var row := SessionJson(session).fields;
    assert Get(row, "accessToken") == Some(JsonString(session.accessToken));
    assert Get(row, "expiresAt") == Some(JsonString(session.expiresAt));
    assert Get(row, "refresh") == Some(RefreshJson(session.refresh));
  }

  /** Whatever is read is proper: no browser-readable token is ever accepted, and writing it again changes nothing. */
  lemma {:induction false} ReadIsProper(cell: Cell)
    ensures Proper(Seen(cell)) && Seen(Some(Written(Seen(cell)))) == Seen(cell)
  {
    WrittenThenRead(Seen(cell));
  }

  // ---- One operation ----

  datatype Tokens = Tokens(accessToken: string, refreshToken: string, expiresAt: string)
  datatype Op =
    | Save(tokens: Tokens)
    | Clear
    | CompareAndSet(expected: int, next: SessionRecord)
    | CompareAndClear(expected: int)

  datatype Answer = Done | Refused | Incomplete | Readable | NoRefresh | Exhausted

  const MARKER := "http-only"

  /** What the operation asks to write, if it may write at all; its own arguments are looked at first or last. */
  function Wanted(seen: Stored, op: Op): Answer {
    match op
    case Save(tokens) =>
      if tokens.accessToken == "" || tokens.refreshToken == "" || tokens.expiresAt == "" then Incomplete
      else if tokens.refreshToken != MARKER then Readable
      else if seen.revision >= MAX_SAFE_INTEGER then Exhausted
      else Done
    case Clear => if seen.revision >= MAX_SAFE_INTEGER then Exhausted else Done
    case CompareAndSet(expected, next) =>
      if seen.revision != expected then Refused
      else if next.refresh.Some? && next.refresh.value.Token? then Readable
      else if next.refresh.None? then NoRefresh
      else if seen.revision >= MAX_SAFE_INTEGER then Exhausted
      else Done
    case CompareAndClear(expected) =>
      if seen.revision != expected then Refused
      else if seen.revision >= MAX_SAFE_INTEGER then Exhausted
      else Done
  }

  function Intended(seen: Stored, op: Op): Stored {
    match op
    case Save(tokens) =>
      Active(seen.revision + 1, SessionRecord(Some(tokens.accessToken), Some(Cookie), Some(tokens.expiresAt)))
    case CompareAndSet(_, next) => Active(seen.revision + 1, next)
    case _ => Empty(seen.revision + 1)
  }

  /** The cell after an operation that looked at `seen` and writes over `cell`. */
  function Put(seen: Cell, cell: Cell, op: Op): Cell {
    if Wanted(Seen(seen), op).Done? then Some(Written(Intended(Seen(seen), op))) else cell
  }

  function Step(cell: Cell, op: Op): Cell {
    Put(cell, cell, op)
  }

  /** A mutation that succeeds raises the revision by exactly one and reads back as it was meant; any other changes nothing. */
  lemma {:induction false} StepRaises(cell: Cell, op: Op)
    ensures Wanted(Seen(cell), op).Done? ==>
              Seen(Step(cell, op)) == Intended(Seen(cell), op) && Seen(Step(cell, op)).revision == Seen(cell).revision + 1
    ensures !Wanted(Seen(cell), op).Done? ==> Step(cell, op) == cell
  {
    if Wanted(Seen(cell), op).Done? {
      WrittenThenRead(Intended(Seen(cell), op));
    }
  }

  // ---- Runs ----

  /** Any number of tabs, one operation after another. */
  function Run(cell: Cell, ops: seq<Op>): Cell {
    if ops == [] then cell else Step(Run(cell, ops[..|ops| - 1]), ops[|ops| - 1])
  }

  function AnswerAt(cell: Cell, ops: seq<Op>, i: nat): Answer
    requires i < |ops|
  {
    Wanted(Seen(Run(cell, ops[..i])), ops[i])
  }

  function Successes(cell: Cell, ops: seq<Op>): nat {
    if ops == [] then 0
    else Successes(cell, ops[..|ops| - 1]) + if AnswerAt(cell, ops, |ops| - 1).Done? then 1 else 0
  }

  /** The revision counts the mutations that succeeded. */
  lemma {:induction false} RevisionCounts(cell: Cell, ops: seq<Op>)
    ensures Seen(Run(cell, ops)).revision == Seen(cell).revision + Successes(cell, ops)
    ensures Successes(cell, ops) == 0 ==> Run(cell, ops) == cell
    decreases |ops|
  {
    if ops != [] {
      var most := ops[..|ops| - 1];
      RevisionCounts(cell, most);
      StepRaises(Run(cell, most), ops[|ops| - 1]);
      hide Seen, Wanted, Intended, Step;
    }
  }

  lemma {:induction false} RunSplits(cell: Cell, ops: seq<Op>, i: nat)
    requires i <= |ops|
    ensures Run(cell, ops) == Run(Run(cell, ops[..i]), ops[i..])
    ensures Successes(cell, ops) == Successes(cell, ops[..i]) + Successes(Run(cell, ops[..i]), ops[i..])
    decreases |ops|
  {
    if i == |ops| {
      assert ops[..i] == ops;
    } else {
      var (n, rest) := (|ops| - 1, ops[i..]);
      RunSplits(cell, ops[..n], i);
      assert ops[..n][..i] == ops[..i] && ops[..n][i..] == rest[..|rest| - 1] && rest[|rest| - 1] == ops[n];
    }
    hide Step, Wanted, Seen;
  }

  predicate Compares(op: Op, revision: int) {
    (op.CompareAndSet? && op.expected == revision) || (op.CompareAndClear? && op.expected == revision)
  }

  /** A comparison succeeds only at the revision it expects. */
  lemma {:induction false} ComparedAt(cell: Cell, ops: seq<Op>, i: nat, revision: int)
    requires i < |ops| && Compares(ops[i], revision) && AnswerAt(cell, ops, i).Done?
    ensures Seen(cell).revision + Successes(cell, ops[..i]) == revision
    ensures Seen(Run(cell, ops[..i + 1])).revision == revision + 1
  {
    RevisionCounts(cell, ops[..i]);
    assert ops[..i + 1][..i] == ops[..i];
    StepRaises(Run(cell, ops[..i]), ops[i]);
    hide Seen, Intended, Step;
  }

  /** Of all the comparisons with one revision, in whatever tabs and whenever, at most one succeeds. */
  lemma {:induction false} OneWinner(cell: Cell, ops: seq<Op>, i: nat, j: nat, revision: int)
    requires i < j < |ops| && Compares(ops[i], revision) && Compares(ops[j], revision)
    ensures !(AnswerAt(cell, ops, i).Done? && AnswerAt(cell, ops, j).Done?)
  {
    hide Seen, Wanted, Compares, Step, Run, Successes, AnswerAt;
    RevisionCounts(cell, ops[..i + 1]);
    RunSplits(cell, ops[..j], i + 1);
    assert ops[..j][..i + 1] == ops[..i + 1];
    if AnswerAt(cell, ops, i).Done? && AnswerAt(cell, ops, j).Done? {
      ComparedAt(cell, ops, i, revision);
      ComparedAt(cell, ops, j, revision);
    }
  }

  /** A comparison with a snapshot gets past its check exactly if nothing has succeeded since, and then nothing has changed. */
  lemma {:induction false} PassesIffUnchanged(cell: Cell, history: seq<Op>, op: Op)
    requires Compares(op, Seen(cell).revision)
    ensures Wanted(Seen(Run(cell, history)), op) != Refused <==> Successes(cell, history) == 0
    ensures Wanted(Seen(Run(cell, history)), op) != Refused ==> Run(cell, history) == cell
  {
    RevisionCounts(cell, history);
    hide Seen, Run, Successes;
  }

  predicate Outdated(op: Op, revision: int) {
    (op.CompareAndSet? || op.CompareAndClear?) && op.expected <= revision
  }

  /** A tombstone stands against every comparison with a snapshot from before it. */
  lemma {:induction false} TombstoneStands(cell: Cell, op: Op, later: seq<Op>)
    requires (op.Clear? || op.CompareAndClear?) && Wanted(Seen(cell), op).Done?
    requires forall i :: 0 <= i < |later| ==> Outdated(later[i], Seen(cell).revision)
    ensures Run(Step(cell, op), later) == Step(cell, op) && Seen(Step(cell, op)).Empty?
    decreases |later|
  {
    StepRaises(cell, op);
    if later != [] {
      TombstoneStands(cell, op, later[..|later| - 1]);
      assert Outdated(later[|later| - 1], Seen(cell).revision);
      StepRaises(Step(cell, op), later[|later| - 1]);
      hide Seen, Written, Intended, Step;
    }
  }

  /** Every record in the cell was written by a store and reads back as itself, unless nothing succeeded yet. */
  lemma {:induction false} EveryRecordReadsBack(cell: Cell, ops: seq<Op>)
    requires Successes(cell, ops) > 0
    ensures var record := Seen(Run(cell, ops)); Run(cell, ops) == Some(Written(record)) && Proper(record)
    decreases |ops|
  {
    var most := ops[..|ops| - 1];
    var before := Run(cell, most);
    StepRaises(before, ops[|ops| - 1]);
    ReadIsProper(Run(cell, ops));
    if Wanted(Seen(before), ops[|ops| - 1]).Done? {
    } else {
      EveryRecordReadsBack(cell, most);
    }
    hide Seen, Written, Wanted, Intended;
  }

  // ---- Tabs that look and write at different times ----

  /** A tab looks at the cell, and later writes what it then decided on. */
  datatype Move = Look(tab: nat) | Act(tab: nat, op: Op)
  datatype Tabs = Tabs(cell: Cell, seen: map<nat, Cell>)

  function Base(s: Tabs, tab: nat): Cell {
    if tab in s.seen then s.seen[tab] else s.cell
  }

  function Next(s: Tabs, m: Move): Tabs {
    match m
    case Look(tab) => Tabs(s.cell, s.seen[tab := s.cell])
    case Act(tab, op) => Tabs(Put(Base(s, tab), s.cell, op), s.seen - {tab})
  }

  function Play(s: Tabs, moves: seq<Move>): Tabs {
    if moves == [] then s else Next(Play(s, moves[..|moves| - 1]), moves[|moves| - 1])
  }

  /** The tabs that have looked, and somebody else has acted since. */
  function Overtaken(moves: seq<Move>): set<nat> {
    if moves == [] then {}
    else
      var most := moves[..|moves| - 1];
      match moves[|moves| - 1]
      case Look(tab) => Overtaken(most) - {tab}
      case Act(tab, _) => (Overtaken(most) + Looking(most)) - {tab}
  }

  function Looking(moves: seq<Move>): set<nat> {
    if moves == [] then {}
    else
      match moves[|moves| - 1]
      case Look(tab) => Looking(moves[..|moves| - 1]) + {tab}
      case Act(tab, _) => Looking(moves[..|moves| - 1]) - {tab}
  }

  /** Nobody acts between another tab's look and its act: what a storage mutex, or a lock around the call, provides. */
  predicate Undisturbed(moves: seq<Move>) {
    forall i :: 0 <= i < |moves| && moves[i].Act? ==> moves[i].tab !in Overtaken(moves[..i])
  }

  function Ops(moves: seq<Move>): seq<Op> {
    if moves == [] then []
    else
      var (most, last) := (Ops(moves[..|moves| - 1]), moves[|moves| - 1]);
      if last.Act? then most + [last.op] else most
  }

  lemma {:induction false} FreshLooks(cell: Cell, moves: seq<Move>)
    ensures var s := Play(Tabs(cell, map[]), moves);
            s.seen.Keys == Looking(moves) && forall tab :: tab in s.seen && tab !in Overtaken(moves) ==> s.seen[tab] == s.cell
    decreases |moves|
  {
    if moves != [] {
      FreshLooks(cell, moves[..|moves| - 1]);
      hide Put;
    }
  }

  /** Undisturbed tabs do what they would have done one operation after another. */
  lemma {:induction false} UndisturbedIsSerial(cell: Cell, moves: seq<Move>)
    requires Undisturbed(moves)
    ensures Play(Tabs(cell, map[]), moves).cell == Run(cell, Ops(moves))
    decreases |moves|
  {
    if moves != [] {
      var (n, most) := (|moves| - 1, moves[..|moves| - 1]);
      forall i | 0 <= i < |most| && most[i].Act?
        ensures most[i].tab !in Overtaken(most[..i])
      {
        assert most[..i] == moves[..i] && most[i] == moves[i];
      }
      UndisturbedIsSerial(cell, most);
      FreshLooks(cell, most);
      if moves[n].Act? {
        assert Ops(moves)[..|Ops(moves)| - 1] == Ops(most);
        assert moves[n].tab !in Overtaken(moves[..n]);
      }
      hide Put, Overtaken, Looking;
    }
  }

  // ---- Exactly when each success raises the revision by one ----

  function StateAt(cell: Cell, moves: seq<Move>, k: nat): Tabs
    requires k <= |moves|
  {
    Play(Tabs(cell, map[]), moves[..k])
  }

  function RevisionAt(cell: Cell, moves: seq<Move>, k: nat): nat
    requires k <= |moves|
  {
    Seen(StateAt(cell, moves, k).cell).revision
  }

  /** Move `k` is an operation that succeeds, judged by what its tab saw. */
  predicate Wins(cell: Cell, moves: seq<Move>, k: nat) {
    k < |moves| && moves[k].Act? && Wanted(Seen(Base(StateAt(cell, moves, k), moves[k].tab)), moves[k].op).Done?
  }

  /** The look that a tab's next operation goes by. */
  function LookOf(moves: seq<Move>, k: nat, tab: nat): (look: Option<nat>)
    requires k <= |moves|
    ensures look.Some? ==> look.value < k && moves[look.value] == Look(tab)
  {
    if k == 0 then None
    else if moves[k - 1].tab == tab then (if moves[k - 1].Look? then Some(k - 1) else None)
    else LookOf(moves, k - 1, tab)
  }

  /** Another operation succeeds between a look and the operation that goes by it. */
  predicate Beaten(cell: Cell, moves: seq<Move>, k: nat)
    requires k < |moves|
  {
    var look := LookOf(moves, k, moves[k].tab);
    look.Some? && exists j :: look.value < j < k && Wins(cell, moves, j)
  }

  lemma {:induction false} StateNext(cell: Cell, moves: seq<Move>, k: nat)
    requires k < |moves|
    ensures StateAt(cell, moves, k + 1) == Next(StateAt(cell, moves, k), moves[k])
  {
    assert moves[..k + 1][..k] == moves[..k];
  }

  /** What a tab goes by is the cell as it was at its look, or as it is now. */
  lemma {:induction false} BaseIsLook(cell: Cell, moves: seq<Move>, k: nat, tab: nat)
    requires k <= |moves|
    ensures var (s, look) := (StateAt(cell, moves, k), LookOf(moves, k, tab));
            && (tab in s.seen <==> look.Some?)
            && Base(s, tab) == if look.Some? then StateAt(cell, moves, look.value).cell else s.cell
  {
    if k != 0 {
      BaseIsLook(cell, moves, k - 1, tab);
      StateNext(cell, moves, k - 1);
      hide Put, StateAt;
    } else {
      assert moves[..0] == [];
    }
  }

  /** An operation that succeeds leaves one revision more than its tab saw; every other move leaves the cell as it is. */
  lemma {:induction false} MoveRaises(cell: Cell, moves: seq<Move>, k: nat)
    requires k < |moves|
    ensures Wins(cell, moves, k) ==>
              RevisionAt(cell, moves, k + 1) == Seen(Base(StateAt(cell, moves, k), moves[k].tab)).revision + 1
    ensures !Wins(cell, moves, k) ==> StateAt(cell, moves, k + 1).cell == StateAt(cell, moves, k).cell
  {
    StateNext(cell, moves, k);
    if Wins(cell, moves, k) {
      WrittenThenRead(Intended(Seen(Base(StateAt(cell, moves, k), moves[k].tab)), moves[k].op));
    }
    hide Seen, Written, StateAt, ParseStoredRecord;
  }

  lemma {:induction false} StillBetween(cell: Cell, moves: seq<Move>, i: nat, k: nat)
    requires i <= k <= |moves| && forall j :: i <= j < k ==> !Wins(cell, moves, j)
    ensures StateAt(cell, moves, k).cell == StateAt(cell, moves, i).cell
    decreases k
  {
    hide Wins, StateAt;
    if i < k {
      StillBetween(cell, moves, i, k - 1);
      MoveRaises(cell, moves, k - 1);
    }
  }

  predicate EachRaises(cell: Cell, moves: seq<Move>, n: nat)
    requires n <= |moves|
  {
    forall k :: 0 <= k < n && Wins(cell, moves, k) ==> RevisionAt(cell, moves, k + 1) == RevisionAt(cell, moves, k) + 1
  }

  /** Where each success raises the revision by one, it never falls. */
  lemma {:induction false} NeverFalls(cell: Cell, moves: seq<Move>, i: nat, k: nat)
    requires i <= k <= |moves| && EachRaises(cell, moves, k)
    ensures RevisionAt(cell, moves, i) <= RevisionAt(cell, moves, k)
    decreases k
  {
    hide Wins, StateAt, Seen;
    if i < k {
      NeverFalls(cell, moves, i, k - 1);
      MoveRaises(cell, moves, k - 1);
    }
  }

  lemma {:induction false} UnbeatenRaises(cell: Cell, moves: seq<Move>, k: nat)
    requires k < |moves| && Wins(cell, moves, k) && !Beaten(cell, moves, k)
    ensures Base(StateAt(cell, moves, k), moves[k].tab) == StateAt(cell, moves, k).cell
    ensures RevisionAt(cell, moves, k + 1) == RevisionAt(cell, moves, k) + 1
  {
    var (tab, look) := (moves[k].tab, LookOf(moves, k, moves[k].tab));
    BaseIsLook(cell, moves, k, tab);
    MoveRaises(cell, moves, k);
    hide Wins, StateAt, Seen;
    if look.Some? {
      assert !Wins(cell, moves, look.value) by {
        LooksDoNotWin(cell, moves, look.value);
      }
      StillBetween(cell, moves, look.value, k);
    }
  }

  lemma {:induction false} LooksDoNotWin(cell: Cell, moves: seq<Move>, k: nat)
    requires k < |moves| && moves[k].Look?
    ensures !Wins(cell, moves, k)
  {
  }

  lemma {:induction false} BeatenRepeats(cell: Cell, moves: seq<Move>, k: nat)
    requires k < |moves| && Wins(cell, moves, k) && Beaten(cell, moves, k) && EachRaises(cell, moves, k)
    ensures RevisionAt(cell, moves, k + 1) <= RevisionAt(cell, moves, k)
  {
    var look := LookOf(moves, k, moves[k].tab).value;
    var j :| look < j < k && Wins(cell, moves, j);
    BaseIsLook(cell, moves, k, moves[k].tab);
    MoveRaises(cell, moves, k);
    NeverFalls(cell, moves, look, j);
    NeverFalls(cell, moves, j + 1, k);
    assert RevisionAt(cell, moves, j + 1) == RevisionAt(cell, moves, j) + 1;
  }

  /**
   * However the looks and acts of the tabs are interleaved: every success raises the revision by exactly one if and only
   * if no success goes by a look that another success has outdated.
   */
  lemma {:induction false} RaisesIffUnbeaten(cell: Cell, moves: seq<Move>)
    ensures EachRaises(cell, moves, |moves|) <==>
              forall k :: 0 <= k < |moves| && Wins(cell, moves, k) ==> !Beaten(cell, moves, k)
  {
    hide Wins, StateAt, Beaten;
    if forall k :: 0 <= k < |moves| && Wins(cell, moves, k) ==> !Beaten(cell, moves, k) {
      forall k | 0 <= k < |moves| && Wins(cell, moves, k)
        ensures RevisionAt(cell, moves, k + 1) == RevisionAt(cell, moves, k) + 1
      {
        UnbeatenRaises(cell, moves, k);
      }
    } else {
      var k :| 0 <= k < |moves| && Wins(cell, moves, k) && Beaten(cell, moves, k);
      if EachRaises(cell, moves, |moves|) {
        BeatenRepeats(cell, moves, k);
      }
    }
  }

  /** Then, too, at most one comparison with any revision succeeds. */
  lemma {:induction false} OneWinnerAmongTabs(cell: Cell, moves: seq<Move>, j: nat, k: nat, revision: int)
    requires j < k < |moves| && moves[j].Act? && moves[k].Act? && EachRaises(cell, moves, |moves|)
    requires Compares(moves[j].op, revision) && Compares(moves[k].op, revision)
    ensures !(Wins(cell, moves, j) && Wins(cell, moves, k))
  {
    RaisesIffUnbeaten(cell, moves);
    NeverFalls(cell, moves, j + 1, k);
    hide Beaten, StateAt, Seen;
    if Wins(cell, moves, j) && Wins(cell, moves, k) {
      UnbeatenRaises(cell, moves, j);
      UnbeatenRaises(cell, moves, k);
    }
  }

  /** The operations that succeed, in the order in which they do. */
  function Winners(cell: Cell, moves: seq<Move>, n: nat): seq<Op>
    requires n <= |moves|
  {
    if n == 0 then [] else Winners(cell, moves, n - 1) + if Wins(cell, moves, n - 1) then [moves[n - 1].op] else []
  }

  /** And then the tabs are serial: the cell is what the successes alone make of it, one after another, and all succeed. */
  lemma {:induction false} WinnersAreSerial(cell: Cell, moves: seq<Move>, n: nat)
    requires n <= |moves| && forall k :: 0 <= k < n && Wins(cell, moves, k) ==> !Beaten(cell, moves, k)
    ensures StateAt(cell, moves, n).cell == Run(cell, Winners(cell, moves, n))
    ensures Successes(cell, Winners(cell, moves, n)) == |Winners(cell, moves, n)|
    decreases n
  {
    hide Beaten, Seen, Put;
    if n == 0 {
      assert moves[..0] == [];
    } else {
      var done := Winners(cell, moves, n - 1);
      WinnersAreSerial(cell, moves, n - 1);
      MoveRaises(cell, moves, n - 1);
      if Wins(cell, moves, n - 1) {
        UnbeatenRaises(cell, moves, n - 1);
        StateNext(cell, moves, n - 1);
        assert (done + [moves[n - 1].op])[..|done|] == done;
      } else {
        assert Winners(cell, moves, n) == done;
      }
    }
  }

  /** The schedules in which nobody at all acts between another tab's look and its act are among these. */
  lemma {:induction false} UndisturbedIsUnbeaten(cell: Cell, moves: seq<Move>, k: nat)
    requires Undisturbed(moves) && k < |moves| && moves[k].Act?
    ensures !Beaten(cell, moves, k)
  {
    hide Wins;
    var (tab, look) := (moves[k].tab, LookOf(moves, k, moves[k].tab));
    if Beaten(cell, moves, k) {
      var j :| look.value < j < k && Wins(cell, moves, j);
      WinsAct(cell, moves, j);
      OvertakenSince(moves, j, k, tab);
    }
  }

  lemma {:induction false} WinsAct(cell: Cell, moves: seq<Move>, k: nat)
    requires Wins(cell, moves, k)
    ensures k < |moves| && moves[k].Act?
  {
  }

  lemma {:induction false} LookingAt(moves: seq<Move>, k: nat, tab: nat)
    requires k <= |moves|
    ensures tab in Looking(moves[..k]) <==> LookOf(moves, k, tab).Some?
  {
    if k != 0 {
      LookingAt(moves, k - 1, tab);
      assert moves[..k][..k - 1] == moves[..k - 1];
    }
  }

  /** A tab whose look is older than somebody's act is overtaken. */
  lemma {:induction false} OvertakenSince(moves: seq<Move>, j: nat, k: nat, tab: nat)
    requires j < k <= |moves| && moves[j].Act? && LookOf(moves, k, tab).Some? && LookOf(moves, k, tab).value < j
    ensures tab in Overtaken(moves[..k])
    decreases k
  {
    assert moves[..k][..k - 1] == moves[..k - 1];
    assert moves[k - 1].tab != tab;
    if j == k - 1 {
      LookingAt(moves, k - 1, tab);
    } else {
      OvertakenSince(moves, j, k - 1, tab);
    }
  }

  /** Two tabs that look at one revision and then both compare with it both succeed, and the first of them is lost. */
  lemma {:induction false} DisturbedBothWin(cell: Cell, first: Op, second: Op)
    requires Compares(first, Seen(cell).revision) && Compares(second, Seen(cell).revision)
    requires Wanted(Seen(cell), first).Done? && Wanted(Seen(cell), second).Done?
    ensures var s := Play(Tabs(cell, map[]), [Look(0), Look(1), Act(0, first), Act(1, second)]);
            Seen(s.cell) == Intended(Seen(cell), second) && Seen(s.cell).revision == Seen(cell).revision + 1
    ensures var moves := [Look(0), Look(1), Act(0, first), Act(1, second)];
            Wins(cell, moves, 3) && Beaten(cell, moves, 3) && !Undisturbed(moves)
  {
    hide Seen, Written, ParseStoredRecord, Wanted, Beaten, Undisturbed;
    WrittenThenRead(Intended(Seen(cell), second));
    var s := Tabs(cell, map[]);
    var one: seq<Move> := [] + [Look(0)];
    var two := one + [Look(1)];
    var three := two + [Act(0, first)];
    PlayMore(s, [], Look(0));
    PlayMore(s, one, Look(1));
    PlayMore(s, two, Act(0, first));
    PlayMore(s, three, Act(1, second));
    assert Play(s, two).seen == map[0 := cell, 1 := cell];
    assert Play(s, three).seen == map[1 := cell];
    assert three + [Act(1, second)] == [Look(0), Look(1), Act(0, first), Act(1, second)];
    IntendedIsRead(cell, first);
    IntendedIsRead(cell, second);
    var moves := [Look(0), Look(1), Act(0, first), Act(1, second)];
    assert moves[..3] == three && moves[..4] == moves;
    NotRaisedMeansBeaten(cell, moves, 3);
  }

  lemma {:induction false} NotRaisedMeansBeaten(cell: Cell, moves: seq<Move>, k: nat)
    requires k < |moves| && Wins(cell, moves, k) && RevisionAt(cell, moves, k + 1) <= RevisionAt(cell, moves, k)
    ensures Beaten(cell, moves, k) && !Undisturbed(moves)
  {
    hide Beaten, Undisturbed, RevisionAt, Wins;
    WinsAct(cell, moves, k);
    if !Beaten(cell, moves, k) {
      UnbeatenRaises(cell, moves, k);
    } else if Undisturbed(moves) {
      UndisturbedIsUnbeaten(cell, moves, k);
    }
  }

  lemma {:induction false} IntendedIsRead(cell: Cell, op: Op)
    requires Wanted(Seen(cell), op).Done?
    ensures Seen(Some(Written(Intended(Seen(cell), op)))) == Intended(Seen(cell), op)
    ensures Intended(Seen(cell), op).revision == Seen(cell).revision + 1
  {
    StepRaises(cell, op);
  }

  lemma {:induction false} PlayMore(s: Tabs, moves: seq<Move>, m: Move)
    ensures Play(s, moves + [m]) == Next(Play(s, moves), m)
  {
    assert (moves + [m])[..|moves|] == moves;
  }
}
