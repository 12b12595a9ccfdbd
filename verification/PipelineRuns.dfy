/** What the pipeline's invariants mean to its callers, and a run in which deferred work waits for ever. */
module PipelineRuns {
  import opened Outcome
  import opened PipelineState
  import opened PipelineSteps
  import opened PipelineSound
  import opened PipelineMachine

  // ---- Files ----

  /** The tasks that hold a file. */
  function Holders(tasks: Tasks, i: Item): (keys: set<Key>) {
    set k | k in tasks && tasks[k].item == Some(i)
  }

  /**
   * A file fetched is held by exactly one task, the one of the key it was fetched for, waiting for or in its decode;
   * or it is discarded. Never both, and never neither.
   */
  lemma {:induction false} EveryFileHasOneOwner(tasks: Tasks, count: nat, q: Queues, f: Files, b: Book, i: Item)
    requires Sound(tasks, count, q, f, b, {}) && i in f.owner
    ensures Holders(tasks, i) == if i in f.discarded then {} else {f.owner[i]}
    ensures forall k :: k in Holders(tasks, i) ==> tasks[k].state.WaitingDecode? || tasks[k].state.Decoding?
  {
    hide EntriesLinked, RunsLinked, Heard, AllShaped;
    forall k | k in Holders(tasks, i)
      ensures k == f.owner[i] && i !in f.discarded && (tasks[k].state.WaitingDecode? || tasks[k].state.Decoding?)
    {
      assert TaskLinked(k, tasks[k], count, q);
    }
  }

  /** A task starts its first decode on a file no run has. */
  lemma {:induction false} FirstDecodeIsAlone(tasks: Tasks, count: nat, q: Queues, f: Files, b: Book, k: Key, r: RunId)
    requires Sound(tasks, count, q, f, b, {}) && k in tasks && tasks[k].state.WaitingDecode? && r in q.runs
    ensures tasks[k].item.Some? && q.runs[r].item != tasks[k].item
  {
    assert TaskLinked(k, tasks[k], count, q);
    hide Linked, Heard;
  }

  // ---- Subscribers ----

  /** How often a subscriber was called. */
  function TimesCalled(calls: seq<Call>, token: Token): (n: nat) {
    if calls == [] then 0 else (if calls[0].token == token then 1 else 0) + TimesCalled(calls[1..], token)
  }

  lemma {:induction false} DistinctCalls(calls: seq<Call>, token: Token)
    requires forall i, j :: 0 <= i < j < |calls| ==> calls[i].token != calls[j].token
    ensures TimesCalled(calls, token) == if exists i :: 0 <= i < |calls| && calls[i].token == token then 1 else 0
    decreases |calls|
  {
    if calls != [] {
      var rest := calls[1..];
      assert forall i :: 0 <= i < |rest| ==> rest[i] == calls[i + 1];
      DistinctCalls(rest, token);
      if exists i :: 0 <= i < |calls| && calls[i].token == token {
        var i :| 0 <= i < |calls| && calls[i].token == token;
        assert i != 0 ==> rest[i - 1].token == token;
      }
    }
  }

  /** A subscriber is called at most once; it is called, has left, or is waiting on the task of its key. */
  lemma {:induction false} CalledAtMostOnce(tasks: Tasks, count: nat, q: Queues, f: Files, b: Book, token: Token)
    requires Sound(tasks, count, q, f, b, {}) && token in b.issued
    ensures TimesCalled(b.calls, token) <= 1
    ensures TimesCalled(b.calls, token) == 1 ==> token !in b.gone
    ensures (b.issued[token] in tasks && token in tasks[b.issued[token]].subs)
            <==> TimesCalled(b.calls, token) == 0 && token !in b.gone
  {
    hide Linked, Owned;
    DistinctCalls(b.calls, token);
    assert Called(b, token) <==> TimesCalled(b.calls, token) == 1;
  }

  // ---- Deferred work ----

  /** A download that will make progress: its queue entry is subscribed to, or its run has yet to clean up. */
  predicate UnderWay(k: Key, t: Task, q: Queues) {
    || (Slot(Download, t.lane, k) in q.entries && q.entries[Slot(Download, t.lane, k)].live)
    || (t.downloadRun.Some? && t.downloadRun.value in q.runs)
  }

  /**
   * Deferred work is waiting for something: the waiting room is full, or a download is under way -- or there is a task
   * that is marked downloading and is stuck.
   */
  lemma {:induction false} DeferredWorkAwaits(tasks: Tasks, count: nat, q: Queues, f: Files, b: Book, max: nat, k: Key)
    requires Sound(tasks, count, q, f, b, {}) && |Waiting(tasks)| <= max && Resumed(tasks, max) && k in DeferredKeys(tasks)
    ensures |Waiting(tasks)| == max
            || exists j :: j in Active(tasks) && (UnderWay(j, tasks[j], q) || j in StuckKeys(tasks))
  {
    hide Owned, Heard, EntriesLinked, RunsLinked, Distinct, IsBest;
    if |Waiting(tasks)| < max {
      assert Active(tasks) != {};
      var j :| j in Active(tasks);
      assert TaskLinked(j, tasks[j], count, q) && Shaped(tasks[j]);
      assert UnderWay(j, tasks[j], q) || j in StuckKeys(tasks);
    }
  }

  /** A stuck task that is marked downloading is counted as a download for ever: no resume pass resumes anything. */
  lemma {:induction false} StuckTaskBlocksResumption(tasks: Tasks, max: nat, k: Key)
    requires k in StuckKeys(tasks) && tasks[k].state.Downloading?
    ensures Room(tasks, max) == 0
  {
    assert k in Active(tasks);
  }

  // ---- Whole runs ----

  /** Everything that may happen to a pipeline from outside. */
  datatype Event =
    | Subscribes(key: Key, lane: Lane, priority: Priority, token: Token, reactions: seq<Reaction>)
    | Leaves(key: Key, order: nat, token: Token, reactions: seq<Reaction>)
    | Reprioritizes(key: Key, order: nat, token: Token, next: Priority, reactions: seq<Reaction>)
    | QueueActs(slot: Slot, reactions: seq<Reaction>)
    | Commits(run: RunId)
    | FetchEnds(run: RunId, fetched: Fetched, reactions: seq<Reaction>)
    | DecodeEnds(run: RunId, decoded: bool, reactions: seq<Reaction>)

  /** A pipeline and its environment at one moment. */
  datatype State = State(tasks: Tasks, queues: Queues, files: Files, book: Book)

  function StateOf(p: FrcImagePipeline): (s: State)
    reads p
  {
    State(p.tasks, p.queues, p.files, p.book)
  }

  predicate Flying(q: Queues, r: RunId, stage: Stage) {
    r in q.runs && q.runs[r].slot.stage == stage && !q.runs[r].returned
  }

  /** A token is issued once, a run returns once, a file is fetched once, and only a decode with a file yields an image. */
  predicate Possible(e: Event, s: State) {
    match e
    case Subscribes(_, _, _, token, _) => token !in s.book.issued
    case Commits(r) => r in s.queues.runs && s.queues.runs[r].slot.stage.Decode?
    case FetchEnds(r, fetched, _) => Flying(s.queues, r, Download) && (fetched.Intermediate? ==> fetched.item !in s.files.owner)
    case DecodeEnds(r, decoded, _) => Flying(s.queues, r, Decode) && (decoded ==> s.queues.runs[r].item.Some?)
    case _ => true
  }

  /** What an event does, whatever else it sets off. */
  ghost predicate Happens(e: Event, s: State, n: State)
    requires Possible(e, s)
  {
    match e
    case Subscribes(key, lane, priority, token, _) =>
      && n.files == s.files && n.book == s.book.(issued := s.book.issued[token := key])
      && key in n.tasks && token in n.tasks[key].subs && n.tasks[key].subs[token] == priority
    case Leaves(key, order, token, _) =>
      if Subscribed(s.tasks, key, order, token) then n.book == s.book.(gone := s.book.gone + {token})
      else n.tasks == s.tasks && n.files == s.files && n.book == s.book
    case Reprioritizes(key, order, token, next, _) =>
      && n.files == s.files && n.book == s.book
      && if Subscribed(s.tasks, key, order, token) then key in n.tasks && n.tasks[key].subs == s.tasks[key].subs[token := next]
         else n.tasks == s.tasks
    case QueueActs(slot, _) => n.files == s.files && n.book == s.book && Moved(s.tasks, n.tasks)
    case Commits(r) => n == s.(queues := Pin(s.queues, r))
    case FetchEnds(r, fetched, _) =>
      && r !in n.queues.runs
      && (fetched.Intermediate? ==> n.files.owner == s.files.owner[fetched.item := s.queues.runs[r].slot.key])
    case DecodeEnds(r, decoded, _) => r !in n.queues.runs && n.files.owner == s.files.owner
  }

  /** The events that ask for more work: a subscriber joins, or raises a deferred task. */
  function Asks(e: Event, tasks: Tasks): (n: nat) {
    if e.Subscribes? || (e.Reprioritizes? && Raises(tasks, e.key, e.order, e.token, e.next)) then 1 else 0
  }

  /** The event by which a task gets stuck: the last subscriber leaves while no run of the task is in flight. */
  predicate StrandsTask(e: Event, tasks: Tasks) {
    e.Leaves? && Subscribed(tasks, e.key, e.order, e.token) && Strands(tasks[e.key], e.token)
  }

  /** The tasks stuck after an event: a new subscriber frees its own, and only a stranding departure adds one. */
  function StuckAfter(e: Event, tasks: Tasks): (keys: set<Key>) {
    if e.Subscribes? then StuckKeys(tasks) - {e.key}
    else if StrandsTask(e, tasks) then StuckKeys(tasks) + {e.key}
    else StuckKeys(tasks)
  }

  /** One event; it discards no more than it takes off the load, beyond what it asks for. */
  method Handle(p: FrcImagePipeline, e: Event)
    requires p.Valid() && Possible(e, StateOf(p))
    modifies p
    ensures p.Valid() && Happens(e, old(StateOf(p)), StateOf(p)) && StuckKeys(p.tasks) == StuckAfter(e, old(p.tasks))
    ensures old(p.discardedPending) <= p.discardedPending
    ensures p.discardedPending - old(p.discardedPending) + Most(Load(p.tasks), p.maxPending)
            <= Most(Load(old(p.tasks)), p.maxPending) + Asks(e, old(p.tasks))
  {
    hide FrcImagePipeline.Valid, Load, StuckKeys, Waiting, Answered, Cleared, Spoken, Strands, Subscribed, Moved, Mine, Raises, IsBest;
    match e
    case Subscribes(key, lane, priority, token, reactions) =>
      p.Subscribe(key, lane, priority, token, reactions);
    case Leaves(key, order, token, reactions) =>
      p.Unsubscribe(key, order, token, reactions);
    case Reprioritizes(key, order, token, next, reactions) =>
      p.SetPriority(key, order, token, next, reactions);
    case QueueActs(slot, reactions) =>
      p.QueueReacts(slot, reactions);
    case Commits(r) =>
      p.MarkUncancellable(r);
    case FetchEnds(r, fetched, reactions) =>
      p.DownloadReturns(r, fetched, reactions);
    case DecodeEnds(r, decoded, reactions) =>
      p.DecodeReturns(r, decoded, reactions);
  }

  /** How much the first `n` events ask for, each in the state it comes upon. */
  function Asked(events: seq<Event>, trace: seq<State>, n: nat): (asked: nat)
    requires n <= |events| && n <= |trace|
  {
    if n == 0 then 0 else Asked(events, trace, n - 1) + Asks(events[n - 1], trace[n - 1].tasks)
  }

  /** The subscribers that join and the changes of priority among the first `n` events. */
  function Requests(events: seq<Event>, n: nat): (requests: nat)
    requires n <= |events|
  {
    if n == 0 then 0
    else Requests(events, n - 1) + if events[n - 1].Subscribes? || events[n - 1].Reprioritizes? then 1 else 0
  }

  lemma {:induction false} AskedAtMost(events: seq<Event>, trace: seq<State>, n: nat)
    requires n <= |events| && n <= |trace|
    ensures Asked(events, trace, n) <= Requests(events, n)
    ensures (forall i :: 0 <= i < n ==> Asks(events[i], trace[i].tasks) == 0) ==> Asked(events, trace, n) == 0
  {
    hide Raises;
    if n != 0 {
      AskedAtMost(events, trace, n - 1);
    }
  }

  lemma {:induction false} AskedEarlier(events: seq<Event>, trace: seq<State>, later: State, n: nat)
    requires n <= |events| && n <= |trace|
    ensures Asked(events, trace + [later], n) == Asked(events, trace, n)
  {
    hide Raises;
    if n != 0 {
      AskedEarlier(events, trace, later, n - 1);
    }
  }

  /** Every task stuck now that was not stuck at first was stranded by one of the first `n` events. */
  ghost predicate StuckByDeparture(events: seq<Event>, trace: seq<State>, n: nat)
    requires n <= |events| && n < |trace|
  {
    forall k :: k in StuckKeys(trace[n].tasks) && k !in StuckKeys(trace[0].tasks) ==>
      exists i :: 0 <= i < n && StrandsTask(events[i], trace[i].tasks) && events[i].Leaves? && events[i].key == k
  }

  lemma {:induction false} StuckStep(events: seq<Event>, trace: seq<State>, next: State, n: nat)
    requires n < |events| && |trace| == n + 1 && StuckByDeparture(events, trace, n)
    requires StuckKeys(next.tasks) == StuckAfter(events[n], trace[n].tasks) || StuckKeys(next.tasks) == StuckKeys(trace[n].tasks)
    ensures StuckByDeparture(events, trace + [next], n + 1)
  {
    hide StuckKeys, Subscribed, Strands;
    var longer := trace + [next];
    assert forall i :: 0 <= i <= n ==> longer[i] == trace[i];
    forall k | k in StuckKeys(next.tasks) && k !in StuckKeys(trace[0].tasks)
      ensures exists i :: 0 <= i < n + 1 && StrandsTask(events[i], longer[i].tasks) && events[i].Leaves? && events[i].key == k
    {
      if k in StuckKeys(trace[n].tasks) {
        var i :| 0 <= i < n && StrandsTask(events[i], trace[i].tasks) && events[i].Leaves? && events[i].key == k;
        assert StrandsTask(events[i], longer[i].tasks);
      } else {
        assert StrandsTask(events[n], longer[n].tasks) && events[n].Leaves? && events[n].key == k;
      }
    }
  }

  /** With no task stuck, deferred work has a full waiting room or a download under way to wait for. */
  ghost predicate NothingStranded(tasks: Tasks, q: Queues, max: nat) {
    DeferredKeys(tasks) != {} && |Waiting(tasks)| != max ==> exists j :: j in Active(tasks) && UnderWay(j, tasks[j], q)
  }

  lemma {:induction false} NobodyStranded(p: FrcImagePipeline)
    requires p.Valid() && StuckKeys(p.tasks) == {}
    ensures NothingStranded(p.tasks, p.queues, p.maxPending)
  {
    hide Sound, UnderWay, Waiting, StuckKeys, Resumed;
    if DeferredKeys(p.tasks) != {} {
      var k :| k in DeferredKeys(p.tasks);
      DeferredWorkAwaits(p.tasks, p.orders, p.queues, p.files, p.book, p.maxPending, k);
    }
  }

  /**
   * Over any run, files are discarded only to pay for new work: no more of them than subscribers join and deferred tasks
   * are raised, and than the load exceeded the limit when the run began. Tasks get stuck only by a departure that strands
   * them, and a run without one, from a state without stuck tasks, leaves no deferred work stranded. Events that cannot
   * happen are passed over; `trace` is the state before each event, and at the end.
   */
  method RunEvents(p: FrcImagePipeline, events: seq<Event>) returns (ghost trace: seq<State>)
    requires p.Valid()
    modifies p
    ensures p.Valid() && old(p.discardedPending) <= p.discardedPending
    ensures |trace| == |events| + 1 && trace[0] == old(StateOf(p)) && trace[|events|] == StateOf(p)
    ensures forall i :: 0 <= i < |events| ==>
              if Possible(events[i], trace[i]) then Happens(events[i], trace[i], trace[i + 1]) else trace[i + 1] == trace[i]
    ensures p.discardedPending - old(p.discardedPending) + Most(Load(p.tasks), p.maxPending)
            <= Most(Load(old(p.tasks)), p.maxPending) + Asked(events, trace, |events|)
    ensures Asked(events, trace, |events|) <= Requests(events, |events|)
    ensures Load(old(p.tasks)) <= p.maxPending && (forall i :: 0 <= i < |events| ==> Asks(events[i], trace[i].tasks) == 0) ==>
              p.discardedPending == old(p.discardedPending) && Load(p.tasks) <= p.maxPending
    ensures StuckByDeparture(events, trace, |events|)
    ensures StuckKeys(old(p.tasks)) == {} && (forall i :: 0 <= i < |events| ==> !StrandsTask(events[i], trace[i].tasks)) ==>
              StuckKeys(p.tasks) == {} && NothingStranded(p.tasks, p.queues, p.maxPending)
  {
    hide FrcImagePipeline.Valid, Happens, Load, Possible, Raises, StuckKeys, StuckAfter, StuckByDeparture, StrandsTask, NothingStranded, Asks;
    trace := [StateOf(p)];
    NoneStranded(events, trace);
    for i := 0 to |events|
      invariant p.Valid() && old(p.discardedPending) <= p.discardedPending
      invariant |trace| == i + 1 && trace[0] == old(StateOf(p)) && trace[i] == StateOf(p)
      invariant p.discardedPending - old(p.discardedPending) + Most(Load(p.tasks), p.maxPending)
                <= Most(Load(old(p.tasks)), p.maxPending) + Asked(events, trace, i)
      invariant forall j :: 0 <= j < i ==>
                  if Possible(events[j], trace[j]) then Happens(events[j], trace[j], trace[j + 1]) else trace[j + 1] == trace[j]
      invariant StuckByDeparture(events, trace, i)
    {
      ghost var before := trace;
      if Possible(events[i], StateOf(p)) {
        Handle(p, events[i]);
      }
      StuckStep(events, before, StateOf(p), i);
      AskedEarlier(events, before, StateOf(p), i);
      trace := before + [StateOf(p)];
    }
    AskedAtMost(events, trace, |events|);
    if StuckKeys(old(p.tasks)) == {} && (forall i :: 0 <= i < |events| ==> !StrandsTask(events[i], trace[i].tasks)) {
      NoneStuck(events, trace);
      NobodyStranded(p);
    }
  }

  lemma {:induction false} NoneStranded(events: seq<Event>, trace: seq<State>)
    requires |trace| == 1
    ensures StuckByDeparture(events, trace, 0)
  {
  }

  lemma {:induction false} NoneStuck(events: seq<Event>, trace: seq<State>)
    requires |trace| == |events| + 1 && StuckByDeparture(events, trace, |events|) && StuckKeys(trace[0].tasks) == {}
    requires forall i :: 0 <= i < |events| ==> !StrandsTask(events[i], trace[i].tasks)
    ensures StuckKeys(trace[|events|].tasks) == {}
  {
    hide StuckKeys, StrandsTask;
  }

  // ---- A task that is never removed ----

  /**
   * A download starts, is given up by its queue, and its run comes back before the queue starts it again; then the
   * only subscriber leaves. The task stays, marked downloading, with nothing in flight for it.
   */
  method StrandedDownload() returns (p: FrcImagePipeline)
    ensures p.Valid() && p.maxPending == 1
    ensures "a" in StuckKeys(p.tasks) && p.tasks["a"].state.Downloading?
  {
    hide Resumed, Sound, Spoken, StuckKeys, Waiting;
    p := new FrcImagePipeline(1);
    p.Subscribe("a", Post, Visible, 0, []);
    var slot := Slot(Download, Post, "a");
    assert p.queues.entries[slot] == Entry(true, None);
    p.QueueStarts("a", Post);
    p.QueueAbandons(slot);
    assert p.queues.runs[0] == Run(slot, 0, None, true, false, false);
    assert !Current(p.queues, 0);
    p.DownloadReturns(0, Failure, []);
    var task := p.tasks["a"];
    assert task.subs == map[0 := Visible] && task.order == 0 && task.downloadRun.None? && task.state.Downloading?;
    assert Subscribed(p.tasks, "a", 0, 0);
    assert task.subs.Keys == {0};
    p.Unsubscribe("a", 0, 0, []);
  }
}
