/** The image pipeline's tasks, the queues that run them and the files they own, on values. */
module PipelineState {
  import opened Outcome

  type Key = string
  type Token = nat
  type RunId = nat

  /** A downloaded file waiting for, or being, decoded. */
  type Item = nat

  datatype Lane = Post | Avatar

  datatype Stage = Download | Decode

  datatype Priority = Background | Near | Visible

  function Rank(p: Priority): nat {
    match p
    case Visible => 3
    case Near => 2
    case Background => 1
  }

  datatype TaskState = QueuedDownload | Downloading | WaitingDecode | Decoding | Deferred

  /** `staged` is the task's live stage subscription; `order` tells apart successive tasks of one key. */
  datatype Task = Task(lane: Lane, order: nat, priority: Priority, state: TaskState, subs: map<Token, Priority>,
                       staged: bool, item: Option<Item>, downloadRun: Option<RunId>, decodeRun: Option<RunId>)

  type Tasks = map<Key, Task>

  // ---- The queues, as the pipeline sees them ----

  /** One place in one of the four queues. */
  datatype Slot = Slot(stage: Stage, lane: Lane, key: Key)

  /** What a queue holds for a key: whether the pipeline still subscribes to it, and its current run. */
  datatype Entry = Entry(live: bool, run: Option<RunId>)

  /**
   * A run in flight. It was started for the task with number `order`, a decode with the file `item` (none if the task
   * had none); `pinned` is the queue's uncancellable mark, and a returned run has only its cleanup left.
   */
  datatype Run = Run(slot: Slot, order: nat, item: Option<Item>, aborted: bool, pinned: bool, returned: bool)

  datatype Queues = Queues(entries: map<Slot, Entry>, runs: map<RunId, Run>, nextRun: RunId)

  function SlotOf(k: Key, t: Task): (slot: Slot) {
    Slot(if t.state.WaitingDecode? || t.state.Decoding? then Decode else Download, t.lane, k)
  }

  /** `Current(q, r)`: the run still speaks for its queue entry; an abandoned run does not. */
  predicate Current(q: Queues, r: RunId)
    requires r in q.runs
  {
    q.runs[r].slot in q.entries && q.entries[q.runs[r].slot].run == Some(r)
  }

  predicate Startable(q: Queues, slot: Slot) {
    slot in q.entries && q.entries[slot] == Entry(true, None)
  }

  // ---- Files and subscribers ----

  /** Every file a download returned belongs to the key it was fetched for. */
  datatype Files = Files(owner: map<Item, Key>, discarded: set<Item>)

  datatype Answer = Resolved | Rejected

  datatype Call = Call(token: Token, answer: Answer)

  /** The subscribers ever issued, those that unsubscribed, and the calls made to them, in order. */
  datatype Book = Book(issued: map<Token, Key>, gone: set<Token>, calls: seq<Call>)

  predicate Called(book: Book, token: Token) {
    exists i :: 0 <= i < |book.calls| && book.calls[i].token == token
  }

  // ---- What every reachable state satisfies ----

  /** The highest rank among the subscribers. */
  predicate IsBest(subs: map<Token, Priority>, p: Priority) {
    (exists token :: token in subs && subs[token] == p) && forall token :: token in subs ==> Rank(subs[token]) <= Rank(p)
  }

  /** Only a task whose run is in flight may be unobserved, and a task is staged while it is observed and not deferred. */
  predicate Shaped(t: Task) {
    && (t.subs == map[] ==> t.state.Downloading? || t.state.Decoding?)
    && (t.staged <==> t.subs != map[] && !t.state.Deferred?)
    && (t.subs != map[] ==> IsBest(t.subs, t.priority))
  }

  predicate RunField(k: Key, t: Task, run: Option<RunId>, stage: Stage, q: Queues) {
    run.Some? ==> run.value in q.runs && q.runs[run.value].slot == Slot(stage, t.lane, k) && q.runs[run.value].order == t.order
  }

  predicate TaskLinked(k: Key, t: Task, count: nat, q: Queues) {
    && t.order < count
    && (t.item.Some? ==> t.state.WaitingDecode? || t.state.Decoding?)
    && (t.state.WaitingDecode? ==> t.item.Some?)
    && (t.staged ==> SlotOf(k, t) in q.entries && q.entries[SlotOf(k, t)].live)
    && RunField(k, t, t.downloadRun, Download, q) && RunField(k, t, t.decodeRun, Decode, q)
    && (t.downloadRun.Some? && !t.state.QueuedDownload? && !t.state.Downloading? ==> q.runs[t.downloadRun.value].returned)
    && (t.decodeRun.Some? ==> t.state.Decoding? && q.runs[t.decodeRun.value].item.Some?)
  }

  predicate EntryLinked(slot: Slot, e: Entry, tasks: Tasks, q: Queues) {
    && (e.live ==> slot.key in tasks && tasks[slot.key].staged && SlotOf(slot.key, tasks[slot.key]) == slot)
    && (e.run.None? ==> e.live)
    && (e.run.Some? ==> e.run.value in q.runs && RunLinked(slot, e, e.run.value, q.runs[e.run.value], tasks))
  }

  /** The current run of a queue entry. */
  predicate RunLinked(slot: Slot, e: Entry, r: RunId, run: Run, tasks: Tasks) {
    && run.slot == slot && !run.returned && (!run.aborted ==> e.live || run.pinned)
    && (slot.stage.Download? ==> !run.pinned)
    && (slot.stage.Download? && !run.aborted ==>
          slot.key in tasks && var t := tasks[slot.key]; t.state.Downloading? && t.order == run.order && t.downloadRun == Some(r))
    && (slot.stage.Decode? && run.item.Some? ==>
          slot.key in tasks
          && var t := tasks[slot.key];
             && t.state.Decoding? && t.lane == slot.lane && t.order == run.order && t.decodeRun == Some(r)
             && (t.item.None? || t.item == run.item))
  }

  predicate FlightLinked(r: RunId, run: Run, count: nat, q: Queues) {
    && r < q.nextRun && run.order < count
    && (run.slot.stage.Download? ==> run.item.None?)
    && (!run.aborted && !run.returned ==> run.slot in q.entries && q.entries[run.slot].run == Some(r))
  }

  ghost predicate TasksLinked(tasks: Tasks, count: nat, q: Queues) {
    forall k :: k in tasks ==> TaskLinked(k, tasks[k], count, q)
  }

  ghost predicate AllShaped(tasks: Tasks, loose: set<Key>) {
    forall k :: k in tasks && k !in loose ==> Shaped(tasks[k])
  }

  ghost predicate EntriesLinked(tasks: Tasks, q: Queues) {
    forall slot :: slot in q.entries ==> EntryLinked(slot, q.entries[slot], tasks, q)
  }

  ghost predicate RunsLinked(count: nat, q: Queues) {
    forall r :: r in q.runs ==> FlightLinked(r, q.runs[r], count, q)
  }

  ghost predicate Distinct(tasks: Tasks) {
    forall k, j :: k in tasks && j in tasks && k != j ==> tasks[k].order != tasks[j].order
  }

  /** Tasks, queue entries and runs agree; the task named by `loose` may be between two of its own steps. */
  ghost predicate Linked(tasks: Tasks, count: nat, q: Queues, loose: set<Key>) {
    && TasksLinked(tasks, count, q) && AllShaped(tasks, loose) && EntriesLinked(tasks, q) && RunsLinked(count, q)
    && Distinct(tasks)
  }

  predicate Holds(tasks: Tasks, k: Key, i: Item) {
    k in tasks && tasks[k].item == Some(i)
  }

  /** Every file fetched is held by the task of its key, or discarded; never both, and a decode's file neither lost. */
  ghost predicate Owned(tasks: Tasks, runs: map<RunId, Run>, f: Files) {
    && f.discarded <= f.owner.Keys
    && (forall k :: k in tasks && tasks[k].item.Some? ==>
          tasks[k].item.value in f.owner && f.owner[tasks[k].item.value] == k && tasks[k].item.value !in f.discarded)
    && (forall i :: i in f.owner && i !in f.discarded ==> Holds(tasks, f.owner[i], i))
    && (forall r :: r in runs && runs[r].item.Some? ==>
          runs[r].item.value in f.discarded
          || (Holds(tasks, runs[r].slot.key, runs[r].item.value) && tasks[runs[r].slot.key].order == runs[r].order
              && tasks[runs[r].slot.key].state.Decoding?))
  }

  /** Every subscriber is waiting on the task of its key, has left, or was called; and nobody is called twice. */
  ghost predicate Heard(tasks: Tasks, b: Book) {
    && (forall k, token :: k in tasks && token in tasks[k].subs ==>
          token in b.issued && b.issued[token] == k && token !in b.gone && !Called(b, token))
    && (forall token :: token in b.issued ==>
          (b.issued[token] in tasks && token in tasks[b.issued[token]].subs) || token in b.gone || Called(b, token))
    && (forall i, j :: 0 <= i < j < |b.calls| ==> b.calls[i].token != b.calls[j].token)
    && (forall i :: 0 <= i < |b.calls| ==> b.calls[i].token in b.issued && b.calls[i].token !in b.gone)
    && b.gone <= b.issued.Keys
  }
}
