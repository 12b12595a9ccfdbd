/** The single steps the pipeline and its queues take, and what each keeps. */
module PipelineSteps {
  import opened Outcome
  import opened PipelineState

  // ---- Queue steps ----

  /** A subscription: a new entry, or a place in the one that is there. */
  function Join(q: Queues, slot: Slot): Queues {
    q.(entries := q.entries[slot := Entry(true, if slot in q.entries then q.entries[slot].run else None)])
  }

  /** Dropping the only subscription: a queued entry goes, a running one is aborted unless it is past cancelling. */
  function Leave(q: Queues, slot: Slot): Queues
    requires slot in q.entries && (q.entries[slot].run.Some? ==> q.entries[slot].run.value in q.runs)
  {
    match q.entries[slot].run
    case None => q.(entries := q.entries - {slot})
    case Some(r) => q.(entries := q.entries[slot := Entry(false, Some(r))],
                       runs := if q.runs[r].pinned then q.runs else q.runs[r := q.runs[r].(aborted := true)])
  }

  /** A worker starts on a queued entry. */
  function Begin(q: Queues, slot: Slot, order: nat, item: Option<Item>): Queues {
    q.(entries := q.entries[slot := Entry(true, Some(q.nextRun))],
       runs := q.runs[q.nextRun := Run(slot, order, item, false, false, false)],
       nextRun := q.nextRun + 1)
  }

  /** A run is given up for a more urgent one, or for a pause: its entry is queued again, or gone if nobody waits. */
  function Abandon(q: Queues, slot: Slot): Queues
    requires slot in q.entries && q.entries[slot].run.Some? && q.entries[slot].run.value in q.runs
  {
    var r := q.entries[slot].run.value;
    q.(entries := if q.entries[slot].live then q.entries[slot := Entry(true, None)] else q.entries - {slot},
       runs := q.runs[r := q.runs[r].(aborted := true)])
  }

  function Return(q: Queues, r: RunId): Queues
    requires r in q.runs
  {
    q.(runs := q.runs[r := q.runs[r].(returned := true)])
  }

  /** The current run has returned: its entry is queued again, or dropped. */
  function Requeue(q: Queues, slot: Slot): Queues {
    q.(entries := q.entries[slot := Entry(true, None)])
  }

  function Drop(q: Queues, slot: Slot): Queues {
    q.(entries := q.entries - {slot})
  }

  function Forget(q: Queues, r: RunId): Queues {
    q.(runs := q.runs - {r})
  }

  function Pin(q: Queues, r: RunId): Queues
    requires r in q.runs
  {
    q.(runs := q.runs[r := q.runs[r].(pinned := true)])
  }

  // ---- Links ----

  lemma {:induction false} AddLinked(tasks: Tasks, count: nat, q: Queues, k: Key, t: Task)
    requires Linked(tasks, count, q, {}) && k !in tasks
    requires t.order == count && t.item.None? && !t.staged && t.downloadRun.None? && t.decodeRun.None? && t.state.QueuedDownload?
    ensures Linked(tasks[k := t], count + 1, q, {k})
  {
  }

  // One task replaced, the queues untouched: the parts of `Linked` one by one.

  lemma {:induction false} ReplacedTasks(tasks: Tasks, count: nat, q: Queues, k: Key, t: Task)
    requires TasksLinked(tasks, count, q) && TaskLinked(k, t, count, q)
    ensures TasksLinked(tasks[k := t], count, q)
  {
    hide TaskLinked;
  }

  lemma {:induction false} ReplacedShapes(tasks: Tasks, loose: set<Key>, k: Key, t: Task)
    requires AllShaped(tasks, loose) && Distinct(tasks) && k in tasks && t.order == tasks[k].order
    ensures Distinct(tasks[k := t]) && AllShaped(tasks[k := t], loose + {k})
    ensures Shaped(t) ==> AllShaped(tasks[k := t], loose - {k})
    ensures Shaped(t) ==> AllShaped(tasks[k := t], loose)
  {
    hide Shaped;
  }

  /** Everything a queue entry may ask of its task is still there. */
  predicate Serves(k: Key, t: Task, u: Task) {
    && u.order == t.order && u.lane == t.lane && u.staged == t.staged && (u.staged ==> SlotOf(k, u) == SlotOf(k, t))
    && (t.state.Downloading? ==> u.state.Downloading? && u.downloadRun == t.downloadRun)
    && (t.state.Decoding? ==> u.state.Decoding? && u.decodeRun == t.decodeRun && (u.item.None? || u.item == t.item))
  }

  lemma {:induction false} ReplacedEntries(tasks: Tasks, q: Queues, k: Key, t: Task)
    requires EntriesLinked(tasks, q) && k in tasks && Serves(k, tasks[k], t)
    ensures EntriesLinked(tasks[k := t], q)
  {
    forall slot | slot in q.entries
      ensures EntryLinked(slot, q.entries[slot], tasks[k := t], q)
    {
      assert EntryLinked(slot, q.entries[slot], tasks, q);
    }
  }

  /** Subscribers and priority are no part of the links. */
  lemma {:induction false} SubsLinked(tasks: Tasks, count: nat, q: Queues, loose: set<Key>, k: Key, t: Task)
    requires Linked(tasks, count, q, loose) && k in tasks
    requires t == tasks[k].(subs := t.subs, priority := t.priority)
    ensures Linked(tasks[k := t], count, q, loose + {k})
    ensures Shaped(t) ==> Linked(tasks[k := t], count, q, loose - {k})
  {
    assert TaskLinked(k, tasks[k], count, q);
    ReplacedTasks(tasks, count, q, k, t);
    ReplacedEntries(tasks, q, k, t);
    ReplacedShapes(tasks, loose, k, t);
    hide TasksLinked, EntriesLinked, RunsLinked, AllShaped, Shaped, Distinct;
  }

  lemma {:induction false} TightenLinked(tasks: Tasks, count: nat, q: Queues, loose: set<Key>, k: Key)
    requires Linked(tasks, count, q, loose) && (k in tasks ==> Shaped(tasks[k]))
    ensures Linked(tasks, count, q, loose - {k})
  {
  }

  lemma {:induction false} StagedTasks(tasks: Tasks, count: nat, q: Queues, k: Key, t: Task, slot: Slot)
    requires TasksLinked(tasks, count, q) && EntriesLinked(tasks, q) && k in tasks && !tasks[k].staged
    requires t == tasks[k].(state := t.state, staged := true) && slot == SlotOf(k, t)
    requires t.state == tasks[k].state
             || (t.state.QueuedDownload? && !tasks[k].state.WaitingDecode? && !tasks[k].state.Decoding?)
    ensures TasksLinked(tasks[k := t], count, Join(q, slot))
  {
    hide EntryLinked, FlightLinked, Shaped, IsBest;
  }

  lemma {:induction false} StagedEntries(tasks: Tasks, count: nat, q: Queues, k: Key, t: Task, slot: Slot)
    requires TasksLinked(tasks, count, q) && EntriesLinked(tasks, q) && k in tasks && !tasks[k].staged
    requires t == tasks[k].(state := t.state, staged := true) && slot == SlotOf(k, t)
    requires t.state == tasks[k].state
             || (t.state.QueuedDownload? && !tasks[k].state.WaitingDecode? && !tasks[k].state.Decoding?)
    ensures EntriesLinked(tasks[k := t], Join(q, slot))
  {
    hide TaskLinked, FlightLinked, Shaped, IsBest;
    forall place | place in Join(q, slot).entries
      ensures EntryLinked(place, Join(q, slot).entries[place], tasks[k := t], Join(q, slot))
    {
      assert place in q.entries ==> EntryLinked(place, q.entries[place], tasks, q);
    }
  }

  /** Staging an unstaged task: only its own slot is touched. */
  lemma {:induction false} StagedLinked(tasks: Tasks, count: nat, q: Queues, loose: set<Key>, k: Key, t: Task, slot: Slot)
    requires Linked(tasks, count, q, loose) && k in tasks && !tasks[k].staged
    requires t == tasks[k].(state := t.state, staged := true) && Shaped(t) && slot == SlotOf(k, t)
    requires t.state == tasks[k].state
             || (t.state.QueuedDownload? && !tasks[k].state.WaitingDecode? && !tasks[k].state.Decoding?)
    ensures Linked(tasks[k := t], count, Join(q, slot), loose - {k})
  {
    StagedTasks(tasks, count, q, k, t, slot);
    StagedEntries(tasks, count, q, k, t, slot);
    JoinedRuns(count, q, slot);
    ReplacedShapes(tasks, loose, k, t);
    hide TasksLinked, EntriesLinked, RunsLinked, AllShaped, Shaped, Distinct;
  }

  lemma {:induction false} JoinedRuns(count: nat, q: Queues, slot: Slot)
    requires RunsLinked(count, q)
    ensures RunsLinked(count, Join(q, slot))
  {
  }

  lemma {:induction false} LeaveTasks(tasks: Tasks, count: nat, q: Queues, k: Key, slot: Slot)
    requires TasksLinked(tasks, count, q) && EntriesLinked(tasks, q) && RunsLinked(count, q)
    requires k in tasks && tasks[k].staged && slot == SlotOf(k, tasks[k]) && slot in q.entries
    requires q.entries[slot].run.Some? ==> q.entries[slot].run.value in q.runs
    ensures TasksLinked(tasks[k := tasks[k].(staged := false)], count, Leave(q, slot))
  {
    hide FlightLinked, Shaped, IsBest;
  }

  lemma {:induction false} LeaveEntries(tasks: Tasks, count: nat, q: Queues, k: Key, slot: Slot)
    requires TasksLinked(tasks, count, q) && EntriesLinked(tasks, q) && RunsLinked(count, q)
    requires k in tasks && tasks[k].staged && slot == SlotOf(k, tasks[k]) && slot in q.entries
    requires q.entries[slot].run.Some? ==> q.entries[slot].run.value in q.runs
    ensures EntriesLinked(tasks[k := tasks[k].(staged := false)], Leave(q, slot))
  {
    hide Shaped, IsBest;
  }

  lemma {:induction false} LeaveRuns(tasks: Tasks, count: nat, q: Queues, k: Key, slot: Slot)
    requires TasksLinked(tasks, count, q) && EntriesLinked(tasks, q) && RunsLinked(count, q)
    requires k in tasks && tasks[k].staged && slot == SlotOf(k, tasks[k]) && slot in q.entries
    requires q.entries[slot].run.Some? ==> q.entries[slot].run.value in q.runs
    ensures RunsLinked(count, Leave(q, slot))
  {
    hide Shaped, IsBest, RunField;
  }

  lemma {:induction false} LeaveLinked(tasks: Tasks, count: nat, q: Queues, loose: set<Key>, k: Key)
    requires Linked(tasks, count, q, loose) && k in tasks && tasks[k].staged
    ensures SlotOf(k, tasks[k]) in q.entries
    ensures var e := q.entries[SlotOf(k, tasks[k])]; e.run.Some? ==> e.run.value in q.runs
    ensures Linked(tasks[k := tasks[k].(staged := false)], count, Leave(q, SlotOf(k, tasks[k])), loose + {k})
  {
    var slot := SlotOf(k, tasks[k]);
    assert TaskLinked(k, tasks[k], count, q);
    assert EntryLinked(slot, q.entries[slot], tasks, q);
    hide TasksLinked, EntriesLinked, RunsLinked, Leave, Shaped;
    LeaveTasks(tasks, count, q, k, slot);
    LeaveEntries(tasks, count, q, k, slot);
    LeaveRuns(tasks, count, q, k, slot);
  }

  lemma {:induction false} BeginDownloadTasks(tasks: Tasks, count: nat, q: Queues, k: Key, slot: Slot)
    requires TasksLinked(tasks, count, q) && EntriesLinked(tasks, q) && RunsLinked(count, q)
    requires k in tasks && slot == Slot(Download, tasks[k].lane, k) && slot == SlotOf(k, tasks[k]) && Startable(q, slot)
    requires tasks[k].staged && (tasks[k].state.QueuedDownload? || tasks[k].state.Downloading?)
    ensures TasksLinked(tasks[k := tasks[k].(state := Downloading, downloadRun := Some(q.nextRun))], count, Begin(q, slot, tasks[k].order, None))
  {
    assert q.nextRun !in q.runs;
    hide FlightLinked, Shaped, IsBest;
  }

  lemma {:induction false} BeginDownloadEntries(tasks: Tasks, count: nat, q: Queues, k: Key, slot: Slot)
    requires TasksLinked(tasks, count, q) && EntriesLinked(tasks, q) && RunsLinked(count, q)
    requires k in tasks && slot == Slot(Download, tasks[k].lane, k) && slot == SlotOf(k, tasks[k]) && Startable(q, slot)
    requires tasks[k].staged && (tasks[k].state.QueuedDownload? || tasks[k].state.Downloading?)
    ensures EntriesLinked(tasks[k := tasks[k].(state := Downloading, downloadRun := Some(q.nextRun))], Begin(q, slot, tasks[k].order, None))
  {
    hide Shaped, IsBest;
  }

  lemma {:induction false} BeginDownloadRuns(tasks: Tasks, count: nat, q: Queues, k: Key, slot: Slot)
    requires TasksLinked(tasks, count, q) && EntriesLinked(tasks, q) && RunsLinked(count, q)
    requires k in tasks && slot == Slot(Download, tasks[k].lane, k) && slot == SlotOf(k, tasks[k]) && Startable(q, slot)
    requires tasks[k].staged && (tasks[k].state.QueuedDownload? || tasks[k].state.Downloading?)
    ensures RunsLinked(count, Begin(q, slot, tasks[k].order, None))
  {
    hide Shaped, IsBest, RunField;
  }

  lemma {:induction false} BeginDownloadLinked(tasks: Tasks, count: nat, q: Queues, k: Key)
    requires Linked(tasks, count, q, {}) && k in tasks && Startable(q, Slot(Download, tasks[k].lane, k))
    ensures !tasks[k].state.WaitingDecode? && !tasks[k].state.Decoding? && !tasks[k].state.Deferred? && tasks[k].staged
    ensures var t := tasks[k].(state := Downloading, downloadRun := Some(q.nextRun));
            Linked(tasks[k := t], count, Begin(q, Slot(Download, t.lane, k), t.order, None), {})
  {
    var slot := Slot(Download, tasks[k].lane, k);
    assert EntryLinked(slot, q.entries[slot], tasks, q);
    assert TaskLinked(k, tasks[k], count, q);
    assert Shaped(tasks[k]);
    hide TasksLinked, EntriesLinked, RunsLinked, Begin, IsBest;
    BeginDownloadTasks(tasks, count, q, k, slot);
    BeginDownloadEntries(tasks, count, q, k, slot);
    BeginDownloadRuns(tasks, count, q, k, slot);
  }

  lemma {:induction false} BeginDecodeTasks(tasks: Tasks, count: nat, q: Queues, k: Key, slot: Slot)
    requires TasksLinked(tasks, count, q) && EntriesLinked(tasks, q) && RunsLinked(count, q)
    requires k in tasks && slot == Slot(Decode, tasks[k].lane, k) && slot == SlotOf(k, tasks[k]) && Startable(q, slot)
    requires tasks[k].staged && tasks[k].item.Some?
    ensures TasksLinked(tasks[k := tasks[k].(state := Decoding, decodeRun := Some(q.nextRun))], count, Begin(q, slot, tasks[k].order, tasks[k].item))
  {
    assert q.nextRun !in q.runs;
    hide FlightLinked, Shaped, IsBest;
  }

  lemma {:induction false} BeginDecodeEntries(tasks: Tasks, count: nat, q: Queues, k: Key, slot: Slot)
    requires TasksLinked(tasks, count, q) && EntriesLinked(tasks, q) && RunsLinked(count, q)
    requires k in tasks && slot == Slot(Decode, tasks[k].lane, k) && slot == SlotOf(k, tasks[k]) && Startable(q, slot)
    requires tasks[k].staged && tasks[k].item.Some?
    ensures EntriesLinked(tasks[k := tasks[k].(state := Decoding, decodeRun := Some(q.nextRun))], Begin(q, slot, tasks[k].order, tasks[k].item))
  {
    hide Shaped, IsBest;
  }

  lemma {:induction false} BeginDecodeRuns(tasks: Tasks, count: nat, q: Queues, k: Key, slot: Slot)
    requires TasksLinked(tasks, count, q) && EntriesLinked(tasks, q) && RunsLinked(count, q)
    requires k in tasks && slot == Slot(Decode, tasks[k].lane, k) && slot == SlotOf(k, tasks[k]) && Startable(q, slot)
    requires tasks[k].staged && tasks[k].item.Some?
    ensures RunsLinked(count, Begin(q, slot, tasks[k].order, tasks[k].item))
  {
    hide Shaped, IsBest, RunField;
  }

  lemma {:induction false} BeginEmptyTasks(tasks: Tasks, count: nat, q: Queues, k: Key, slot: Slot)
    requires TasksLinked(tasks, count, q) && EntriesLinked(tasks, q) && RunsLinked(count, q)
    requires k in tasks && slot == Slot(Decode, tasks[k].lane, k) && slot == SlotOf(k, tasks[k]) && Startable(q, slot)
    requires tasks[k].staged && tasks[k].item.None?
    ensures TasksLinked(tasks, count, Begin(q, slot, tasks[k].order, None))
  {
    assert q.nextRun !in q.runs;
    hide FlightLinked, Shaped, IsBest;
  }

  lemma {:induction false} BeginEmptyEntries(tasks: Tasks, count: nat, q: Queues, k: Key, slot: Slot)
    requires TasksLinked(tasks, count, q) && EntriesLinked(tasks, q) && RunsLinked(count, q)
    requires k in tasks && slot == Slot(Decode, tasks[k].lane, k) && slot == SlotOf(k, tasks[k]) && Startable(q, slot)
    requires tasks[k].staged && tasks[k].item.None?
    ensures EntriesLinked(tasks, Begin(q, slot, tasks[k].order, None))
  {
    hide Shaped, IsBest;
  }

  lemma {:induction false} BeginEmptyRuns(tasks: Tasks, count: nat, q: Queues, k: Key, slot: Slot)
    requires TasksLinked(tasks, count, q) && EntriesLinked(tasks, q) && RunsLinked(count, q)
    requires k in tasks && slot == Slot(Decode, tasks[k].lane, k) && slot == SlotOf(k, tasks[k]) && Startable(q, slot)
    requires tasks[k].staged && tasks[k].item.None?
    ensures RunsLinked(count, Begin(q, slot, tasks[k].order, None))
  {
    hide Shaped, IsBest, RunField;
  }

  lemma {:induction false} BeginDecodeLinked(tasks: Tasks, count: nat, q: Queues, k: Key)
    requires Linked(tasks, count, q, {}) && k in tasks && Startable(q, Slot(Decode, tasks[k].lane, k))
    ensures (tasks[k].state.WaitingDecode? || tasks[k].state.Decoding?) && tasks[k].staged
    ensures tasks[k].item.None? ==> Linked(tasks, count, Begin(q, Slot(Decode, tasks[k].lane, k), tasks[k].order, None), {})
    ensures tasks[k].item.Some? ==>
              var t := tasks[k].(state := Decoding, decodeRun := Some(q.nextRun));
              Linked(tasks[k := t], count, Begin(q, Slot(Decode, t.lane, k), t.order, t.item), {})
  {
    var slot := Slot(Decode, tasks[k].lane, k);
    assert EntryLinked(slot, q.entries[slot], tasks, q);
    assert TaskLinked(k, tasks[k], count, q);
    assert Shaped(tasks[k]);
    hide TasksLinked, EntriesLinked, RunsLinked, Begin, IsBest;
    if tasks[k].item.Some? {
      BeginDecodeTasks(tasks, count, q, k, slot);
      BeginDecodeEntries(tasks, count, q, k, slot);
      BeginDecodeRuns(tasks, count, q, k, slot);
    } else {
      BeginEmptyTasks(tasks, count, q, k, slot);
      BeginEmptyEntries(tasks, count, q, k, slot);
      BeginEmptyRuns(tasks, count, q, k, slot);
    }
  }

  lemma {:induction false} AbandonLinked(tasks: Tasks, count: nat, q: Queues, loose: set<Key>, slot: Slot)
    requires Linked(tasks, count, q, loose) && slot in q.entries && q.entries[slot].run.Some?
    ensures q.entries[slot].run.value in q.runs && Linked(tasks, count, Abandon(q, slot), loose)
  {
    assert EntryLinked(slot, q.entries[slot], tasks, q);
    hide Shaped, IsBest;
    var (tasks', q') := (tasks, Abandon(q, slot));
    forall j | j in tasks'
      ensures TaskLinked(j, tasks'[j], count, q')
    {
      hide EntryLinked, FlightLinked;
      assert TaskLinked(j, tasks[j], count, q);
    }
    forall place | place in q'.entries
      ensures EntryLinked(place, q'.entries[place], tasks', q')
    {
      hide FlightLinked, RunField;
      assert EntryLinked(place, q.entries[place], tasks, q);
    }
    forall r | r in q'.runs
      ensures FlightLinked(r, q'.runs[r], count, q')
    {
      hide TaskLinked, Shaped;
      assert r in q.runs ==> FlightLinked(r, q.runs[r], count, q);
    }
  }

  lemma {:induction false} PinLinked(tasks: Tasks, count: nat, q: Queues, r: RunId)
    requires Linked(tasks, count, q, {}) && r in q.runs && q.runs[r].slot.stage.Decode?
    ensures Linked(tasks, count, Pin(q, r), {})
  {
    hide Shaped, IsBest;
  }

  /** A run that no longer speaks for its entry returns. */
  lemma {:induction false} StrayReturnLinked(tasks: Tasks, count: nat, q: Queues, r: RunId)
    requires Linked(tasks, count, q, {}) && r in q.runs && !Current(q, r)
    ensures Linked(tasks, count, Return(q, r), {})
  {
  }

  lemma {:induction false} RequeueLinked(tasks: Tasks, count: nat, q: Queues, r: RunId)
    requires Linked(tasks, count, q, {}) && r in q.runs && Current(q, r) && q.entries[q.runs[r].slot].live
    ensures Linked(tasks, count, Requeue(Return(q, r), q.runs[r].slot), {})
  {
    hide Shaped, IsBest;
    RequeueTasks(tasks, count, q, r);
    RequeueEntries(tasks, count, q, r);
    RequeueRuns(tasks, count, q, r);
    hide TasksLinked, EntriesLinked, RunsLinked, Distinct;
  }

  lemma {:induction false} RequeueTasks(tasks: Tasks, count: nat, q: Queues, r: RunId)
    requires TasksLinked(tasks, count, q) && r in q.runs && Current(q, r) && q.entries[q.runs[r].slot].live
    ensures TasksLinked(tasks, count, Requeue(Return(q, r), q.runs[r].slot))
  {
    hide FlightLinked, Shaped, IsBest;
  }

  lemma {:induction false} RequeueEntries(tasks: Tasks, count: nat, q: Queues, r: RunId)
    requires EntriesLinked(tasks, q) && r in q.runs && Current(q, r) && q.entries[q.runs[r].slot].live
    ensures EntriesLinked(tasks, Requeue(Return(q, r), q.runs[r].slot))
  {
    hide FlightLinked, Shaped, IsBest, RunField;
  }

  lemma {:induction false} RequeueRuns(tasks: Tasks, count: nat, q: Queues, r: RunId)
    requires RunsLinked(count, q) && EntriesLinked(tasks, q) && r in q.runs && Current(q, r) && q.entries[q.runs[r].slot].live
    ensures RunsLinked(count, Requeue(Return(q, r), q.runs[r].slot))
  {
    hide Shaped, IsBest, RunField, TaskLinked;
  }

  /** The current run of an entry nobody subscribes to returns. */
  lemma {:induction false} IdleDropLinked(tasks: Tasks, count: nat, q: Queues, r: RunId)
    requires Linked(tasks, count, q, {}) && r in q.runs && Current(q, r) && !q.entries[q.runs[r].slot].live
    ensures Linked(tasks, count, Drop(Return(q, r), q.runs[r].slot), {})
  {
    hide Shaped, IsBest;
    IdleDropTasks(tasks, count, q, r);
    IdleDropEntries(tasks, count, q, r);
    IdleDropRuns(tasks, count, q, r);
    hide TasksLinked, EntriesLinked, RunsLinked, Distinct;
  }

  lemma {:induction false} IdleDropTasks(tasks: Tasks, count: nat, q: Queues, r: RunId)
    requires TasksLinked(tasks, count, q) && r in q.runs && Current(q, r) && !q.entries[q.runs[r].slot].live
    ensures TasksLinked(tasks, count, Drop(Return(q, r), q.runs[r].slot))
  {
    hide FlightLinked, Shaped, IsBest;
  }

  lemma {:induction false} IdleDropEntries(tasks: Tasks, count: nat, q: Queues, r: RunId)
    requires EntriesLinked(tasks, q) && r in q.runs && Current(q, r) && !q.entries[q.runs[r].slot].live
    ensures EntriesLinked(tasks, Drop(Return(q, r), q.runs[r].slot))
  {
    hide FlightLinked, Shaped, IsBest, RunField;
  }

  lemma {:induction false} IdleDropRuns(tasks: Tasks, count: nat, q: Queues, r: RunId)
    requires RunsLinked(count, q) && EntriesLinked(tasks, q) && r in q.runs && Current(q, r) && !q.entries[q.runs[r].slot].live
    ensures RunsLinked(count, Drop(Return(q, r), q.runs[r].slot))
  {
    hide Shaped, IsBest, RunField, TaskLinked;
  }

  lemma {:induction false} DeliverTasks(tasks: Tasks, count: nat, q: Queues, r: RunId, k: Key, slot: Slot)
    requires TasksLinked(tasks, count, q) && EntriesLinked(tasks, q) && RunsLinked(count, q)
    requires r in q.runs && slot == q.runs[r].slot && slot in q.entries && q.entries[slot] == Entry(true, Some(r))
    requires k == slot.key && k in tasks && tasks[k].staged && SlotOf(k, tasks[k]) == slot
    ensures TasksLinked(tasks[k := tasks[k].(staged := false)], count, Drop(Return(q, r), slot))
  {
    hide FlightLinked, Shaped, IsBest;
  }

  lemma {:induction false} DeliverEntries(tasks: Tasks, count: nat, q: Queues, r: RunId, k: Key, slot: Slot)
    requires TasksLinked(tasks, count, q) && EntriesLinked(tasks, q) && RunsLinked(count, q)
    requires r in q.runs && slot == q.runs[r].slot && slot in q.entries && q.entries[slot] == Entry(true, Some(r))
    requires k == slot.key && k in tasks && tasks[k].staged && SlotOf(k, tasks[k]) == slot
    ensures EntriesLinked(tasks[k := tasks[k].(staged := false)], Drop(Return(q, r), slot))
  {
    hide Shaped, IsBest;
  }

  lemma {:induction false} DeliverRuns(tasks: Tasks, count: nat, q: Queues, r: RunId, k: Key, slot: Slot)
    requires TasksLinked(tasks, count, q) && EntriesLinked(tasks, q) && RunsLinked(count, q)
    requires r in q.runs && slot == q.runs[r].slot && slot in q.entries && q.entries[slot] == Entry(true, Some(r))
    requires k == slot.key && k in tasks && tasks[k].staged && SlotOf(k, tasks[k]) == slot
    ensures RunsLinked(count, Drop(Return(q, r), slot))
  {
    hide Shaped, IsBest, RunField;
  }

  /** The current run returns to the task that subscribes to it, whose stage subscription is thereby spent. */
  lemma {:induction false} DeliverLinked(tasks: Tasks, count: nat, q: Queues, r: RunId)
    requires Linked(tasks, count, q, {}) && r in q.runs && Current(q, r) && q.entries[q.runs[r].slot].live
    ensures var (k, slot) := (q.runs[r].slot.key, q.runs[r].slot);
            && k in tasks && tasks[k].staged && SlotOf(k, tasks[k]) == slot
            && Linked(tasks[k := tasks[k].(staged := false)], count, Drop(Return(q, r), slot), {k})
  {
    var slot := q.runs[r].slot;
    assert EntryLinked(slot, q.entries[slot], tasks, q);
    hide TasksLinked, EntriesLinked, RunsLinked, Drop, Return, Shaped;
    DeliverTasks(tasks, count, q, r, slot.key, slot);
    DeliverEntries(tasks, count, q, r, slot.key, slot);
    DeliverRuns(tasks, count, q, r, slot.key, slot);
  }

  lemma {:induction false} ForgetLinked(tasks: Tasks, count: nat, q: Queues, r: RunId)
    requires Linked(tasks, count, q, {}) && r in q.runs && q.runs[r].returned
    requires forall k :: k in tasks ==> tasks[k].downloadRun != Some(r) && tasks[k].decodeRun != Some(r)
    ensures Linked(tasks, count, Forget(q, r), {})
  {
  }

  lemma {:induction false} ClearedShape(t: Task, u: Task)
    requires u == t.(downloadRun := None) || u == t.(decodeRun := None)
    ensures Shaped(t) ==> Shaped(u)
  {
  }

  lemma {:induction false} ClearEntries(tasks: Tasks, q: Queues, r: RunId, k: Key, t: Task)
    requires EntriesLinked(tasks, q) && r in q.runs && q.runs[r].returned && k in tasks
    requires (t == tasks[k].(downloadRun := None) && tasks[k].downloadRun == Some(r))
          || (t == tasks[k].(decodeRun := None) && tasks[k].decodeRun == Some(r))
    ensures EntriesLinked(tasks[k := t], q)
  {
    forall slot | slot in q.entries
      ensures EntryLinked(slot, q.entries[slot], tasks[k := t], q)
    {
      assert EntryLinked(slot, q.entries[slot], tasks, q);
    }
  }

  /** Clearing the field of a run that has returned. */
  lemma {:induction false} ClearRunLinked(tasks: Tasks, count: nat, q: Queues, r: RunId, k: Key, t: Task)
    requires Linked(tasks, count, q, {}) && r in q.runs && q.runs[r].returned && k in tasks
    requires (t == tasks[k].(downloadRun := None) && tasks[k].downloadRun == Some(r))
          || (t == tasks[k].(decodeRun := None) && tasks[k].decodeRun == Some(r))
    ensures Linked(tasks[k := t], count, q, {})
  {
    assert TaskLinked(k, tasks[k], count, q);
    ReplacedTasks(tasks, count, q, k, t);
    ClearEntries(tasks, q, r, k, t);
    ClearedShape(tasks[k], t);
    LooseAnyway(tasks, {}, k, t);
    ReplacedShapes(tasks, {}, k, t);
    hide TasksLinked, EntriesLinked, RunsLinked, AllShaped, Shaped, Distinct;
  }

  /** A task that no live entry and no decode of its own file refers to can go. */
  lemma {:induction false} RemoveLinked(tasks: Tasks, count: nat, q: Queues, loose: set<Key>, k: Key)
    requires Linked(tasks, count, q, loose) && k in tasks && !tasks[k].staged
    requires var slot := Slot(Decode, tasks[k].lane, k);
             slot in q.entries && q.entries[slot].run.Some? ==>
               q.entries[slot].run.value in q.runs && q.runs[q.entries[slot].run.value].item.None?
    ensures Linked(tasks - {k}, count, q, loose - {k})
  {
    hide Shaped;
  }

  lemma {:induction false} WaitEntries(tasks: Tasks, q: Queues, k: Key, t: Task)
    requires EntriesLinked(tasks, q) && k in tasks && !tasks[k].staged && tasks[k].decodeRun.None?
    requires t == tasks[k].(item := t.item, state := WaitingDecode)
    ensures EntriesLinked(tasks[k := t], q)
  {
    forall slot | slot in q.entries
      ensures EntryLinked(slot, q.entries[slot], tasks[k := t], q)
    {
      assert EntryLinked(slot, q.entries[slot], tasks, q);
    }
  }

  /** Waiting for a decode with a downloaded file. */
  lemma {:induction false} WaitLinked(tasks: Tasks, count: nat, q: Queues, k: Key, i: Item)
    requires Linked(tasks, count, q, {k}) && k in tasks && !tasks[k].staged
    requires tasks[k].downloadRun.Some? ==> q.runs[tasks[k].downloadRun.value].returned
    requires tasks[k].decodeRun.None?
    ensures Linked(tasks[k := tasks[k].(item := Some(i), state := WaitingDecode)], count, q, {k})
  {
    var t := tasks[k].(item := Some(i), state := WaitingDecode);
    assert TaskLinked(k, tasks[k], count, q);
    ReplacedTasks(tasks, count, q, k, t);
    ReplacedShapes(tasks, {k}, k, t);
    assert {k} + {k} == {k};
    WaitEntries(tasks, q, k, t);
    hide TasksLinked, EntriesLinked, RunsLinked, AllShaped, Shaped, Distinct;
  }

  /** Giving up a waiting file: the task is deferred. */
  lemma {:induction false} DeferLinked(tasks: Tasks, count: nat, q: Queues, k: Key)
    requires Linked(tasks, count, q, {k}) && k in tasks && !tasks[k].staged && tasks[k].state.WaitingDecode?
    requires tasks[k].subs != map[] && IsBest(tasks[k].subs, tasks[k].priority)
    ensures Linked(tasks[k := tasks[k].(item := None, state := Deferred)], count, q, {})
  {
  }

  lemma {:induction false} LostShape(t: Task, u: Task)
    requires u == t.(item := None)
    ensures Shaped(t) ==> Shaped(u)
  {
  }

  lemma {:induction false} LooseAnyway(tasks: Tasks, loose: set<Key>, k: Key, t: Task)
    requires AllShaped(tasks, loose) && k in tasks && (Shaped(tasks[k]) ==> Shaped(t))
    ensures AllShaped(tasks[k := t], loose)
  {
    hide Shaped;
  }

  /** Losing the file: a decoding task may go on without one. */
  lemma {:induction false} LoseLinked(tasks: Tasks, count: nat, q: Queues, loose: set<Key>, k: Key)
    requires Linked(tasks, count, q, loose) && k in tasks && tasks[k].state.Decoding?
    ensures Linked(tasks[k := tasks[k].(item := None)], count, q, loose)
  {
    var t := tasks[k].(item := None);
    assert TaskLinked(k, tasks[k], count, q);
    ReplacedTasks(tasks, count, q, k, t);
    ReplacedEntries(tasks, q, k, t);
    LostShape(tasks[k], t);
    ReplacedShapes(tasks, loose, k, t);
    LooseAnyway(tasks, loose, k, t);
    hide TasksLinked, EntriesLinked, RunsLinked, AllShaped, Shaped, Distinct;
  }

  // ---- Files ----

  /** Steps that move no file: runs may begin on files held, and end. */
  lemma {:induction false} OwnedSame(a: Tasks, b: Tasks, before: map<RunId, Run>, after: map<RunId, Run>, f: Files)
    requires Owned(a, before, f) && a.Keys == b.Keys
    requires forall k :: k in a ==>
               b[k].item == a[k].item && b[k].order == a[k].order && (a[k].state.Decoding? ==> b[k].state.Decoding?)
    requires forall r :: r in after && after[r].item.Some? ==>
               (r in before && after[r].slot == before[r].slot && after[r].item == before[r].item && after[r].order == before[r].order)
               || (after[r].slot.key in a && a[after[r].slot.key].item == after[r].item
                   && a[after[r].slot.key].order == after[r].order && b[after[r].slot.key].state.Decoding?)
    ensures Owned(b, after, f)
  {
  }

  lemma {:induction false} OwnedAdd(a: Tasks, runs: map<RunId, Run>, f: Files, k: Key, t: Task)
    requires Owned(a, runs, f) && k !in a && t.item.None?
    ensures Owned(a[k := t], runs, f)
  {
  }

  lemma {:induction false} OwnedRemove(a: Tasks, runs: map<RunId, Run>, f: Files, k: Key)
    requires Owned(a, runs, f) && k in a && a[k].item.None?
    ensures Owned(a - {k}, runs, f)
  {
  }

  /** A fetched file is kept by its task. */
  lemma {:induction false} OwnedTake(a: Tasks, runs: map<RunId, Run>, f: Files, k: Key, i: Item, t: Task)
    requires Owned(a, runs, f) && k in a && a[k].item.None? && i !in f.owner
    requires t == a[k].(item := Some(i), state := t.state)
    ensures Owned(a[k := t], runs, Files(f.owner[i := k], f.discarded))
  {
  }

  /** A fetched file nobody waits for. */
  lemma {:induction false} OwnedDrop(a: Tasks, runs: map<RunId, Run>, f: Files, k: Key, i: Item)
    requires Owned(a, runs, f) && i !in f.owner
    ensures Owned(a, runs, Files(f.owner[i := k], f.discarded + {i}))
  {
  }

  /** A task gives its file up for deletion. */
  lemma {:induction false} OwnedDiscard(a: Tasks, runs: map<RunId, Run>, f: Files, k: Key, t: Task)
    requires Owned(a, runs, f) && k in a && a[k].item.Some? && t.item.None? && t.order == a[k].order
    ensures Owned(a[k := t], runs, Files(f.owner, f.discarded + {a[k].item.value}))
  {
    var i := a[k].item.value;
    assert f.owner[i] == k;
    forall j | j in a && j != k && a[j].item.Some?
      ensures a[j].item.value != i
    {
      assert f.owner[a[j].item.value] == j;
    }
  }

  /** A decode's file is gone already, or still with the task the decode was started for. */
  lemma {:induction false} DecodeHolds(a: Tasks, runs: map<RunId, Run>, f: Files, r: RunId)
    requires Owned(a, runs, f) && r in runs && runs[r].item.Some?
    ensures var (k, i) := (runs[r].slot.key, runs[r].item.value);
            && i in f.owner
            && (i !in f.discarded <==> k in a && a[k].order == runs[r].order && a[k].item == Some(i))
            && (i !in f.discarded ==> a[k].state.Decoding?)
  {
  }

  // ---- Subscribers ----

  lemma {:induction false} HeardSame(a: Tasks, b: Tasks, book: Book)
    requires Heard(a, book) && a.Keys == b.Keys && forall k :: k in a ==> b[k].subs == a[k].subs
    ensures Heard(b, book)
  {
    hide Called;
  }

  lemma {:induction false} HeardSubscribe(a: Tasks, book: Book, k: Key, t: Task, token: Token, p: Priority)
    requires Heard(a, book) && token !in book.issued
    requires t.subs == (if k in a then a[k].subs else map[])[token := p]
    ensures Heard(a[k := t], book.(issued := book.issued[token := k]))
  {
    var b := book.(issued := book.issued[token := k]);
    assert forall other :: Called(b, other) == Called(book, other);
    assert !Called(b, token);
    assert token !in book.gone;
    hide Called;
  }

  lemma {:induction false} HeardLeave(a: Tasks, book: Book, k: Key, t: Task, token: Token)
    requires Heard(a, book) && k in a && token in a[k].subs && t.subs == a[k].subs - {token}
    ensures Heard(a[k := t], book.(gone := book.gone + {token}))
  {
    var b := book.(gone := book.gone + {token});
    assert forall other :: Called(b, other) == Called(book, other);
    assert !Called(book, token);
    assert forall i :: 0 <= i < |book.calls| ==> book.calls[i].token != token;
    hide Called;
  }

  /** One call to each of `tokens`. */
  ghost predicate CallsAll(calls: seq<Call>, tokens: set<Token>, answer: Answer) {
    && (forall i :: 0 <= i < |calls| ==> calls[i].token in tokens && calls[i].answer == answer)
    && (forall i, j :: 0 <= i < j < |calls| ==> calls[i].token != calls[j].token)
    && (forall token :: token in tokens ==> exists i :: 0 <= i < |calls| && calls[i].token == token)
  }

  /** A finished task answers each of its subscribers once. */
  lemma {:induction false} HeardAnswer(a: Tasks, book: Book, k: Key, calls: seq<Call>, answer: Answer)
    requires Heard(a, book) && k in a && CallsAll(calls, a[k].subs.Keys, answer)
    ensures Heard(a - {k}, book.(calls := book.calls + calls))
  {
    var b := book.(calls := book.calls + calls);
    forall token
      ensures Called(b, token) <==> Called(book, token) || token in a[k].subs
    {
      CalledMore(book, calls, token);
    }
    CallsStayDistinct(a, book, k, calls, answer);
    HeardRest(a, book, b, k);
    hide Called, CallsAll;
  }

  /** The subscribers of the other tasks still wait, and those of this one have been called. */
  lemma {:induction false} HeardRest(a: Tasks, book: Book, b: Book, k: Key)
    requires Heard(a, book) && k in a && b.issued == book.issued && b.gone == book.gone
    requires forall token :: Called(b, token) <==> Called(book, token) || token in a[k].subs
    ensures forall j, token :: j in a - {k} && token in a[j].subs ==>
              token in b.issued && b.issued[token] == j && token !in b.gone && !Called(b, token)
    ensures forall token :: token in b.issued ==>
              (b.issued[token] in a - {k} && token in a[b.issued[token]].subs) || token in b.gone || Called(b, token)
  {
    hide Called;
  }

  lemma {:induction false} CallsStayDistinct(a: Tasks, book: Book, k: Key, calls: seq<Call>, answer: Answer)
    requires Heard(a, book) && k in a && CallsAll(calls, a[k].subs.Keys, answer)
    ensures var all := book.calls + calls;
            && (forall i, j :: 0 <= i < j < |all| ==> all[i].token != all[j].token)
            && (forall i :: 0 <= i < |all| ==> all[i].token in book.issued && all[i].token !in book.gone)
  {
    var (all, n) := (book.calls + calls, |book.calls|);
    forall i | 0 <= i < |all|
      ensures all[i].token in book.issued && all[i].token !in book.gone
    {
      assert n <= i ==> all[i] == calls[i - n] && all[i].token in a[k].subs;
    }
    forall i, j | 0 <= i < j < |all|
      ensures all[i].token != all[j].token
    {
      if i < n <= j {
        assert Called(book, all[i].token) && all[j].token in a[k].subs;
      } else if n <= i {
        assert all[i] == calls[i - n] && all[j] == calls[j - n];
      }
    }
  }

  lemma {:induction false} CalledMore(book: Book, calls: seq<Call>, token: Token)
    ensures Called(book.(calls := book.calls + calls), token)
       <==> Called(book, token) || exists i :: 0 <= i < |calls| && calls[i].token == token
  {
    var b := book.(calls := book.calls + calls);
    if i :| 0 <= i < |calls| && calls[i].token == token {
      assert b.calls[|book.calls| + i].token == token;
    }
    if i :| 0 <= i < |book.calls| && book.calls[i].token == token {
      assert b.calls[i].token == token;
    }
    if i :| 0 <= i < |b.calls| && b.calls[i].token == token {
      assert if i < |book.calls| then book.calls[i].token == token else calls[i - |book.calls|].token == token;
    }
  }

  // ---- Who is where ----

  function Waiting(tasks: Tasks): (keys: set<Key>) {
    set k | k in tasks && tasks[k].state.WaitingDecode?
  }

  /** Downloads queued or running. */
  function Active(tasks: Tasks): (keys: set<Key>) {
    set k | k in tasks && (tasks[k].state.QueuedDownload? || tasks[k].state.Downloading?)
  }

  function DeferredKeys(tasks: Tasks): (keys: set<Key>) {
    set k | k in tasks && tasks[k].state.Deferred?
  }

  /** Files waiting for a decode, and downloads that may become such. */
  function Load(tasks: Tasks): (n: nat) {
    |Active(tasks)| + |Waiting(tasks)|
  }

  /** Deferred work waits only while a download is under way or the waiting room is full. */
  ghost predicate Resumed(tasks: Tasks, max: nat) {
    DeferredKeys(tasks) != {} ==> Active(tasks) != {} || |Waiting(tasks)| >= max
  }

  /** An unobserved task kept for a run that is no longer in flight: nothing will ever remove it. */
  predicate Stuck(t: Task) {
    t.subs == map[] && ((t.state.Downloading? && t.downloadRun.None?) || (t.state.Decoding? && t.decodeRun.None?))
  }

  function StuckKeys(tasks: Tasks): (keys: set<Key>) {
    set k | k in tasks && Stuck(tasks[k])
  }

  // ---- What the queues may do on their own ----

  /** Queues start runs, and decodes that start let deferred tasks download again. */
  predicate Forward(from: TaskState, to: TaskState) {
    match from
    case QueuedDownload => to.Downloading?
    case Downloading => to.Downloading?
    case WaitingDecode => to.Decoding?
    case Decoding => to.Decoding?
    case Deferred => to.QueuedDownload? || to.Downloading?
  }

  predicate Advanced(t: Task, u: Task) {
    u == t || (t.subs != map[] && (t.staged || t.state.Deferred?) && Forward(t.state, u.state)
               && u == t.(state := u.state, staged := true, downloadRun := u.downloadRun, decodeRun := u.decodeRun))
  }

  ghost predicate Moved(a: Tasks, b: Tasks) {
    a.Keys == b.Keys && forall k :: k in a ==> Advanced(a[k], b[k])
  }

  predicate Started(t: Task, u: Task) {
    u == t || ((t.state.QueuedDownload? || t.state.Downloading?) && t.staged && t.subs != map[]
               && u == t.(state := Downloading, downloadRun := u.downloadRun))
  }

  /** Only downloads were started. */
  ghost predicate DownloadsStarted(a: Tasks, b: Tasks) {
    a.Keys == b.Keys && forall k :: k in a ==> Started(a[k], b[k])
  }

  lemma {:induction false} StartedMoved(a: Tasks, b: Tasks)
    requires DownloadsStarted(a, b)
    ensures Moved(a, b) && Waiting(b) == Waiting(a) && Active(b) == Active(a) && DeferredKeys(b) == DeferredKeys(a)
  {
  }

  lemma {:induction false} StartedThen(a: Tasks, b: Tasks, c: Tasks)
    requires DownloadsStarted(a, b) && DownloadsStarted(b, c)
    ensures DownloadsStarted(a, c)
  {
  }

  lemma {:induction false} MovedThen(a: Tasks, b: Tasks, c: Tasks)
    requires Moved(a, b) && Moved(b, c)
    ensures Moved(a, c)
  {
  }

  lemma {:induction false} MovedKeeps(a: Tasks, b: Tasks)
    requires Moved(a, b)
    ensures Waiting(b) <= Waiting(a) && DeferredKeys(b) <= DeferredKeys(a) && Active(a) <= Active(b)
    ensures StuckKeys(b) == StuckKeys(a)
    ensures |Waiting(b)| <= |Waiting(a)|
  {
    SubsetSize(Waiting(b), Waiting(a));
  }

  lemma {:induction false} SubsetSize<T>(a: set<T>, b: set<T>)
    requires a <= b
    ensures |a| <= |b|
  {
    var rest := b - a;
    assert b == a + rest;
  }

  // ---- Whom the pipeline picks ----

  /** Resumed first: the higher priority, then the older task. */
  predicate Before(t: Task, u: Task) {
    Rank(t.priority) > Rank(u.priority) || (t.priority == u.priority && t.order <= u.order)
  }

  /** Given up first: the lower priority, then the newer task. */
  predicate Worse(t: Task, u: Task) {
    Rank(t.priority) < Rank(u.priority) || (t.priority == u.priority && t.order >= u.order)
  }

  /** The best of the deferred tasks, and only they, download again. */
  ghost predicate ResumedFrom(a: Tasks, b: Tasks, resumed: set<Key>) {
    && a.Keys == b.Keys && resumed <= DeferredKeys(a)
    && (forall k :: k in a && k !in resumed ==> b[k] == a[k])
    && (forall k :: k in resumed ==>
          && (b[k].state.QueuedDownload? || b[k].state.Downloading?)
          && b[k] == a[k].(state := b[k].state, staged := true, downloadRun := b[k].downloadRun))
    && (forall k, j :: k in resumed && j in DeferredKeys(a) - resumed ==> Before(a[k], a[j]))
  }

  lemma {:induction false} ResumedMoved(a: Tasks, b: Tasks, resumed: set<Key>)
    requires ResumedFrom(a, b, resumed) && forall k :: k in resumed ==> a[k].subs != map[]
    ensures Moved(a, b) && Waiting(b) == Waiting(a) && Active(b) == Active(a) + resumed
    ensures DeferredKeys(b) == DeferredKeys(a) - resumed
    ensures Active(a) !! resumed && Load(b) == Load(a) + |resumed|
  {
    hide Before;
    assert Active(b) == Active(a) + resumed;
  }

  /** One more task resumed, and whatever downloads the queues then started. */
  lemma {:induction false} ResumedMore(a: Tasks, b: Tasks, c: Tasks, resumed: set<Key>, k: Key)
    requires ResumedFrom(a, b, resumed) && Active(a) == {} && k in DeferredKeys(b)
    requires forall j :: j in DeferredKeys(b) ==> Before(b[k], b[j])
    requires DownloadsStarted(b[k := b[k].(state := QueuedDownload, staged := true)], c)
    ensures ResumedFrom(a, c, resumed + {k}) && k !in resumed
  {
    hide Before, Active, DownloadsStarted;
    ResumedOrder(a, b, resumed, k);
    ResumedRest(a, b, c, resumed, k);
    ResumedOnes(a, b, c, resumed, k);
  }

  /** The tasks that are not resumed are as they were: no download was under way that could have started. */
  lemma {:induction false} ResumedRest(a: Tasks, b: Tasks, c: Tasks, resumed: set<Key>, k: Key)
    requires ResumedFrom(a, b, resumed) && Active(a) == {} && k in b
    requires DownloadsStarted(b[k := b[k].(state := QueuedDownload, staged := true)], c)
    ensures a.Keys == c.Keys && forall j :: j in a && j !in resumed + {k} ==> c[j] == a[j]
  {
    hide Before, DeferredKeys;
    var d := b[k := b[k].(state := QueuedDownload, staged := true)];
    forall j | j in a && j !in resumed + {k}
      ensures c[j] == a[j]
    {
      assert d[j] == b[j] == a[j];
      assert j !in Active(a);
    }
  }

  lemma {:induction false} ResumedOnes(a: Tasks, b: Tasks, c: Tasks, resumed: set<Key>, k: Key)
    requires ResumedFrom(a, b, resumed) && k in DeferredKeys(b)
    requires DownloadsStarted(b[k := b[k].(state := QueuedDownload, staged := true)], c)
    ensures k !in resumed
    ensures forall j :: j in resumed + {k} ==>
              && j in a && j in c && (c[j].state.QueuedDownload? || c[j].state.Downloading?)
              && c[j] == a[j].(state := c[j].state, staged := true, downloadRun := c[j].downloadRun)
  {
    hide Before;
    var d := b[k := b[k].(state := QueuedDownload, staged := true)];
    forall j | j in resumed + {k}
      ensures j in a && j in c && (c[j].state.QueuedDownload? || c[j].state.Downloading?)
      ensures c[j] == a[j].(state := c[j].state, staged := true, downloadRun := c[j].downloadRun)
    {
      assert j in d && Started(d[j], c[j]);
    }
  }

  lemma {:induction false} ResumedOrder(a: Tasks, b: Tasks, resumed: set<Key>, k: Key)
    requires ResumedFrom(a, b, resumed) && k in DeferredKeys(b) && forall j :: j in DeferredKeys(b) ==> Before(b[k], b[j])
    ensures k in DeferredKeys(a)
    ensures forall i, j :: i in resumed + {k} && j in DeferredKeys(a) - (resumed + {k}) ==> Before(a[i], a[j])
  {
    hide Before;
    forall i, j | i in resumed + {k} && j in DeferredKeys(a) - (resumed + {k})
      ensures Before(a[i], a[j])
    {
      assert b[j] == a[j] && j in DeferredKeys(b);
    }
  }

  // ---- Overflow ----

  /** The worst of the waiting tasks, and only they, are deferred. */
  ghost predicate DeferredFrom(a: Tasks, b: Tasks, victims: set<Key>) {
    && a.Keys == b.Keys && victims <= Waiting(a)
    && (forall k :: k in a && k !in victims ==> b[k] == a[k])
    && (forall k :: k in victims ==> b[k] == a[k].(state := Deferred, staged := false, item := None))
    && (forall k, j :: k in victims && j in Waiting(a) - victims ==> Worse(a[k], a[j]))
  }

  lemma {:induction false} DeferredKeeps(a: Tasks, b: Tasks, victims: set<Key>)
    requires DeferredFrom(a, b, victims)
    ensures Waiting(b) == Waiting(a) - victims && Active(b) == Active(a) && DeferredKeys(b) == DeferredKeys(a) + victims
    ensures |Waiting(b)| == |Waiting(a)| - |victims|
  {
    hide DeferredFrom;
    DeferredStates(a, b, victims);
    assert Waiting(b) == Waiting(a) - victims;
    assert Active(b) == Active(a);
    assert Waiting(a) == Waiting(b) + victims;
  }

  lemma {:induction false} DeferredStates(a: Tasks, b: Tasks, victims: set<Key>)
    requires DeferredFrom(a, b, victims)
    ensures a.Keys == b.Keys && victims <= Waiting(a)
    ensures forall k :: k in a ==> b[k].state == if k in victims then Deferred else a[k].state
  {
    hide Worse;
  }

  lemma {:induction false} DeferredStuck(a: Tasks, b: Tasks, victims: set<Key>)
    requires DeferredFrom(a, b, victims)
    ensures StuckKeys(b) == StuckKeys(a)
  {
    hide Worse;
    forall k | k in a
      ensures Stuck(a[k]) == Stuck(b[k])
    {
      assert k in victims ==> k in Waiting(a);
    }
  }

  lemma {:induction false} DeferredMore(a: Tasks, b: Tasks, victims: set<Key>, k: Key)
    requires DeferredFrom(a, b, victims) && k in Waiting(b)
    requires forall j :: j in Waiting(b) ==> Worse(b[k], b[j])
    ensures DeferredFrom(a, b[k := b[k].(staged := false, item := None, state := Deferred)], victims + {k}) && k !in victims
  {
    assert k in Waiting(a) && b[k] == a[k];
    forall i, j | i in victims + {k} && j in Waiting(a) - (victims + {k})
      ensures Worse(a[i], a[j])
    {
      assert b[j] == a[j];
    }
  }

  // ---- Removals ----

  lemma {:induction false} WithoutKey(a: Tasks, k: Key)
    requires k in a
    ensures Waiting(a - {k}) == Waiting(a) - {k} && Active(a - {k}) == Active(a) - {k}
    ensures DeferredKeys(a - {k}) == DeferredKeys(a) - {k} && StuckKeys(a - {k}) == StuckKeys(a) - {k}
    ensures Load(a - {k}) <= Load(a) && |Waiting(a - {k})| <= |Waiting(a)|
  {
    WithoutKeySets(a, k);
    hide Waiting, Active, DeferredKeys, StuckKeys;
    SubsetSize(Waiting(a) - {k}, Waiting(a));
    SubsetSize(Active(a) - {k}, Active(a));
  }

  lemma {:induction false} WithoutKeySets(a: Tasks, k: Key)
    requires k in a
    ensures Waiting(a - {k}) == Waiting(a) - {k} && Active(a - {k}) == Active(a) - {k}
    ensures DeferredKeys(a - {k}) == DeferredKeys(a) - {k} && StuckKeys(a - {k}) == StuckKeys(a) - {k}
  {
    hide Stuck;
  }

  // ---- Progress ----

  function Most(m: nat, n: nat): nat {
    if m < n then n else m
  }

  /** Queue activity adds no load beyond the limit, and leaves no deferred work behind. */
  ghost predicate Progressed(a: Tasks, b: Tasks, max: nat) {
    && Moved(a, b) && Load(b) <= Most(Load(a), max) && (Resumed(a, max) ==> Resumed(b, max))
  }

  lemma {:induction false} ProgressedThen(a: Tasks, b: Tasks, c: Tasks, max: nat)
    requires Progressed(a, b, max) && Progressed(b, c, max)
    ensures Progressed(a, c, max)
  {
    hide Moved, Resumed, Load;
    MovedThen(a, b, c);
  }

  lemma {:induction false} NoProgress(a: Tasks, max: nat)
    ensures Progressed(a, a, max) && Moved(a, a) && DownloadsStarted(a, a)
  {
  }

  lemma {:induction false} StartedProgressed(a: Tasks, b: Tasks, max: nat)
    requires DownloadsStarted(a, b)
    ensures Progressed(a, b, max) && Load(b) == Load(a)
  {
    StartedMoved(a, b);
    hide Moved, DownloadsStarted, Waiting, Active, DeferredKeys;
  }

  /** What a resume pass adds. */
  function Room(a: Tasks, max: nat): (n: nat) {
    if Active(a) != {} || max <= |Waiting(a)| then 0
    else if max - |Waiting(a)| <= |DeferredKeys(a)| then max - |Waiting(a)|
    else |DeferredKeys(a)|
  }

  lemma {:induction false} ResumedAre(a: Tasks, b: Tasks, resumed: set<Key>)
    requires ResumedFrom(a, b, resumed)
    ensures resumed <= DeferredKeys(a)
  {
  }

  lemma {:induction false} ResumePass(a: Tasks, b: Tasks, resumed: set<Key>, max: nat)
    requires ResumedFrom(a, b, resumed) && forall k :: k in DeferredKeys(a) ==> a[k].subs != map[]
    requires Active(a) != {} ==> resumed == {}
    requires Active(a) == {} && max <= |Waiting(a)| ==> resumed == {}
    requires Active(a) == {} && |Waiting(a)| < max ==>
               |resumed| <= max - |Waiting(a)| && (|resumed| == max - |Waiting(a)| || DeferredKeys(b) == {})
    ensures Progressed(a, b, max) && Resumed(b, max) && |resumed| == Room(a, max) && Waiting(b) == Waiting(a)
  {
    hide ResumedFrom, Moved, Waiting, Active, DeferredKeys;
    ResumedAre(a, b, resumed);
    ResumedMoved(a, b, resumed);
    var (d, e) := (DeferredKeys(a), DeferredKeys(b));
    SubsetSize(resumed, d);
    if e == {} {
      assert resumed == d;
    }
    if resumed == {} {
      assert |Active(b)| == |Active(a)|;
    }
  }

  lemma {:induction false} DecodeStarted(a: Tasks, b: Tasks, c: Tasks, k: Key, max: nat)
    requires Moved(a, b) && Active(b) == Active(a) && Waiting(b) == Waiting(a) - {k}
    requires Progressed(b, c, max) && Resumed(c, max)
    ensures Progressed(a, c, max)
  {
    hide Moved, Active, Waiting, Resumed;
    MovedThen(a, b, c);
    SubsetSize(Waiting(b), Waiting(a));
  }

  lemma {:induction false} ProgressKeeps(a: Tasks, b: Tasks, max: nat)
    requires Progressed(a, b, max)
    ensures Waiting(b) <= Waiting(a) && DeferredKeys(b) <= DeferredKeys(a) && Active(a) <= Active(b)
    ensures StuckKeys(b) == StuckKeys(a)
    ensures |Waiting(b)| <= |Waiting(a)|
  {
    MovedKeeps(a, b);
  }

  // ---- Single tasks and the counts ----

  /** Changes to a task that leave its state alone leave every count alone. */
  lemma {:induction false} SameState(a: Tasks, k: Key, t: Task)
    requires k in a && t.state == a[k].state
    ensures Waiting(a[k := t]) == Waiting(a) && Active(a[k := t]) == Active(a) && DeferredKeys(a[k := t]) == DeferredKeys(a)
    ensures Load(a[k := t]) == Load(a)
    ensures StuckKeys(a[k := t]) == if Stuck(t) then StuckKeys(a) + {k} else StuckKeys(a) - {k}
  {
    assert Waiting(a[k := t]) == Waiting(a) && Active(a[k := t]) == Active(a);
  }

  /** A download becomes a waiting decode: the load stays. */
  lemma {:induction false} NowWaiting(a: Tasks, k: Key, t: Task)
    requires k in a && (a[k].state.QueuedDownload? || a[k].state.Downloading?) && t.state.WaitingDecode?
    ensures Waiting(a[k := t]) == Waiting(a) + {k} && |Waiting(a[k := t])| == |Waiting(a)| + 1
    ensures Load(a[k := t]) == Load(a) && StuckKeys(a[k := t]) == StuckKeys(a) - {k}
  {
    var b := a[k := t];
    assert Waiting(b) == Waiting(a) + {k} && Active(b) == Active(a) - {k};
    assert k in Active(a) && k !in Waiting(a);
  }

  /** Joining the download queue: one more download, unless it was one already. */
  lemma {:induction false} NowQueued(a: Tasks, k: Key, t: Task)
    requires k in a ==> !a[k].state.WaitingDecode?
    requires t.state.QueuedDownload?
    ensures Waiting(a[k := t]) == Waiting(a) && Active(a[k := t]) == Active(a) + {k}
    ensures StuckKeys(a[k := t]) == StuckKeys(a) - {k}
    ensures Load(a[k := t]) <= Load(a) + 1
    ensures k in a && (a[k].state.QueuedDownload? || a[k].state.Downloading?) ==> Load(a[k := t]) == Load(a)
  {
    var b := a[k := t];
    assert Waiting(b) == Waiting(a) && Active(b) == Active(a) + {k};
    if k in Active(a) {
      assert Active(b) == Active(a);
    }
  }

  // ---- Runs that have returned ----

  /** A run that has returned is left alone until its cleanup. */
  ghost predicate Kept(before: Queues, after: Queues) {
    forall r :: r in before.runs && before.runs[r].returned ==> r in after.runs && after.runs[r] == before.runs[r]
  }

  lemma {:induction false} KeptThen(a: Queues, b: Queues, c: Queues)
    requires Kept(a, b) && Kept(b, c)
    ensures Kept(a, c)
  {
  }

  lemma {:induction false} KeptSame(a: Queues)
    ensures Kept(a, a)
  {
  }

  lemma {:induction false} BeginKept(count: nat, q: Queues, slot: Slot, order: nat, item: Option<Item>)
    requires RunsLinked(count, q)
    ensures Kept(q, Begin(q, slot, order, item))
  {
  }

  lemma {:induction false} LinkedShape(tasks: Tasks, count: nat, q: Queues, k: Key)
    requires Linked(tasks, count, q, {}) && k in tasks
    ensures Shaped(tasks[k]) && (tasks[k].staged ==> tasks[k].subs != map[])
  {
    hide TasksLinked, EntriesLinked, RunsLinked, Distinct, IsBest;
  }

  lemma {:induction false} BeginOfLinked(tasks: Tasks, count: nat, q: Queues, slot: Slot, order: nat, item: Option<Item>)
    requires Linked(tasks, count, q, {})
    ensures Kept(q, Begin(q, slot, order, item))
  {
    hide Kept, TasksLinked, EntriesLinked, RunsLinked, Distinct;
    BeginKept(count, q, slot, order, item);
  }

  lemma {:induction false} LeaveKept(tasks: Tasks, q: Queues, slot: Slot)
    requires EntriesLinked(tasks, q) && slot in q.entries
    ensures q.entries[slot].run.Some? ==> q.entries[slot].run.value in q.runs
    ensures Kept(q, Leave(q, slot))
    ensures q.entries[slot].run.Some? ==> Kept(q, Abandon(q, slot))
  {
    assert EntryLinked(slot, q.entries[slot], tasks, q);
  }
}
