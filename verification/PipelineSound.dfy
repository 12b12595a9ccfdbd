/** What each step of the pipeline keeps, all invariants together. */
module PipelineSound {
  import opened Outcome
  import opened PipelineState
  import opened PipelineSteps

  ghost predicate Sound(tasks: Tasks, count: nat, q: Queues, f: Files, b: Book, loose: set<Key>) {
    Linked(tasks, count, q, loose) && Owned(tasks, q.runs, f) && Heard(tasks, b)
  }

  lemma {:induction false} StartableTask(tasks: Tasks, count: nat, q: Queues, f: Files, b: Book, stage: Stage, lane: Lane, k: Key)
    requires Sound(tasks, count, q, f, b, {}) && Startable(q, Slot(stage, lane, k))
    ensures k in tasks && tasks[k].lane == lane && tasks[k].staged && tasks[k].subs != map[]
    ensures stage.Download? ==> tasks[k].state.QueuedDownload? || tasks[k].state.Downloading?
    ensures stage.Decode? ==> tasks[k].state.WaitingDecode? || tasks[k].state.Decoding?
    ensures tasks[k].state.WaitingDecode? ==> tasks[k].item.Some?
  {
    hide FlightLinked, RunField, RunLinked, Owned, Heard, IsBest;
    assert EntryLinked(Slot(stage, lane, k), q.entries[Slot(stage, lane, k)], tasks, q);
    assert TaskLinked(k, tasks[k], count, q);
    assert Shaped(tasks[k]);
  }

  lemma {:induction false} StageSound(tasks: Tasks, count: nat, q: Queues, f: Files, b: Book, loose: set<Key>, k: Key, t: Task)
    requires Sound(tasks, count, q, f, b, loose) && k in tasks && !tasks[k].staged
    requires t == tasks[k].(state := t.state, staged := true) && Shaped(t)
    requires t.state == tasks[k].state
             || (t.state.QueuedDownload? && !tasks[k].state.WaitingDecode? && !tasks[k].state.Decoding?)
    ensures Sound(tasks[k := t], count, Join(q, SlotOf(k, t)), f, b, loose - {k}) && Kept(q, Join(q, SlotOf(k, t)))
  {
    hide Linked, Owned, Heard, Shaped;
    StagedLinked(tasks, count, q, loose, k, t, SlotOf(k, t));
    OwnedSame(tasks, tasks[k := t], q.runs, q.runs, f);
    HeardSame(tasks, tasks[k := t], b);
  }

  lemma {:induction false} LeaveSound(tasks: Tasks, count: nat, q: Queues, f: Files, b: Book, loose: set<Key>, k: Key)
    requires Sound(tasks, count, q, f, b, loose) && k in tasks && tasks[k].staged
    ensures SlotOf(k, tasks[k]) in q.entries
    ensures var e := q.entries[SlotOf(k, tasks[k])]; e.run.Some? ==> e.run.value in q.runs
    ensures Sound(tasks[k := tasks[k].(staged := false)], count, Leave(q, SlotOf(k, tasks[k])), f, b, loose + {k})
  {
    hide Linked, Owned, Heard;
    LeaveLinked(tasks, count, q, loose, k);
    var t := tasks[k].(staged := false);
    OwnedSame(tasks, tasks[k := t], q.runs, Leave(q, SlotOf(k, tasks[k])).runs, f);
    HeardSame(tasks, tasks[k := t], b);
  }

  lemma {:induction false} BeginDownloadSound(tasks: Tasks, count: nat, q: Queues, f: Files, b: Book, lane: Lane, k: Key)
    requires Sound(tasks, count, q, f, b, {}) && Startable(q, Slot(Download, lane, k))
    ensures k in tasks
    ensures var t := tasks[k].(state := Downloading, downloadRun := Some(q.nextRun));
            && Sound(tasks[k := t], count, Begin(q, Slot(Download, lane, k), t.order, None), f, b, {})
            && DownloadsStarted(tasks, tasks[k := t]) && Kept(q, Begin(q, Slot(Download, lane, k), t.order, None))
  {
    hide Linked, Owned, Heard, Begin, Kept;
    StartableTask(tasks, count, q, f, b, Download, lane, k);
    BeginOfLinked(tasks, count, q, Slot(Download, lane, k), tasks[k].order, None);
    BeginRuns(q, Slot(Download, lane, k), tasks[k].order, None);
    BeginDownloadLinked(tasks, count, q, k);
    var t := tasks[k].(state := Downloading, downloadRun := Some(q.nextRun));
    OwnedSame(tasks, tasks[k := t], q.runs, Begin(q, Slot(Download, lane, k), t.order, None).runs, f);
    HeardSame(tasks, tasks[k := t], b);
  }

  lemma {:induction false} DecodeBegun(tasks: Tasks, k: Key, r: RunId)
    requires k in tasks && tasks[k].staged && tasks[k].subs != map[] && (tasks[k].state.WaitingDecode? || tasks[k].state.Decoding?)
    ensures var a := tasks[k := tasks[k].(state := Decoding, decodeRun := Some(r))];
            Moved(tasks, a) && Active(a) == Active(tasks) && Waiting(a) == Waiting(tasks) - {k}
  {
  }

  lemma {:induction false} BeginRuns(q: Queues, slot: Slot, order: nat, item: Option<Item>)
    ensures Begin(q, slot, order, item).runs == q.runs[q.nextRun := Run(slot, order, item, false, false, false)]
  {
  }

  lemma {:induction false} BeginDecodeSound(tasks: Tasks, count: nat, q: Queues, f: Files, b: Book, lane: Lane, k: Key)
    requires Sound(tasks, count, q, f, b, {}) && Startable(q, Slot(Decode, lane, k))
    ensures k in tasks && Kept(q, Begin(q, Slot(Decode, lane, k), tasks[k].order, tasks[k].item))
    ensures tasks[k].item.None? ==> Sound(tasks, count, Begin(q, Slot(Decode, lane, k), tasks[k].order, None), f, b, {})
    ensures tasks[k].item.Some? ==>
              var t := tasks[k].(state := Decoding, decodeRun := Some(q.nextRun));
              && Sound(tasks[k := t], count, Begin(q, Slot(Decode, lane, k), t.order, t.item), f, b, {})
              && Moved(tasks, tasks[k := t])
              && Active(tasks[k := t]) == Active(tasks) && Waiting(tasks[k := t]) == Waiting(tasks) - {k}
  {
    hide Linked, Owned, Heard, Moved, Active, Waiting, Begin, Kept;
    StartableTask(tasks, count, q, f, b, Decode, lane, k);
    DecodeBegun(tasks, k, q.nextRun);
    BeginOfLinked(tasks, count, q, Slot(Decode, lane, k), tasks[k].order, tasks[k].item);
    BeginDecodeLinked(tasks, count, q, k);
    BeginRuns(q, Slot(Decode, lane, k), tasks[k].order, tasks[k].item);
    var t := tasks[k].(state := Decoding, decodeRun := Some(q.nextRun));
    if tasks[k].item.Some? {
      OwnedSame(tasks, tasks[k := t], q.runs, Begin(q, Slot(Decode, lane, k), t.order, t.item).runs, f);
      HeardSame(tasks, tasks[k := t], b);
    } else {
      OwnedSame(tasks, tasks, q.runs, Begin(q, Slot(Decode, lane, k), t.order, None).runs, f);
    }
  }

  lemma {:induction false} AbandonSound(tasks: Tasks, count: nat, q: Queues, f: Files, b: Book, loose: set<Key>, slot: Slot)
    requires Sound(tasks, count, q, f, b, loose) && slot in q.entries && q.entries[slot].run.Some?
    ensures q.entries[slot].run.value in q.runs && Sound(tasks, count, Abandon(q, slot), f, b, loose)
    ensures Kept(q, Abandon(q, slot))
  {
    LeaveKept(tasks, q, slot);
    hide Linked, Owned, Heard;
    AbandonLinked(tasks, count, q, loose, slot);
    OwnedSame(tasks, tasks, q.runs, Abandon(q, slot).runs, f);
  }

  lemma {:induction false} WaitingTask(tasks: Tasks, count: nat, q: Queues, f: Files, b: Book, k: Key)
    requires Sound(tasks, count, q, f, b, {}) && k in tasks && tasks[k].state.WaitingDecode?
    ensures tasks[k].staged && tasks[k].item.Some? && tasks[k].subs != map[] && IsBest(tasks[k].subs, tasks[k].priority)
    ensures SlotOf(k, tasks[k]) in q.entries && Kept(q, Leave(q, SlotOf(k, tasks[k])))
  {
    assert Shaped(tasks[k]) && TaskLinked(k, tasks[k], count, q);
    hide AllShaped, TasksLinked, RunsLinked, Distinct, Owned, Heard, IsBest;
    LeaveKept(tasks, q, SlotOf(k, tasks[k]));
  }

  /** A waiting task gives up its file and is deferred. */
  lemma {:induction false} DeferSound(tasks: Tasks, count: nat, q: Queues, f: Files, b: Book, k: Key)
    requires Sound(tasks, count, q, f, b, {}) && k in tasks && tasks[k].state.WaitingDecode?
    ensures tasks[k].staged && tasks[k].item.Some? && tasks[k].subs != map[] && SlotOf(k, tasks[k]) in q.entries
    ensures var e := q.entries[SlotOf(k, tasks[k])]; e.run.Some? ==> e.run.value in q.runs
    ensures Sound(tasks[k := tasks[k].(staged := false, item := None, state := Deferred)], count,
                  Leave(q, SlotOf(k, tasks[k])), Files(f.owner, f.discarded + {tasks[k].item.value}), b, {})
    ensures Kept(q, Leave(q, SlotOf(k, tasks[k])))
  {
    hide Linked, Owned, Heard, Shaped, IsBest, Leave, Kept;
    WaitingTask(tasks, count, q, f, b, k);
    LeaveSound(tasks, count, q, f, b, {}, k);
    var left := tasks[k := tasks[k].(staged := false)];
    var q' := Leave(q, SlotOf(k, tasks[k]));
    var t := left[k].(item := None, state := Deferred);
    assert {} + {k} == {k};
    DeferLinked(left, count, q', k);
    OwnedDiscard(left, q'.runs, f, k, t);
    HeardSame(left, left[k := t], b);
    assert left[k := t] == tasks[k := tasks[k].(staged := false, item := None, state := Deferred)];
  }

  // ---- Subscribers ----

  lemma {:induction false} AddSound(tasks: Tasks, count: nat, q: Queues, f: Files, b: Book, k: Key, t: Task, token: Token, p: Priority)
    requires Sound(tasks, count, q, f, b, {}) && k !in tasks && token !in b.issued
    requires t.order == count && t.item.None? && !t.staged && t.downloadRun.None? && t.decodeRun.None? && t.state.QueuedDownload?
    requires t.subs == map[token := p]
    ensures Sound(tasks[k := t], count + 1, q, f, b.(issued := b.issued[token := k]), {k})
  {
    hide Linked, Owned, Heard;
    AddLinked(tasks, count, q, k, t);
    OwnedAdd(tasks, q.runs, f, k, t);
    HeardSubscribe(tasks, b, k, t, token, p);
  }

  lemma {:induction false} JoinedSound(tasks: Tasks, count: nat, q: Queues, f: Files, b: Book, k: Key, token: Token, p: Priority)
    requires Sound(tasks, count, q, f, b, {}) && k in tasks && token !in b.issued
    ensures Sound(tasks[k := tasks[k].(subs := tasks[k].subs[token := p])], count, q, f, b.(issued := b.issued[token := k]), {k})
  {
    hide Linked, Owned, Heard, Shaped;
    var t := tasks[k].(subs := tasks[k].subs[token := p]);
    assert {} + {k} == {k};
    SubsLinked(tasks, count, q, {}, k, t);
    OwnedSame(tasks, tasks[k := t], q.runs, q.runs, f);
    HeardSubscribe(tasks, b, k, t, token, p);
  }

  lemma {:induction false} LeftSound(tasks: Tasks, count: nat, q: Queues, f: Files, b: Book, k: Key, token: Token)
    requires Sound(tasks, count, q, f, b, {}) && k in tasks && token in tasks[k].subs
    ensures Sound(tasks[k := tasks[k].(subs := tasks[k].subs - {token})], count, q, f, b.(gone := b.gone + {token}), {k})
  {
    hide Linked, Owned, Heard, Shaped;
    var t := tasks[k].(subs := tasks[k].subs - {token});
    assert {} + {k} == {k};
    SubsLinked(tasks, count, q, {}, k, t);
    OwnedSame(tasks, tasks[k := t], q.runs, q.runs, f);
    HeardLeave(tasks, b, k, t, token);
  }

  /** A subscriber, or the task, changes its priority. */
  lemma {:induction false} RankSound(tasks: Tasks, count: nat, q: Queues, f: Files, b: Book, loose: set<Key>, k: Key, t: Task)
    requires Sound(tasks, count, q, f, b, loose) && k in tasks
    requires t == tasks[k].(subs := t.subs, priority := t.priority) && t.subs.Keys == tasks[k].subs.Keys
    ensures Sound(tasks[k := t], count, q, f, b, loose + {k})
    ensures Shaped(t) ==> Sound(tasks[k := t], count, q, f, b, loose - {k})
  {
    HeardRanked(tasks, tasks[k := t], b, k);
    hide Linked, Owned, Heard, Shaped;
    SubsLinked(tasks, count, q, loose, k, t);
    OwnedSame(tasks, tasks[k := t], q.runs, q.runs, f);
  }

  lemma {:induction false} HeardRanked(a: Tasks, c: Tasks, b: Book, k: Key)
    requires Heard(a, b) && a.Keys == c.Keys && forall j :: j in a ==> c[j].subs.Keys == a[j].subs.Keys
    ensures Heard(c, b)
  {
    hide Called;
    assert forall j, token :: j in c && token in c[j].subs ==> token in a[j].subs;
    assert forall j, token :: j in a && token in a[j].subs ==> token in c[j].subs;
  }

  lemma {:induction false} TightenSound(tasks: Tasks, count: nat, q: Queues, f: Files, b: Book, loose: set<Key>, k: Key)
    requires Sound(tasks, count, q, f, b, loose) && (k in tasks ==> Shaped(tasks[k]))
    ensures Sound(tasks, count, q, f, b, loose - {k})
  {
    hide Linked, Owned, Heard, Shaped;
    TightenLinked(tasks, count, q, loose, k);
  }

  // ---- Ends ----

  /** The files after a task is dropped: one it still holds is discarded. */
  function Released(f: Files, item: Option<Item>): Files {
    if item.Some? then Files(f.owner, f.discarded + {item.value}) else f
  }

  /** Nothing current refers to the task: no live entry, and no decode of its file. */
  predicate Removable(k: Key, t: Task, q: Queues) {
    !t.staged && (Slot(Decode, t.lane, k) in q.entries ==>
                    t.state.Decoding? && t.decodeRun.Some? && t.decodeRun.value in q.runs ==>
                      q.runs[t.decodeRun.value].returned)
  }

  /** A task is dropped, its subscribers answered, its file discarded. */
  lemma {:induction false} FinishSound(tasks: Tasks, count: nat, q: Queues, f: Files, b: Book, loose: set<Key>, k: Key,
                                       calls: seq<Call>, answer: Answer)
    requires Sound(tasks, count, q, f, b, loose) && k in tasks && Removable(k, tasks[k], q)
    requires CallsAll(calls, tasks[k].subs.Keys, answer)
    ensures Sound(tasks - {k}, count, q, Released(f, tasks[k].item), b.(calls := b.calls + calls), loose - {k})
  {
    NoDecodeLeft(tasks, count, q, k);
    hide Linked, Owned, Heard, CallsAll;
    RemoveLinked(tasks, count, q, loose, k);
    HeardAnswer(tasks, b, k, calls, answer);
    if tasks[k].item.Some? {
      var t := tasks[k].(item := None);
      OwnedDiscard(tasks, q.runs, f, k, t);
      OwnedRemove(tasks[k := t], q.runs, Released(f, tasks[k].item), k);
      assert tasks[k := t] - {k} == tasks - {k};
    } else {
      OwnedRemove(tasks, q.runs, f, k);
    }
  }

  lemma {:induction false} NoDecodeLeft(tasks: Tasks, count: nat, q: Queues, k: Key)
    requires TasksLinked(tasks, count, q) && EntriesLinked(tasks, q) && k in tasks && Removable(k, tasks[k], q)
    ensures var slot := Slot(Decode, tasks[k].lane, k);
            slot in q.entries && q.entries[slot].run.Some? ==>
              q.entries[slot].run.value in q.runs && q.runs[q.entries[slot].run.value].item.None?
  {
    var slot := Slot(Decode, tasks[k].lane, k);
    assert TaskLinked(k, tasks[k], count, q);
    assert slot in q.entries ==> EntryLinked(slot, q.entries[slot], tasks, q);
  }

  lemma {:induction false} NoCalls(answer: Answer)
    ensures CallsAll([], {}, answer)
  {
  }

  lemma {:induction false} StraySound(tasks: Tasks, count: nat, q: Queues, f: Files, b: Book, r: RunId)
    requires Sound(tasks, count, q, f, b, {}) && r in q.runs && !Current(q, r)
    ensures Sound(tasks, count, Return(q, r), f, b, {})
  {
    hide Linked, Owned, Heard, Current;
    StrayReturnLinked(tasks, count, q, r);
    OwnedSame(tasks, tasks, q.runs, Return(q, r).runs, f);
  }

  lemma {:induction false} RequeueSound(tasks: Tasks, count: nat, q: Queues, f: Files, b: Book, r: RunId)
    requires Sound(tasks, count, q, f, b, {}) && r in q.runs && Current(q, r) && q.entries[q.runs[r].slot].live
    ensures Sound(tasks, count, Requeue(Return(q, r), q.runs[r].slot), f, b, {})
  {
    hide Linked, Owned, Heard;
    RequeueLinked(tasks, count, q, r);
    OwnedSame(tasks, tasks, q.runs, Return(q, r).runs, f);
  }

  lemma {:induction false} IdleDropSound(tasks: Tasks, count: nat, q: Queues, f: Files, b: Book, r: RunId)
    requires Sound(tasks, count, q, f, b, {}) && r in q.runs && Current(q, r) && !q.entries[q.runs[r].slot].live
    ensures Sound(tasks, count, Drop(Return(q, r), q.runs[r].slot), f, b, {})
  {
    hide Linked, Owned, Heard;
    IdleDropLinked(tasks, count, q, r);
    OwnedSame(tasks, tasks, q.runs, Return(q, r).runs, f);
  }

  lemma {:induction false} DeliverRunsSame(q: Queues, r: RunId)
    requires r in q.runs
    ensures var (after, left) := (Drop(Return(q, r), q.runs[r].slot), Return(q, r));
            && after.runs == left.runs && left.runs.Keys == q.runs.Keys
            && forall i :: i in q.runs ==> left.runs[i].item == q.runs[i].item && left.runs[i].slot == q.runs[i].slot
                                           && left.runs[i].order == q.runs[i].order
  {
  }

  lemma {:induction false} DeliverSound(tasks: Tasks, count: nat, q: Queues, f: Files, b: Book, r: RunId)
    requires Sound(tasks, count, q, f, b, {}) && r in q.runs && Current(q, r) && q.entries[q.runs[r].slot].live
    ensures var (k, slot) := (q.runs[r].slot.key, q.runs[r].slot);
            && k in tasks && tasks[k].staged && tasks[k].subs != map[] && SlotOf(k, tasks[k]) == slot && tasks[k].lane == slot.lane
            && Sound(tasks[k := tasks[k].(staged := false)], count, Drop(Return(q, r), slot), f, b, {k})
  {
    hide Linked, Owned, Heard, Shaped, Drop, Return;
    DeliverLinked(tasks, count, q, r);
    LinkedShape(tasks, count, q, q.runs[r].slot.key);
    DeliverRunsSame(q, r);
    var k := q.runs[r].slot.key;
    var t := tasks[k].(staged := false);
    OwnedSame(tasks, tasks[k := t], q.runs, Return(q, r).runs, f);
    HeardSame(tasks, tasks[k := t], b);
  }

  /** The key's present task is the one meant: tasks are told apart as objects, here by their order. */
  predicate Mine(tasks: Tasks, key: Key, order: nat) {
    key in tasks && tasks[key].order == order
  }

  function Field(t: Task, stage: Stage): Option<RunId> {
    if stage.Download? then t.downloadRun else t.decodeRun
  }

  lemma {:induction false} ForgetSound(tasks: Tasks, count: nat, q: Queues, f: Files, b: Book, r: RunId)
    requires Sound(tasks, count, q, f, b, {}) && r in q.runs && q.runs[r].returned
    requires Mine(tasks, q.runs[r].slot.key, q.runs[r].order) ==> Field(tasks[q.runs[r].slot.key], q.runs[r].slot.stage) != Some(r)
    ensures Sound(tasks, count, Forget(q, r), f, b, {})
  {
    forall k | k in tasks
      ensures tasks[k].downloadRun != Some(r) && tasks[k].decodeRun != Some(r)
    {
      assert TaskLinked(k, tasks[k], count, q);
    }
    hide Linked, Owned, Heard;
    ForgetLinked(tasks, count, q, r);
    OwnedSame(tasks, tasks, q.runs, Forget(q, r).runs, f);
  }

  lemma {:induction false} ClearRunSound(tasks: Tasks, count: nat, q: Queues, f: Files, b: Book, r: RunId, k: Key, t: Task)
    requires Sound(tasks, count, q, f, b, {}) && r in q.runs && q.runs[r].returned && k in tasks
    requires (t == tasks[k].(downloadRun := None) && tasks[k].downloadRun == Some(r))
          || (t == tasks[k].(decodeRun := None) && tasks[k].decodeRun == Some(r))
    ensures Sound(tasks[k := t], count, q, f, b, {})
  {
    hide Linked, Owned, Heard;
    ClearRunLinked(tasks, count, q, r, k, t);
    OwnedSame(tasks, tasks[k := t], q.runs, q.runs, f);
    HeardSame(tasks, tasks[k := t], b);
  }

  /** A fetched file is kept, and its task waits for a decode. */
  lemma {:induction false} TakeSound(tasks: Tasks, count: nat, q: Queues, f: Files, b: Book, k: Key, i: Item)
    requires Sound(tasks, count, q, f, b, {k}) && k in tasks && !tasks[k].staged && i !in f.owner
    requires tasks[k].state.QueuedDownload? || tasks[k].state.Downloading?
    requires tasks[k].downloadRun.Some? ==> tasks[k].downloadRun.value in q.runs && q.runs[tasks[k].downloadRun.value].returned
    ensures Sound(tasks[k := tasks[k].(item := Some(i), state := WaitingDecode)], count, q,
                  Files(f.owner[i := k], f.discarded), b, {k})
  {
    assert TaskLinked(k, tasks[k], count, q);
    hide Linked, Owned, Heard;
    var t := tasks[k].(item := Some(i), state := WaitingDecode);
    WaitLinked(tasks, count, q, k, i);
    OwnedTake(tasks, q.runs, f, k, i, t);
    HeardSame(tasks, tasks[k := t], b);
  }

  lemma {:induction false} DropSound(tasks: Tasks, count: nat, q: Queues, f: Files, b: Book, loose: set<Key>, k: Key, i: Item)
    requires Sound(tasks, count, q, f, b, loose) && i !in f.owner
    ensures Sound(tasks, count, q, Files(f.owner[i := k], f.discarded + {i}), b, loose)
  {
    hide Linked, Owned, Heard;
    OwnedDrop(tasks, q.runs, f, k, i);
  }

  /** The tasks after a decode's cleanup: the task it was started for no longer holds the file it consumed. */
  function Consumed(tasks: Tasks, run: Run): Tasks {
    if run.item.Some? && run.slot.key in tasks && tasks[run.slot.key].order == run.order && tasks[run.slot.key].item == run.item
    then tasks[run.slot.key := tasks[run.slot.key].(item := None)] else tasks
  }

  lemma {:induction false} ConsumeSound(tasks: Tasks, count: nat, q: Queues, f: Files, b: Book, r: RunId)
    requires Sound(tasks, count, q, f, b, {}) && r in q.runs && q.runs[r].item.Some?
    ensures Sound(Consumed(tasks, q.runs[r]), count, q, Files(f.owner, f.discarded + {q.runs[r].item.value}), b, {})
  {
    var (k, run) := (q.runs[r].slot.key, q.runs[r]);
    DecodeHolds(tasks, q.runs, f, r);
    hide Linked, Owned, Heard;
    if k in tasks && tasks[k].order == run.order && tasks[k].item == run.item {
      var t := tasks[k].(item := None);
      LoseLinked(tasks, count, q, {}, k);
      OwnedDiscard(tasks, q.runs, f, k, t);
      HeardSame(tasks, tasks[k := t], b);
    } else {
      assert f.discarded + {run.item.value} == f.discarded;
    }
  }

  lemma {:induction false} PinSound(tasks: Tasks, count: nat, q: Queues, f: Files, b: Book, r: RunId)
    requires Sound(tasks, count, q, f, b, {}) && r in q.runs && q.runs[r].slot.stage.Decode?
    ensures Sound(tasks, count, Pin(q, r), f, b, {})
  {
    hide Linked, Owned, Heard;
    PinLinked(tasks, count, q, r);
    OwnedSame(tasks, tasks, q.runs, Pin(q, r).runs, f);
  }

  /** A live entry stands for an observed task, staged in that very place. */
  lemma {:induction false} LiveTask(tasks: Tasks, count: nat, q: Queues, f: Files, b: Book, slot: Slot)
    requires Sound(tasks, count, q, f, b, {}) && slot in q.entries && q.entries[slot].live
    ensures slot.key in tasks && tasks[slot.key].staged && tasks[slot.key].subs != map[] && SlotOf(slot.key, tasks[slot.key]) == slot
    ensures IsBest(tasks[slot.key].subs, tasks[slot.key].priority) && tasks[slot.key].lane == slot.lane
  {
    assert EntryLinked(slot, q.entries[slot], tasks, q);
    assert Shaped(tasks[slot.key]);
    hide Linked, Owned, Heard, IsBest;
  }

  /** What is known of the task of a download that has just returned. */
  lemma {:induction false} DownloadTask(tasks: Tasks, count: nat, q: Queues, f: Files, b: Book, r: RunId)
    requires Sound(tasks, count, q, f, b, {}) && r in q.runs && q.runs[r].slot.stage.Download? && !q.runs[r].returned
    ensures forall k :: k in tasks && tasks[k].downloadRun == Some(r) ==> !tasks[k].state.Decoding?
    ensures !q.runs[r].aborted ==> Current(q, r)
    ensures Current(q, r) && !q.runs[r].aborted ==>
              var k := q.runs[r].slot.key;
              && q.entries[q.runs[r].slot].live && k in tasks && tasks[k].order == q.runs[r].order
              && tasks[k].downloadRun == Some(r) && tasks[k].state.Downloading?
  {
    assert Current(q, r) ==> EntryLinked(q.runs[r].slot, q.entries[q.runs[r].slot], tasks, q);
    assert FlightLinked(r, q.runs[r], count, q);
    forall k | k in tasks && tasks[k].downloadRun == Some(r)
      ensures !tasks[k].state.Decoding?
    {
      assert TaskLinked(k, tasks[k], count, q);
    }
    hide Linked, Owned, Heard;
  }

  /** What is known of the task of a decode that has just returned and cleaned up after itself. */
  lemma {:induction false} DecodeTask(tasks: Tasks, count: nat, q: Queues, f: Files, b: Book, r: RunId)
    requires Sound(tasks, count, q, f, b, {}) && r in q.runs && q.runs[r].slot.stage.Decode? && !q.runs[r].returned
    requires Current(q, r) && q.runs[r].item.Some?
    ensures var k := q.runs[r].slot.key;
            && k in tasks && tasks[k].order == q.runs[r].order && tasks[k].decodeRun == Some(r) && tasks[k].state.Decoding?
            && (tasks[k].item.None? || tasks[k].item == q.runs[r].item)
  {
    assert EntryLinked(q.runs[r].slot, q.entries[q.runs[r].slot], tasks, q);
    hide Linked, Owned, Heard;
  }

  /** A decode that found no file is in no task's field: it registered no cleanup. */
  lemma {:induction false} EmptyField(tasks: Tasks, count: nat, q: Queues, f: Files, b: Book, r: RunId)
    requires Sound(tasks, count, q, f, b, {}) && r in q.runs && q.runs[r].slot.stage.Decode? && q.runs[r].item.None?
    ensures forall k :: k in tasks ==> tasks[k].decodeRun != Some(r)
  {
    forall k | k in tasks
      ensures tasks[k].decodeRun != Some(r)
    {
      assert TaskLinked(k, tasks[k], count, q);
    }
    hide Linked, Owned, Heard;
  }
}
