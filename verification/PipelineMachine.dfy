/** The image pipeline as the class it is, driven by what its callers, its queues and its backend may do. */
module PipelineMachine {
  import opened Outcome
  import opened PipelineState
  import opened PipelineSteps
  import opened PipelineSound

  /** What a queue does next, when it is free to: start a key, give a running key up, or nothing more. */
  datatype Reaction = Begins(key: Key) | Abandons(key: Key) | Rests

  /** How a fetch ends. */
  datatype Fetched = Ready | Intermediate(item: Item) | Failure

  class FrcImagePipeline {
    const maxPending: nat
    var tasks: Tasks
    var orders: nat
    var discardedPending: nat
    /** The environment: queue entries and runs, files, subscribers, and what the queues will do next. */
    var queues: Queues
    var files: Files
    var book: Book
    var plan: seq<Reaction>

    ghost predicate Coherent(loose: set<Key>)
      reads this`tasks, this`orders, this`queues, this`files, this`book
    {
      1 <= maxPending && Sound(tasks, orders, queues, files, book, loose)
    }

    /** What holds between steps. */
    ghost predicate Valid()
      reads this`tasks, this`orders, this`queues, this`files, this`book
    {
      Coherent({}) && |Waiting(tasks)| <= maxPending && Resumed(tasks, maxPending)
    }

    constructor (maxPending: nat)
      requires 1 <= maxPending
      ensures Valid() && this.maxPending == maxPending && tasks == map[] && orders == 0 && discardedPending == 0
      ensures queues == Queues(map[], map[], 0) && files == Files(map[], {}) && book == Book(map[], {}, [])
    {
      this.maxPending := maxPending;
      tasks, orders, discardedPending := map[], 0, 0;
      queues := Queues(map[], map[], 0);
      files := Files(map[], {});
      book := Book(map[], {}, []);
      plan := [];
    }

    // ---- Queue runs ----

    /** A download run starts; only its synchronous part touches the pipeline. */
    method RunDownload(key: Key, lane: Lane)
      requires Coherent({}) && Startable(queues, Slot(Download, lane, key))
      modifies this`tasks, this`queues
      ensures Coherent({}) && DownloadsStarted(old(tasks), tasks) && Kept(old(queues), queues)
      ensures key in old(tasks)
              && tasks == old(tasks)[key := old(tasks)[key].(state := Downloading, downloadRun := Some(old(queues).nextRun))]
              && queues == Begin(old(queues), Slot(Download, lane, key), old(tasks)[key].order, None)
    {
      hide DownloadsStarted, Kept, Sound;
      BeginDownloadSound(tasks, orders, queues, files, book, lane, key);
      var task := tasks[key];
      tasks := tasks[key := task.(state := Downloading, downloadRun := Some(queues.nextRun))];
      queues := Begin(queues, Slot(Download, lane, key), task.order, None);
    }

    method AbandonRun(slot: Slot)
      requires Coherent({})
      modifies this`queues
      ensures Coherent({}) && Kept(old(queues), queues)
      ensures queues == GivenUp(old(queues), slot)
    {
      hide Kept, Sound;
      KeptSame(queues);
      if slot in queues.entries && queues.entries[slot].run.Some? {
        AbandonSound(tasks, orders, queues, files, book, {}, slot);
        if !queues.runs[queues.entries[slot].run.value].pinned {
          queues := Abandon(queues, slot);
        }
      }
    }

    /** A download queue starts and gives up runs until it rests. */
    method PumpDownloads(lane: Lane)
      requires Coherent({})
      modifies this`tasks, this`queues, this`plan
      ensures Coherent({}) && DownloadsStarted(old(tasks), tasks) && |plan| <= |old(plan)| && Kept(old(queues), queues)
      ensures old(plan) == [] ==> tasks == old(tasks) && queues == old(queues)
      decreases |plan|, 0
    {
      hide *;
      NoProgress(tasks, maxPending);
      KeptSame(queues);
      while plan != []
        invariant Coherent({}) && DownloadsStarted(old(tasks), tasks) && |plan| <= |old(plan)| && Kept(old(queues), queues)
        invariant old(plan) == [] ==> tasks == old(tasks) && queues == old(queues)
        decreases |plan|
      {
        ghost var earlier := queues;
        var next := plan[0];
        plan := plan[1..];
        match next
        case Rests =>
          return;
        case Begins(key) =>
          if Startable(queues, Slot(Download, lane, key)) {
            ghost var before := tasks;
            RunDownload(key, lane);
            StartedThen(old(tasks), before, tasks);
            KeptThen(old(queues), earlier, queues);
          }
        case Abandons(key) =>
          AbandonRun(Slot(Download, lane, key));
          KeptThen(old(queues), earlier, queues);
      }
    }

    // ---- Stage subscriptions ----

    /** The subscription is stored before the queue answers it; nothing the answer runs looks at this task's. */
    method SubscribeDownload(key: Key, ghost loose: set<Key>)
      requires Coherent(loose) && loose <= {key} && key in tasks && !tasks[key].staged
      requires tasks[key].subs != map[] && IsBest(tasks[key].subs, tasks[key].priority)
      requires !tasks[key].state.WaitingDecode? && !tasks[key].state.Decoding?
      modifies this`tasks, this`queues, this`plan
      ensures Coherent({}) && |plan| <= |old(plan)| && Kept(old(queues), queues)
      ensures DownloadsStarted(old(tasks)[key := old(tasks)[key].(state := QueuedDownload, staged := true)], tasks)
      ensures old(plan) == [] ==>
                tasks == old(tasks)[key := old(tasks)[key].(state := QueuedDownload, staged := true)]
                && queues == Join(old(queues), Slot(Download, old(tasks)[key].lane, key))
      decreases |plan|, 1
    {
      hide DownloadsStarted, IsBest, Kept, Sound;
      var task := tasks[key].(state := QueuedDownload, staged := true);
      StageSound(tasks, orders, queues, files, book, loose, key, task);
      assert loose - {key} == {};
      tasks := tasks[key := task];
      queues := Join(queues, Slot(Download, task.lane, key));
      ghost var joined := queues;
      PumpDownloads(task.lane);
      KeptThen(old(queues), joined, queues);
    }

    /** Called for observed tasks only. A deferred task is queued again by `SubscribeDownload` itself. */
    method EnsureStageSubscription(key: Key, ghost loose: set<Key>)
      requires Coherent(loose) && loose <= {key} && key in tasks
      requires tasks[key].subs != map[] && IsBest(tasks[key].subs, tasks[key].priority)
      requires tasks[key].staged ==> loose == {}
      modifies this`tasks, this`queues, this`plan
      ensures Coherent({}) && |plan| <= |old(plan)| && Kept(old(queues), queues)
      ensures old(tasks)[key].staged ==> tasks == old(tasks) && plan == old(plan)
      ensures !old(tasks)[key].staged && !old(tasks)[key].state.WaitingDecode? && !old(tasks)[key].state.Decoding? ==>
                DownloadsStarted(old(tasks)[key := old(tasks)[key].(state := QueuedDownload, staged := true)], tasks)
      ensures !old(tasks)[key].staged && old(tasks)[key].state.QueuedDownload? && old(plan) == [] ==>
                tasks == old(tasks)[key := old(tasks)[key].(staged := true)]
                && queues == Join(old(queues), Slot(Download, old(tasks)[key].lane, key))
      ensures !old(tasks)[key].staged && (old(tasks)[key].state.WaitingDecode? || old(tasks)[key].state.Decoding?) ==>
                Progressed(old(tasks)[key := old(tasks)[key].(staged := true)], tasks, maxPending)
      decreases |plan|, if tasks[key].state.WaitingDecode? || tasks[key].state.Decoding? then 7 else 2
    {
      hide *;
      KeptSame(queues);
      if tasks[key].staged {
        return;
      }
      if tasks[key].state.WaitingDecode? || tasks[key].state.Decoding? {
        SubscribeDecode(key, loose);
      } else {
        SubscribeDownload(key, loose);
      }
    }

    // ---- Resuming ----

    /** The deferred task to resume first. */
    method NextDeferred() returns (best: Option<Key>)
      ensures best.None? ==> forall k :: k in tasks && tasks[k].state.Deferred? ==> tasks[k].subs == map[]
      ensures best.Some? ==> best.value in tasks && tasks[best.value].state.Deferred? && tasks[best.value].subs != map[]
      ensures best.Some? ==> forall k :: k in tasks && tasks[k].state.Deferred? && tasks[k].subs != map[] ==>
                               Before(tasks[best.value], tasks[k])
    {
      var candidates := set k | k in tasks && tasks[k].state.Deferred? && tasks[k].subs != map[];
      best := None;
      var rest := candidates;
      while rest != {}
        invariant rest <= candidates
        invariant best.None? ==> rest == candidates
        invariant best.Some? ==> best.value in candidates
        invariant best.Some? ==> forall k :: k in candidates - rest ==> Before(tasks[best.value], tasks[k])
        decreases |rest|
      {
        var key :| key in rest;
        rest := rest - {key};
        if best.None? || Rank(tasks[key].priority) > Rank(tasks[best.value].priority)
           || (tasks[key].priority == tasks[best.value].priority && tasks[key].order < tasks[best.value].order) {
          best := Some(key);
        }
      }
      assert forall k :: k in tasks && tasks[k].state.Deferred? && tasks[k].subs != map[] ==> k in candidates;
    }

    /** While no download is under way, the best deferred tasks download again, as many as may wait. */
    method ResumeDeferred() returns (ghost resumed: set<Key>)
      requires Coherent({})
      modifies this`tasks, this`queues, this`plan
      ensures Coherent({}) && |plan| <= |old(plan)| && Kept(old(queues), queues)
      ensures ResumedFrom(old(tasks), tasks, resumed) && |resumed| == Room(old(tasks), maxPending)
      ensures Progressed(old(tasks), tasks, maxPending) && Resumed(tasks, maxPending) && Waiting(tasks) == Waiting(old(tasks))
      decreases |plan|, 3
    {
      hide Active, DeferredKeys, DownloadsStarted, IsBest, Kept, Progressed, Resumed, ResumedFrom, Sound, Waiting;
      resumed := {};
      ghost var before := tasks;
      KeptSame(queues);
      NoneResumed(tasks);
      DeferredObserved(tasks, orders, queues, files, book);
      if Active(tasks) != {} {
        ResumePass(before, tasks, resumed, maxPending);
        return;
      }
      var available: int := maxPending - |Waiting(tasks)|;
      while available > 0
        invariant Coherent({}) && |plan| <= |old(plan)| && ResumedFrom(before, tasks, resumed) && Kept(old(queues), queues)
        invariant |resumed| + available == maxPending - |Waiting(before)|
        invariant resumed == {} || 0 <= available
        decreases available
      {
        DeferredObserved(tasks, orders, queues, files, book);
        var best := NextDeferred();
        if best.None? {
          NoneDeferred(tasks);
          break;
        }
        ShapedTask(tasks, orders, queues, files, book, best.value);
        ghost var (earlier, held) := (tasks, queues);
        EnsureStageSubscription(best.value, {});
        KeptThen(old(queues), held, queues);
        InDeferred(earlier, best.value);
        ResumedMore(before, earlier, tasks, resumed, best.value);
        resumed := resumed + {best.value};
        available := available - 1;
      }
      ResumePass(before, tasks, resumed, maxPending);
    }

    // ---- Decode runs ----

    /** A decode run starts; without a file it fails at once, and without cleanup. */
    method RunDecode(key: Key, lane: Lane)
      requires Coherent({}) && Startable(queues, Slot(Decode, lane, key))
      modifies this`tasks, this`queues, this`plan
      ensures Coherent({}) && Progressed(old(tasks), tasks, maxPending) && |plan| <= |old(plan)| && Kept(old(queues), queues)
      decreases |plan|, 4
    {
      hide Active, DownloadsStarted, Kept, Progressed, Resumed, ResumedFrom, Sound, Waiting;
      BeginDecodeSound(tasks, orders, queues, files, book, lane, key);
      var task := tasks[key];
      if task.item.None? {
        NoProgress(tasks, maxPending);
        queues := Begin(queues, Slot(Decode, lane, key), task.order, None);
        return;
      }
      tasks := tasks[key := task.(state := Decoding, decodeRun := Some(queues.nextRun))];
      queues := Begin(queues, Slot(Decode, lane, key), task.order, task.item);
      ghost var (begun, running) := (tasks, queues);
      ghost var resumed := ResumeDeferred();
      KeptThen(old(queues), running, queues);
      DecodeStarted(old(tasks), begun, tasks, key, maxPending);
    }

    method PumpDecodes(lane: Lane)
      requires Coherent({})
      modifies this`tasks, this`queues, this`plan
      ensures Coherent({}) && Progressed(old(tasks), tasks, maxPending) && |plan| <= |old(plan)| && Kept(old(queues), queues)
      decreases |plan|, 5
    {
      hide *;
      NoProgress(tasks, maxPending);
      KeptSame(queues);
      while plan != []
        invariant Coherent({}) && Progressed(old(tasks), tasks, maxPending) && |plan| <= |old(plan)| && Kept(old(queues), queues)
        decreases |plan|
      {
        ghost var earlier := queues;
        var next := plan[0];
        plan := plan[1..];
        match next
        case Rests =>
          return;
        case Begins(key) =>
          if Startable(queues, Slot(Decode, lane, key)) {
            ghost var before := tasks;
            RunDecode(key, lane);
            ProgressedThen(old(tasks), before, tasks, maxPending);
            KeptThen(old(queues), earlier, queues);
          }
        case Abandons(key) =>
          AbandonRun(Slot(Decode, lane, key));
          KeptThen(old(queues), earlier, queues);
      }
    }

    method SubscribeDecode(key: Key, ghost loose: set<Key>)
      requires Coherent(loose) && loose <= {key} && key in tasks && !tasks[key].staged
      requires tasks[key].subs != map[] && IsBest(tasks[key].subs, tasks[key].priority)
      requires tasks[key].state.WaitingDecode? || tasks[key].state.Decoding?
      modifies this`tasks, this`queues, this`plan
      ensures Coherent({}) && |plan| <= |old(plan)| && Kept(old(queues), queues)
      ensures Progressed(old(tasks)[key := old(tasks)[key].(staged := true)], tasks, maxPending)
      decreases |plan|, 6
    {
      hide IsBest, Kept, Progressed, Resumed, Sound;
      var task := tasks[key].(staged := true);
      StageSound(tasks, orders, queues, files, book, loose, key, task);
      assert loose - {key} == {};
      tasks := tasks[key := task];
      queues := Join(queues, Slot(Decode, task.lane, key));
      ghost var joined := queues;
      PumpDecodes(task.lane);
      KeptThen(old(queues), joined, queues);
    }

    // ---- Priority ----

    method BestPriority(subs: map<Token, Priority>) returns (best: Option<Priority>)
      ensures best.None? <==> subs == map[]
      ensures best.Some? ==> IsBest(subs, best.value)
    {
      best := None;
      var rest := subs.Keys;
      while rest != {}
        invariant rest <= subs.Keys && (best.None? <==> rest == subs.Keys)
        invariant best.Some? ==> exists token :: token in subs && subs[token] == best.value
        invariant best.Some? ==> forall token :: token in subs && token !in rest ==> Rank(subs[token]) <= Rank(best.value)
        decreases |rest|
      {
        var token :| token in rest;
        rest := rest - {token};
        if best.None? || Rank(subs[token]) > Rank(best.value) {
          best := Some(subs[token]);
        }
      }
      assert subs == map[] <==> subs.Keys == {};
    }

    method PumpQueue(slot: Slot)
      requires Coherent({})
      modifies this`tasks, this`queues, this`plan
      ensures Coherent({}) && Progressed(old(tasks), tasks, maxPending) && |plan| <= |old(plan)| && Kept(old(queues), queues)
      decreases |plan|, 7
    {
      hide *;
      if slot.stage.Download? {
        PumpDownloads(slot.lane);
        StartedProgressed(old(tasks), tasks, maxPending);
      } else {
        PumpDecodes(slot.lane);
      }
    }

    /** The task follows the best of its subscribers; a deferred task that is raised is queued again. */
    method RefreshPriority(key: Key)
      requires Coherent({key}) && key in tasks && tasks[key].subs != map[]
      requires tasks[key].state.Deferred? ==> !tasks[key].staged
      modifies this`tasks, this`queues, this`plan
      ensures |plan| <= |old(plan)| && key in tasks && IsBest(tasks[key].subs, tasks[key].priority)
      ensures tasks[key].subs == old(tasks)[key].subs && tasks[key].order == old(tasks)[key].order
      ensures var t := old(tasks)[key].(priority := tasks[key].priority);
              var ranked := old(tasks)[key := t];
              && (t.staged ==> Coherent({}) && tasks[key].staged && Progressed(ranked, tasks, maxPending))
              && (!t.staged && !t.state.Deferred? ==>
                    Coherent({key}) && tasks == ranked && queues == old(queues) && plan == old(plan))
              && (t.state.Deferred? ==> Coherent({}))
              && (t.state.Deferred? && Rank(t.priority) <= Rank(old(tasks)[key].priority) ==> tasks == ranked)
              && (t.state.Deferred? && Rank(t.priority) > Rank(old(tasks)[key].priority) ==>
                    DownloadsStarted(ranked[key := t.(state := QueuedDownload, staged := true)], tasks))
    {
      hide DownloadsStarted, IsBest, Kept, Progressed, Resumed, Sound;
      var task := tasks[key];
      var best := BestPriority(task.subs);
      if best.None? || best.value == task.priority {
        assert tasks[key := task.(priority := task.priority)] == tasks;
        if task.staged || task.state.Deferred? {
          Tightened(tasks, orders, queues, files, book, key);
          NoProgress(tasks, maxPending);
        }
        return;
      }
      var t := task.(priority := best.value);
      RankSound(tasks, orders, queues, files, book, {key}, key, t);
      ShapedIf(t);
      tasks := tasks[key := t];
      assert {key} + {key} == {key} && {key} - {key} == {};
      assert Coherent({key}) && (Shaped(t) ==> Coherent({}));
      ghost var ranked := tasks;
      if task.staged {
        PumpQueue(SlotOf(key, t));
        MovedTask(ranked, tasks, key, maxPending);
      }
      if tasks[key].state.Deferred? && Rank(best.value) > Rank(task.priority) {
        EnsureStageSubscription(key, {});
        StartedTask(ranked[key := t.(state := QueuedDownload, staged := true)], tasks, key);
      }
    }

    // ---- Overflow ----

    /** The waiting task to give up: the lowest priority, and the newest of those. */
    method WorstWaiting() returns (victim: Key)
      requires Waiting(tasks) != {}
      ensures victim in Waiting(tasks)
      ensures forall k :: k in Waiting(tasks) ==> Worse(tasks[victim], tasks[k])
    {
      var rest := Waiting(tasks);
      victim :| victim in rest;
      rest := rest - {victim};
      while rest != {}
        invariant rest <= Waiting(tasks) && victim in Waiting(tasks)
        invariant forall k :: k in Waiting(tasks) && k !in rest ==> Worse(tasks[victim], tasks[k])
        decreases |rest|
      {
        var candidate :| candidate in rest;
        rest := rest - {candidate};
        if Rank(tasks[candidate].priority) < Rank(tasks[victim].priority)
           || (tasks[candidate].priority == tasks[victim].priority && tasks[candidate].order > tasks[victim].order) {
          victim := candidate;
        }
      }
    }

    /** A waiting task loses its file and its place; its subscribers stay, and there is always one. */
    method DeferTask(key: Key)
      requires Coherent({}) && key in tasks && tasks[key].state.WaitingDecode?
      modifies this`tasks, this`queues, this`files, this`discardedPending
      ensures Coherent({}) && tasks == old(tasks)[key := old(tasks)[key].(staged := false, item := None, state := Deferred)]
      ensures discardedPending == old(discardedPending) + 1 && Kept(old(queues), queues)
      ensures old(tasks)[key].item.Some? && files == Files(old(files).owner, old(files).discarded + {old(tasks)[key].item.value})
    {
      hide Kept, Sound;
      var task := tasks[key];
      DeferSound(tasks, orders, queues, files, book, key);
      if task.staged {
        queues := Leave(queues, SlotOf(key, task));
      }
      if task.item.Some? {
        files := Files(files.owner, files.discarded + {task.item.value});
      }
      tasks := tasks[key := task.(staged := false, item := None, state := Deferred)];
      discardedPending := discardedPending + 1;
    }

    /** Files waiting beyond the limit are given up, worst first. */
    method EnforcePendingLimit() returns (ghost victims: set<Key>)
      requires Coherent({})
      modifies this`tasks, this`queues, this`files, this`discardedPending
      ensures Coherent({}) && DeferredFrom(old(tasks), tasks, victims)
      ensures |victims| == if |Waiting(old(tasks))| <= maxPending then 0 else |Waiting(old(tasks))| - maxPending
      ensures |Waiting(tasks)| <= maxPending && discardedPending == old(discardedPending) + |victims|
      ensures files.owner == old(files).owner && Kept(old(queues), queues)
    {
      hide *;
      victims := {};
      KeptSame(queues);
      NoneGivenUp(tasks);
      while |Waiting(tasks)| > maxPending
        invariant Coherent({}) && DeferredFrom(old(tasks), tasks, victims)
        invariant |Waiting(tasks)| + |victims| == |Waiting(old(tasks))|
        invariant victims != {} ==> |Waiting(tasks)| >= maxPending
        invariant discardedPending == old(discardedPending) + |victims|
        invariant files.owner == old(files).owner && Kept(old(queues), queues)
        decreases |Waiting(tasks)|
      {
        var victim := WorstWaiting();
        InWaiting(tasks, victim);
        ghost var (before, held) := (tasks, queues);
        DeferTask(victim);
        KeptThen(old(queues), held, queues);
        DeferredMore(old(tasks), before, victims, victim);
        victims := victims + {victim};
        DeferredKeeps(old(tasks), tasks, victims);
      }
    }

    // ---- Ends ----

    /** One call to each subscriber. */
    method Answer(subs: map<Token, Priority>, answer: Answer) returns (ghost calls: seq<Call>)
      modifies this`book
      ensures CallsAll(calls, subs.Keys, answer) && book == old(book).(calls := old(book).calls + calls)
    {
      hide *;
      calls := [];
      NoCalls(answer);
      assert old(book).calls + calls == old(book).calls;
      var rest := subs.Keys;
      assert subs.Keys - rest == {};
      while rest != {}
        invariant rest <= subs.Keys && CallsAll(calls, subs.Keys - rest, answer)
        invariant book == old(book).(calls := old(book).calls + calls)
        decreases |rest|
      {
        var token :| token in rest;
        OneMoreCall(calls, subs.Keys - rest, token, answer);
        CallsJoin(old(book).calls, calls, Call(token, answer));
        assert subs.Keys - rest + {token} == subs.Keys - (rest - {token});
        rest := rest - {token};
        book := book.(calls := book.calls + [Call(token, answer)]);
        calls := calls + [Call(token, answer)];
      }
      assert subs.Keys - rest == subs.Keys;
    }

    /** The task is gone before its subscribers are called, and deferred work gets its chance afterwards. */
    method CompleteTask(key: Key, order: nat)
      requires |Waiting(tasks)| <= maxPending
      requires Mine(tasks, key, order) ==> Coherent({key}) && Removable(key, tasks[key], queues) && tasks[key].item.None?
      requires !Mine(tasks, key, order) ==> Valid()
      modifies this`tasks, this`queues, this`book, this`plan
      ensures Valid() && |plan| <= |old(plan)| && Kept(old(queues), queues)
      ensures Mine(old(tasks), key, order) ==> Ended(old(tasks), tasks, key, maxPending)
      ensures Mine(old(tasks), key, order) ==> Answered(old(book), book, old(tasks)[key].subs.Keys, Resolved)
      ensures !Mine(old(tasks), key, order) ==> tasks == old(tasks) && book == old(book)
    {
      hide Answered, CallsAll, Ended, Kept, Progressed, Resumed, ResumedFrom, Sound, Waiting;
      KeptSame(queues);
      if key !in tasks || tasks[key].order != order {
        return;
      }
      var task := tasks[key];
      tasks := tasks - {key};
      ghost var removed := tasks;
      ghost var calls := Answer(task.subs, Resolved);
      AnsweredBy(old(book), book, task.subs.Keys, Resolved, calls);
      FinishSound(old(tasks), orders, queues, files, old(book), {key}, key, calls, Resolved);
      assert Coherent({}) by { assert {key} - {key} == {}; }
      ghost var resumed := ResumeDeferred();
      EndedBy(old(tasks), removed, tasks, key, maxPending);
    }

    method FailTask(key: Key, order: nat)
      requires |Waiting(tasks)| <= maxPending
      requires Mine(tasks, key, order) ==> Coherent({key}) && Removable(key, tasks[key], queues)
      requires !Mine(tasks, key, order) ==> Valid()
      modifies this`tasks, this`queues, this`files, this`book, this`plan
      ensures Valid() && |plan| <= |old(plan)| && Kept(old(queues), queues)
      ensures Mine(old(tasks), key, order) ==> Ended(old(tasks), tasks, key, maxPending)
      ensures Mine(old(tasks), key, order) ==>
                Answered(old(book), book, old(tasks)[key].subs.Keys, Rejected)
                && files == Released(old(files), old(tasks)[key].item)
      ensures !Mine(old(tasks), key, order) ==> tasks == old(tasks) && book == old(book) && files == old(files)
    {
      hide Answered, CallsAll, Ended, Kept, Progressed, Resumed, ResumedFrom, Sound, Waiting;
      KeptSame(queues);
      if key !in tasks || tasks[key].order != order {
        return;
      }
      var task := tasks[key];
      tasks := tasks - {key};
      ghost var removed := tasks;
      files := Released(files, task.item);
      ghost var calls := Answer(task.subs, Rejected);
      AnsweredBy(old(book), book, task.subs.Keys, Rejected, calls);
      FinishSound(old(tasks), orders, queues, old(files), old(book), {key}, key, calls, Rejected);
      assert Coherent({}) by { assert {key} - {key} == {}; }
      ghost var resumed := ResumeDeferred();
      EndedBy(old(tasks), removed, tasks, key, maxPending);
    }

    /** An unobserved task goes, and its file with it; deferred work gets its chance. */
    method DropTask(key: Key, ghost loose: set<Key>)
      requires Coherent(loose) && loose <= {key} && |Waiting(tasks)| <= maxPending
      requires key in tasks && tasks[key].subs == map[] && Removable(key, tasks[key], queues)
      modifies this`tasks, this`queues, this`files, this`plan
      ensures Valid() && |plan| <= |old(plan)| && Kept(old(queues), queues)
      ensures Ended(old(tasks), tasks, key, maxPending)
      ensures files == Released(old(files), old(tasks)[key].item)
      ensures files.owner == old(files).owner && old(files).discarded <= files.discarded
    {
      hide CallsAll, Ended, Kept, Progressed, Resumed, ResumedFrom, Sound, Waiting;
      NoCalls(Resolved);
      assert tasks[key].subs.Keys == {};
      FinishSound(tasks, orders, queues, files, book, loose, key, [], Resolved);
      files := Released(files, tasks[key].item);
      tasks := tasks - {key};
      NothingCalled(book);
      assert Coherent({}) by { assert loose - {key} == {}; }
      assert files.owner == old(files).owner && old(files).discarded <= files.discarded;
      ghost var removed := tasks;
      ghost var resumed := ResumeDeferred();
      EndedBy(old(tasks), removed, tasks, key, maxPending);
    }

    /** Cleanup of a run, whatever became of it: an unobserved task goes with its run. */
    method OnRunSettled(key: Key, order: nat, stage: Stage, run: RunId)
      requires Valid() && run in queues.runs && queues.runs[run].returned
      requires Mine(tasks, key, order) && tasks[key].subs == map[] && stage.Download? && Field(tasks[key], stage) == Some(run) ==>
                 !tasks[key].state.Decoding?
      modifies this`tasks, this`queues, this`files, this`plan
      ensures Valid() && |plan| <= |old(plan)| && Kept(old(queues), queues)
      ensures files.owner == old(files).owner && old(files).discarded <= files.discarded
      ensures Mine(tasks, key, order) ==> Field(tasks[key], stage) != Some(run)
      ensures Mine(old(tasks), key, order) && old(tasks)[key].subs != map[] ==> tasks == Cleared(old(tasks), key, stage, run)
      ensures Load(tasks) <= Most(Load(old(tasks)), maxPending) && StuckKeys(tasks) == StuckKeys(old(tasks))
    {
      hide Active, DeferredKeys, Ended, Kept, Sound, StuckKeys, Waiting;
      KeptSame(queues);
      if key !in tasks || tasks[key].order != order || Field(tasks[key], stage) != Some(run) {
        return;
      }
      var task := tasks[key];
      var cleared := if stage.Download? then task.(downloadRun := None) else task.(decodeRun := None);
      ClearRunSound(tasks, orders, queues, files, book, run, key, cleared);
      SameState(tasks, key, cleared);
      tasks := tasks[key := cleared];
      assert Resumed(tasks, maxPending) && |Waiting(tasks)| <= maxPending;
      if cleared.subs != map[] {
        Unstuck(old(tasks), key);
        Unstuck(tasks, key);
        return;
      }
      ghost var idle := tasks;
      SettledRemovable(old(tasks), orders, queues, files, book, key, stage, run, cleared);
      DropTask(key, {});
      EndedCounts(idle, tasks, key, maxPending);
    }

    /** The last subscriber left: the task goes, or stays for its run to clean up. */
    method RemoveUnobservedTask(key: Key)
      requires Coherent({key}) && |Waiting(tasks)| <= maxPending && Resumed(tasks, maxPending)
      requires key in tasks && tasks[key].subs == map[] && (tasks[key].staged ==> !tasks[key].state.Deferred?)
      modifies this`tasks, this`queues, this`files, this`plan
      ensures Valid() && |plan| <= |old(plan)| && files.owner == old(files).owner
      ensures old(tasks)[key].state.Downloading? || old(tasks)[key].state.Decoding? ==>
                tasks == old(tasks)[key := old(tasks)[key].(staged := false)] && files == old(files)
      ensures !old(tasks)[key].state.Downloading? && !old(tasks)[key].state.Decoding? ==>
                Ended(old(tasks), tasks, key, maxPending) && files == Released(old(files), old(tasks)[key].item)
    {
      hide Active, DeferredKeys, Ended, Kept, Progressed, Sound, StuckKeys, Waiting;
      var task := tasks[key];
      if task.staged {
        LeaveSound(tasks, orders, queues, files, book, {key}, key);
        queues := Leave(queues, SlotOf(key, task));
        tasks := tasks[key := task.(staged := false)];
        assert {key} + {key} == {key};
      }
      ghost var left := tasks;
      assert left == old(tasks)[key := task.(staged := false)];
      SameState(old(tasks), key, task.(staged := false));
      if task.state.Downloading? || task.state.Decoding? {
        TightenSound(tasks, orders, queues, files, book, {key}, key);
        assert {key} - {key} == {};
        return;
      }
      assert Removable(key, tasks[key], queues);
      DropTask(key, {key});
      assert left - {key} == old(tasks) - {key};
      SameEnd(left, old(tasks), tasks, key, maxPending);
    }

    /** A fetched file that came too late: it is discarded with its task. */
    method DiscardUnwanted(key: Key, item: Item)
      requires Coherent({key}) && |Waiting(tasks)| <= maxPending && item !in files.owner
      requires key in tasks && tasks[key].subs == map[] && Removable(key, tasks[key], queues) && tasks[key].item.None?
      modifies this`tasks, this`queues, this`files, this`plan
      ensures Valid() && |plan| <= |old(plan)| && Kept(old(queues), queues)
      ensures Ended(old(tasks), tasks, key, maxPending)
      ensures files.owner == old(files).owner[item := key]
    {
      hide Ended, Kept, Progressed, Resumed, Sound, Waiting;
      DropSound(tasks, orders, queues, files, book, {key}, key, item);
      files := Files(files.owner[item := key], files.discarded + {item});
      assert files.owner == old(files).owner[item := key];
      DropTask(key, {key});
    }

    /** A fetched file that is wanted: its task waits for a decode, and makes room or is made room for. */
    method Await(key: Key, item: Item)
      requires Coherent({key}) && |Waiting(tasks)| <= maxPending && item !in files.owner
      requires key in tasks && tasks[key].subs != map[] && IsBest(tasks[key].subs, tasks[key].priority) && !tasks[key].staged
      requires tasks[key].state.QueuedDownload? || tasks[key].state.Downloading?
      requires RunReturned(tasks[key].downloadRun, queues)
      modifies this`tasks, this`queues, this`files, this`plan, this`discardedPending
      ensures Valid() && |plan| <= |old(plan)| && Kept(old(queues), queues)
      ensures key in tasks && tasks[key].subs == old(tasks)[key].subs
      ensures Load(tasks) + discardedPending - old(discardedPending) <= Most(Load(old(tasks)), maxPending)
      ensures Load(old(tasks)) <= maxPending ==> discardedPending == old(discardedPending)
      ensures old(discardedPending) <= discardedPending <= old(discardedPending) + 1
      ensures StuckKeys(tasks) == StuckKeys(old(tasks)) - {key}
      ensures files.owner == old(files).owner[item := key]
    {
      hide Active, DeferredFrom, DeferredKeys, IsBest, Kept, Progressed, Resumed, ResumedFrom, Sound, StuckKeys,
           Waiting;
      TakeSound(tasks, orders, queues, files, book, key, item);
      var waiting := tasks[key].(item := Some(item), state := WaitingDecode);
      NowWaiting(tasks, key, waiting);
      tasks := tasks[key := waiting];
      files := Files(files.owner[item := key], files.discarded);
      SameState(tasks, key, waiting.(staged := true));
      Unstuck(tasks[key := waiting.(staged := true)], key);
      ghost var staged := tasks[key := waiting.(staged := true)];
      SubscribeDecode(key, {key});
      MovedTask(staged, tasks, key, maxPending);
      ProgressKeeps(staged, tasks, maxPending);
      ProgressLoad(staged, tasks, maxPending);
      ghost var (subscribed, held) := (tasks, queues);
      ghost var victims := EnforcePendingLimit();
      KeptThen(old(queues), held, queues);
      DeferredKeeps(subscribed, tasks, victims);
      DeferredStuck(subscribed, tasks, victims);
      DeferredTask(subscribed, tasks, victims, key);
      Overflow(Load(old(tasks)), Load(subscribed), |Waiting(old(tasks))|, |Waiting(subscribed)|, maxPending, |victims|);
      ghost var (bounded, holding) := (tasks, queues);
      assert Load(bounded) + |victims| == Load(subscribed);
      ghost var resumed := ResumeDeferred();
      KeptThen(old(queues), holding, queues);
      MovedTask(bounded, tasks, key, maxPending);
      ProgressKeeps(bounded, tasks, maxPending);
      ProgressLoad(bounded, tasks, maxPending);
      assert Load(tasks) + |victims| <= Most(Load(old(tasks)), maxPending);
    }

    /** A download delivered its result to the task subscribed to it. */
    method OnDownloaded(key: Key, order: nat, result: Fetched)
      requires |Waiting(tasks)| <= maxPending && Resumed(tasks, maxPending)
      requires !Mine(tasks, key, order) ==> Valid()
      requires Mine(tasks, key, order) ==> Delivered(tasks, orders, queues, files, book, key) && 1 <= maxPending
      requires result.Ready? || (result.Intermediate? && result.item !in files.owner)
      modifies this`tasks, this`queues, this`files, this`book, this`plan, this`discardedPending
      ensures Valid() && |plan| <= |old(plan)| && Kept(old(queues), queues)
      ensures Mine(old(tasks), key, order) && Mine(tasks, key, order) ==> tasks[key].subs == old(tasks)[key].subs
      ensures Load(tasks) + discardedPending - old(discardedPending) <= Most(Load(old(tasks)), maxPending)
      ensures Load(old(tasks)) <= maxPending ==> discardedPending == old(discardedPending)
      ensures old(discardedPending) <= discardedPending <= old(discardedPending) + 1
      ensures Mine(old(tasks), key, order) && old(tasks)[key].subs != map[] ==> StuckKeys(tasks) == StuckKeys(old(tasks))
      ensures files.owner == if result.Intermediate? then old(files).owner[result.item := key] else old(files).owner
      ensures if result.Ready? && Mine(old(tasks), key, order) then Answered(old(book), book, old(tasks)[key].subs.Keys, Resolved)
              else book == old(book)
    {
      hide Active, Answered, CallsAll, DeferredKeys, Delivered, Ended, IsBest, Kept, Resumed, Sound, StuckKeys, Waiting;
      KeptSame(queues);
      if key !in tasks || tasks[key].order != order {
        if result.Intermediate? {
          DropSound(tasks, orders, queues, files, book, {}, key, result.item);
          files := Files(files.owner[result.item := key], files.discarded + {result.item});
        }
        return;
      }
      var task := tasks[key].(staged := false);
      DeliveredTask(tasks, orders, queues, files, book, key);
      SameState(tasks, key, task);
      tasks := tasks[key := task];
      ghost var spent := tasks;
      if result.Ready? {
        CompleteTask(key, order);
        EndedCounts(spent, tasks, key, maxPending);
      } else if task.subs == map[] {
        DiscardUnwanted(key, result.item);
        EndedCounts(spent, tasks, key, maxPending);
      } else {
        Await(key, result.item);
      }
      if task.subs != map[] {
        Unstuck(old(tasks), key);
        Unstuck(spent, key);
      }
    }

    // ---- What the callers do ----

    /** Priority and stage of a task that has just gained a subscriber. */
    method Attend(key: Key)
      requires Coherent({key}) && key in tasks && tasks[key].subs != map[] && (tasks[key].state.Deferred? ==> !tasks[key].staged)
      requires |Waiting(tasks)| <= maxPending && Resumed(tasks, maxPending)
      modifies this`tasks, this`queues, this`plan
      ensures Valid() && key in tasks && tasks[key].subs == old(tasks)[key].subs && tasks[key].order == old(tasks)[key].order
      ensures Load(tasks) <= Most(Load(old(tasks)) + 1, maxPending)
      ensures !old(tasks)[key].state.Deferred? ==> Load(tasks) <= Most(Load(old(tasks)), maxPending)
      ensures StuckKeys(tasks) == StuckKeys(old(tasks))
      ensures old(tasks)[key].state.QueuedDownload? && !old(tasks)[key].staged && old(plan) == []
              && IsBest(old(tasks)[key].subs, old(tasks)[key].priority) ==>
                tasks == old(tasks)[key := old(tasks)[key].(staged := true)]
                && queues == Join(old(queues), Slot(Download, old(tasks)[key].lane, key))
    {
      hide Active, DeferredKeys, DownloadsStarted, IsBest, Kept, Progressed, Resumed, Sound, StuckKeys, Waiting;
      var task := tasks[key];
      Unstuck(tasks, key);
      RefreshPriority(key);
      OneBest(task.subs, task.priority, tasks[key].priority);
      ghost var t := task.(priority := tasks[key].priority);
      ghost var ranked := old(tasks)[key := t];
      SameState(old(tasks), key, t);
      Unstuck(ranked, key);
      if task.staged {
        ProgressValid(old(tasks), ranked, tasks, maxPending);
        EnsureStageSubscription(key, {});
      } else if task.state.Deferred? {
        DeferredRanked(ranked, tasks, key, t, task.priority);
        NowQueued(ranked, key, t.(state := QueuedDownload, staged := true));
        EnsureStageSubscription(key, {});
        StartedTask(ranked[key := t.(state := QueuedDownload, staged := true)], tasks, key);
        StartedValid(ranked[key := t.(state := QueuedDownload, staged := true)], tasks, key, maxPending);
      } else if task.state.WaitingDecode? || task.state.Decoding? {
        SameState(ranked, key, t.(staged := true));
        Unstuck(ranked[key := t.(staged := true)], key);
        EnsureStageSubscription(key, {key});
        ProgressValid(old(tasks), ranked[key := t.(staged := true)], tasks, maxPending);
        MovedTask(ranked[key := t.(staged := true)], tasks, key, maxPending);
      } else {
        NowQueued(ranked, key, t.(state := QueuedDownload, staged := true));
        EnsureStageSubscription(key, {key});
        StartedTask(ranked[key := t.(state := QueuedDownload, staged := true)], tasks, key);
        StartedValid(ranked[key := t.(state := QueuedDownload, staged := true)], tasks, key, maxPending);
      }
      assert Load(tasks) <= Most(Load(old(tasks)) + 1, maxPending);
    }

    /** The subscriber is entered with the task of its key, or with a new one. */
    method Enlist(key: Key, lane: Lane, priority: Priority, token: Token)
      requires Valid() && token !in book.issued
      modifies this`tasks, this`orders, this`book
      ensures Coherent({key}) && |Waiting(tasks)| <= maxPending && Resumed(tasks, maxPending)
      ensures key in tasks && token in tasks[key].subs && tasks[key].subs[token] == priority
      ensures tasks[key].state.Deferred? ==> !tasks[key].staged
      ensures book == old(book).(issued := old(book).issued[token := key])
      ensures Load(tasks) <= Load(old(tasks)) + 1 && (tasks[key].state.Deferred? ==> Load(tasks) == Load(old(tasks)))
      ensures StuckKeys(tasks) == StuckKeys(old(tasks)) - {key}
      ensures key !in old(tasks) ==>
                tasks == old(tasks)[key := Task(lane, old(orders), priority, QueuedDownload, map[token := priority], false,
                                                None, None, None)]
                && orders == old(orders) + 1 && IsBest(tasks[key].subs, priority)
    {
      hide Active, DeferredKeys, IsBest, Sound, StuckKeys, Waiting;
      if key !in tasks {
        var task := Task(lane, orders, priority, QueuedDownload, map[token := priority], false, None, None, None);
        AddSound(tasks, orders, queues, files, book, key, task, token, priority);
        NowQueued(tasks, key, task);
        OneSubscriber(token, priority);
        tasks := tasks[key := task];
        orders := orders + 1;
      } else {
        JoinedSound(tasks, orders, queues, files, book, key, token, priority);
        ShapedTask(tasks, orders, queues, files, book, key);
        var task := tasks[key].(subs := tasks[key].subs[token := priority]);
        SameState(tasks, key, task);
        tasks := tasks[key := task];
      }
      book := book.(issued := book.issued[token := key]);
      assert tasks[key].subs[token] == priority;
      Unstuck(tasks, key);
    }

    /** A new subscriber; `token` is the symbol made for it. */
    method Subscribe(key: Key, lane: Lane, priority: Priority, token: Token, reactions: seq<Reaction>)
      requires Valid() && token !in book.issued
      modifies this
      ensures Valid() && key in tasks && token in tasks[key].subs && tasks[key].subs[token] == priority
      ensures book == old(book).(issued := old(book).issued[token := key])
      ensures discardedPending == old(discardedPending) && files == old(files)
      ensures Load(tasks) <= Most(Load(old(tasks)) + 1, maxPending)
      ensures StuckKeys(tasks) == StuckKeys(old(tasks)) - {key}
      ensures key !in old(tasks) && reactions == [] ==>
                tasks == old(tasks)[key := Task(lane, old(orders), priority, QueuedDownload, map[token := priority], true,
                                                None, None, None)]
                && queues == Join(old(queues), Slot(Download, lane, key)) && orders == old(orders) + 1
    {
      hide Active, IsBest, Resumed, Sound, StuckKeys, Waiting;
      plan := reactions;
      Enlist(key, lane, priority, token);
      Attend(key);
      assert Load(tasks) <= Most(Load(old(tasks)) + 1, maxPending);
    }

    /** A subscriber leaves; its handle names the task it was made for. */
    method Unsubscribe(key: Key, order: nat, token: Token, reactions: seq<Reaction>)
      requires Valid()
      modifies this
      ensures Valid() && discardedPending == old(discardedPending)
      ensures !Subscribed(old(tasks), key, order, token) ==> tasks == old(tasks) && book == old(book) && files == old(files)
      ensures Subscribed(old(tasks), key, order, token) ==> book == old(book).(gone := old(book).gone + {token})
      ensures Load(tasks) <= Most(Load(old(tasks)), maxPending)
      ensures StuckKeys(tasks) ==
                if Subscribed(old(tasks), key, order, token) && Strands(old(tasks)[key], token) then StuckKeys(old(tasks)) + {key}
                else StuckKeys(old(tasks))
      ensures Subscribed(old(tasks), key, order, token) && Strands(old(tasks)[key], token) ==>
                tasks == old(tasks)[key := old(tasks)[key].(subs := map[], staged := false)]
    {
      hide Active, DeferredKeys, DownloadsStarted, Ended, IsBest, Progressed, Sound, StuckKeys, Waiting;
      plan := reactions;
      if key !in tasks || tasks[key].order != order || token !in tasks[key].subs {
        return;
      }
      var task := tasks[key];
      var left := task.(subs := task.subs - {token});
      ShapedTask(tasks, orders, queues, files, book, key);
      LeftSound(tasks, orders, queues, files, book, key, token);
      SameState(tasks, key, left);
      StrandsIf(task, left, token);
      Unstuck(tasks, key);
      tasks := tasks[key := left];
      book := book.(gone := book.gone + {token});
      ghost var thinned := tasks;
      if left.subs != map[] {
        Unstuck(tasks, key);
        RefreshPriority(key);
        ghost var t := left.(priority := tasks[key].priority);
        ghost var ranked := thinned[key := t];
        SameState(thinned, key, t);
        Unstuck(ranked, key);
        FewerIsNoBetter(task, t, token);
        if task.staged {
          ProgressValid(thinned, ranked, tasks, maxPending);
        } else {
          assert tasks == ranked;
          assert Resumed(ranked, maxPending);
        }
      } else {
        RemoveUnobservedTask(key);
        if left.state.Downloading? || left.state.Decoding? {
          SameState(thinned, key, left.(staged := false));
          assert tasks == old(tasks)[key := task.(subs := map[], staged := false)];
        } else {
          EndedCounts(thinned, tasks, key, maxPending);
        }
      }
      assert Load(tasks) <= Most(Load(old(tasks)), maxPending);
    }

    /** A subscriber changes its priority; raising a deferred task queues it again. */
    method SetPriority(key: Key, order: nat, token: Token, next: Priority, reactions: seq<Reaction>)
      requires Valid()
      modifies this
      ensures Valid() && discardedPending == old(discardedPending) && book == old(book) && files == old(files)
      ensures !Subscribed(old(tasks), key, order, token) ==> tasks == old(tasks)
      ensures Subscribed(old(tasks), key, order, token) ==>
                key in tasks && tasks[key].subs == old(tasks)[key].subs[token := next] && tasks[key].order == order
      ensures Load(tasks) <= Most(Load(old(tasks)) + 1, maxPending)
      ensures !Raises(old(tasks), key, order, token, next) ==> Load(tasks) <= Most(Load(old(tasks)), maxPending)
      ensures StuckKeys(tasks) == StuckKeys(old(tasks))
    {
      hide Active, DeferredKeys, IsBest, Sound, StuckKeys, Waiting;
      plan := reactions;
      if key !in tasks || tasks[key].order != order || token !in tasks[key].subs {
        return;
      }
      var task := tasks[key];
      if task.subs[token] == next {
        assert task.subs == task.subs[token := next];
        return;
      }
      var other := task.(subs := task.subs[token := next]);
      ShapedTask(tasks, orders, queues, files, book, key);
      assert other.subs.Keys == task.subs.Keys;
      RankSound(tasks, orders, queues, files, book, {}, key, other);
      SameState(tasks, key, other);
      assert other.subs[token] == next;
      Unstuck(tasks, key);
      tasks := tasks[key := other];
      Unstuck(tasks, key);
      assert {} + {key} == {key};
      ghost var ranked := tasks;
      Reprioritize(key, task, token, next);
      assert Raises(old(tasks), key, order, token, next) <==> task.state.Deferred? && Rank(next) > Rank(task.priority);
    }

    /** The second half of `SetPriority`. */
    method Reprioritize(key: Key, ghost task: Task, ghost token: Token, ghost next: Priority)
      requires Coherent({key}) && |Waiting(tasks)| <= maxPending && Resumed(tasks, maxPending)
      requires key in tasks && tasks[key].subs != map[] && token in task.subs && Observed(task)
      requires tasks[key] == task.(subs := task.subs[token := next])
      modifies this`tasks, this`queues, this`plan
      ensures Valid() && key in tasks && tasks[key].subs == old(tasks)[key].subs && tasks[key].order == old(tasks)[key].order
      ensures Load(tasks) <= Most(Load(old(tasks)) + 1, maxPending)
      ensures !(task.state.Deferred? && Rank(next) > Rank(task.priority)) ==> Load(tasks) <= Most(Load(old(tasks)), maxPending)
      ensures StuckKeys(tasks) == StuckKeys(old(tasks))
    {
      hide Active, DeferredKeys, DownloadsStarted, IsBest, Progressed, Sound, StuckKeys, Waiting;
      ghost var before := tasks;
      Unstuck(tasks, key);
      RefreshPriority(key);
      ghost var t := before[key].(priority := tasks[key].priority);
      ghost var ranked := before[key := t];
      SameState(before, key, t);
      Unstuck(ranked, key);
      OneIsNoBetter(task, t, token, next);
      if t.staged {
        ProgressValid(before, ranked, tasks, maxPending);
      } else if Rank(t.priority) > Rank(task.priority) {
        ghost var queued := ranked[key := t.(state := QueuedDownload, staged := true)];
        NowQueued(ranked, key, t.(state := QueuedDownload, staged := true));
        StartedValid(queued, tasks, key, maxPending);
      } else {
        assert tasks == ranked;
        assert Resumed(ranked, maxPending);
      }
    }

    // ---- What the queues and the backend do ----

    /** A queue starts and gives up runs of its own accord: after a pause, say, or for a more urgent key. */
    method QueueReacts(slot: Slot, reactions: seq<Reaction>)
      requires Valid()
      modifies this
      ensures Valid() && discardedPending == old(discardedPending) && book == old(book) && files == old(files)
      ensures Load(tasks) <= Most(Load(old(tasks)), maxPending)
      ensures Moved(old(tasks), tasks) && StuckKeys(tasks) == StuckKeys(old(tasks))
    {
      hide Active, DeferredKeys, Kept, Resumed, Sound, StuckKeys, Waiting;
      plan := reactions;
      PumpQueue(slot);
      ProgressValid(old(tasks), old(tasks), tasks, maxPending);
      assert Moved(old(tasks), tasks);
    }

    /** A queue starts a download. */
    method QueueStarts(key: Key, lane: Lane)
      requires Valid() && Startable(queues, Slot(Download, lane, key))
      modifies this`tasks, this`queues
      ensures Valid() && key in old(tasks)
      ensures tasks == old(tasks)[key := old(tasks)[key].(state := Downloading, downloadRun := Some(old(queues).nextRun))]
      ensures queues == Begin(old(queues), Slot(Download, lane, key), old(tasks)[key].order, None)
    {
      hide Active, DeferredKeys, DownloadsStarted, Kept, Progressed, Resumed, Sound, StuckKeys, Waiting;
      RunDownload(key, lane);
      StartedProgressed(old(tasks), tasks, maxPending);
      ProgressValid(old(tasks), old(tasks), tasks, maxPending);
    }

    /** A queue gives a run up. */
    method QueueAbandons(slot: Slot)
      requires Valid()
      modifies this`queues
      ensures Valid() && queues == GivenUp(old(queues), slot)
    {
      hide Active, DeferredKeys, Kept, Resumed, Sound, Waiting;
      AbandonRun(slot);
    }

    /** A decode passes the point where it can be cancelled. */
    method MarkUncancellable(r: RunId)
      requires Valid() && r in queues.runs && queues.runs[r].slot.stage.Decode?
      modifies this`queues
      ensures Valid() && queues == Pin(old(queues), r)
    {
      hide Resumed, Sound, Waiting;
      PinSound(tasks, orders, queues, files, book, r);
      queues := Pin(queues, r);
    }

    /** The current run of an entry the pipeline subscribes to returns: its task has the result, or the failure. */
    method DeliverDownload(r: RunId, result: Fetched)
      requires Valid() && r in queues.runs && queues.runs[r].slot.stage.Download? && !queues.runs[r].returned
      requires Current(queues, r) && queues.runs[r].slot in queues.entries && queues.entries[queues.runs[r].slot].live
      requires !queues.runs[r].aborted && (result.Intermediate? ==> result.item !in files.owner)
      modifies this
      ensures Valid() && r in queues.runs && queues.runs[r] == old(queues).runs[r].(returned := true)
      ensures var run := old(queues).runs[r]; Mine(tasks, run.slot.key, run.order) ==> tasks[run.slot.key].subs != map[]
      ensures Load(tasks) + discardedPending - old(discardedPending) <= Most(Load(old(tasks)), maxPending)
      ensures Load(old(tasks)) <= maxPending ==> discardedPending == old(discardedPending)
      ensures old(discardedPending) <= discardedPending <= old(discardedPending) + 1
      ensures StuckKeys(tasks) == StuckKeys(old(tasks))
      ensures files.owner == if result.Intermediate? then old(files).owner[result.item := old(queues).runs[r].slot.key] else old(files).owner
      ensures old(queues).runs[r].slot.key in old(tasks)
      ensures Spoken(old(book), book, old(tasks)[old(queues).runs[r].slot.key].subs.Keys, result)
    {
      hide Active, Answered, DeferredKeys, Ended, IsBest, Resumed, Sound, StuckKeys, Waiting;
      var run := queues.runs[r];
      var (key, slot) := (run.slot.key, run.slot);
      DownloadTask(tasks, orders, queues, files, book, r);
      LiveTask(tasks, orders, queues, files, book, slot);
      DeliverSound(tasks, orders, queues, files, book, r);
      ReturnKeeps(queues, r);
      Unstuck(tasks, key);
      queues := Drop(Return(queues, r), slot);
      ghost var held := queues;
      var task := tasks[key].(staged := false);
      if result.Failure? {
        SameState(tasks, key, task);
        Unstuck(tasks[key := task], key);
        tasks := tasks[key := task];
        ghost var spent := tasks;
        assert Removable(key, task, queues);
        FailTask(key, run.order);
        EndedCounts(spent, tasks, key, maxPending);
        assert files.owner == old(files).owner;
      } else {
        assert Delivered(tasks, orders, queues, files, book, key) && 1 <= maxPending;
        OnDownloaded(key, run.order, result);
      }
      assert queues.runs[r] == held.runs[r];
      assert Spoken(old(book), book, task.subs.Keys, result);
    }

    /** The queue's answer to a download's end, and what the queue starts next. Nothing else of the run is left but cleanup. */
    method SettleDownload(r: RunId, result: Fetched)
      requires Valid() && r in queues.runs && queues.runs[r].slot.stage.Download? && !queues.runs[r].returned
      requires queues.runs[r].aborted ==> result.Failure?
      requires result.Intermediate? ==> result.item !in files.owner
      modifies this
      ensures Valid() && r in queues.runs && queues.runs[r] == old(queues).runs[r].(returned := true)
      ensures var run := old(queues).runs[r];
              Mine(tasks, run.slot.key, run.order) ==>
                tasks[run.slot.key].subs == map[] && tasks[run.slot.key].downloadRun == Some(r) ==>
                  !tasks[run.slot.key].state.Decoding?
      ensures Load(tasks) + discardedPending - old(discardedPending) <= Most(Load(old(tasks)), maxPending)
      ensures Load(old(tasks)) <= maxPending ==> discardedPending == old(discardedPending)
      ensures old(discardedPending) <= discardedPending <= old(discardedPending) + 1
      ensures StuckKeys(tasks) == StuckKeys(old(tasks))
      ensures result.Intermediate? && Current(old(queues), r) ==>
                files.owner == old(files).owner[result.item := old(queues).runs[r].slot.key]
      ensures !(result.Intermediate? && Current(old(queues), r)) ==> files.owner == old(files).owner
      ensures Current(old(queues), r) && !old(queues).runs[r].aborted ==>
                old(queues).runs[r].slot.key in old(tasks)
                && Spoken(old(book), book, old(tasks)[old(queues).runs[r].slot.key].subs.Keys, result)
      ensures !Current(old(queues), r) || old(queues).runs[r].aborted ==> book == old(book)
      ensures !Current(old(queues), r) && old(plan) == [] ==> tasks == old(tasks)
    {
      hide Active, Answered, DeferredKeys, IsBest, Progressed, Resumed, Sound, Spoken, StuckKeys, Waiting;
      var run := queues.runs[r];
      var (key, slot) := (run.slot.key, run.slot);
      DownloadTask(tasks, orders, queues, files, book, r);
      ghost var before := tasks;
      ReturnKeeps(queues, r);
      if !Current(queues, r) {
        StraySound(tasks, orders, queues, files, book, r);
        queues := Return(queues, r);
      } else {
        assert slot in queues.entries;
        if queues.entries[slot].live {
          LiveTask(tasks, orders, queues, files, book, slot);
          Unstuck(tasks, key);
        }
        if result.Failure? && run.aborted && queues.entries[slot].live {
          RequeueSound(tasks, orders, queues, files, book, r);
          queues := Requeue(Return(queues, r), slot);
        } else if queues.entries[slot].live {
          DeliverDownload(r, result);
        } else {
          IdleDropSound(tasks, orders, queues, files, book, r);
          queues := Drop(Return(queues, r), slot);
        }
      }
      ghost var (settled, held) := (tasks, queues);
      PumpDownloads(slot.lane);
      StartedProgressed(settled, tasks, maxPending);
      ProgressValid(settled, settled, tasks, maxPending);
      assert queues.runs[r] == held.runs[r];
      if key in tasks {
        StartedTask(settled, tasks, key);
      }
    }

    /** A fetch ends. An aborted run reports failure, and what it fetched is discarded. */
    method DownloadReturns(r: RunId, fetched: Fetched, reactions: seq<Reaction>)
      requires Valid() && r in queues.runs && queues.runs[r].slot.stage.Download? && !queues.runs[r].returned
      requires fetched.Intermediate? ==> fetched.item !in files.owner
      modifies this
      ensures Valid() && r !in queues.runs
      ensures Load(tasks) + discardedPending - old(discardedPending) <= Most(Load(old(tasks)), maxPending)
      ensures Load(old(tasks)) <= maxPending ==> discardedPending == old(discardedPending)
      ensures old(discardedPending) <= discardedPending <= old(discardedPending) + 1
      ensures StuckKeys(tasks) == StuckKeys(old(tasks))
      ensures fetched.Intermediate? ==> files.owner == old(files).owner[fetched.item := old(queues).runs[r].slot.key]
      ensures if old(queues).runs[r].aborted then book == old(book)
              else
                old(queues).runs[r].slot.key in old(tasks)
                && Spoken(old(book), book, old(tasks)[old(queues).runs[r].slot.key].subs.Keys, fetched)
      ensures var run := old(queues).runs[r];
              !Current(old(queues), r) && reactions == []
              && Mine(old(tasks), run.slot.key, run.order) && old(tasks)[run.slot.key].subs != map[] ==>
                tasks == Cleared(old(tasks), run.slot.key, Download, r)
    {
      hide Active, Answered, Resumed, Sound, Spoken, StuckKeys, Waiting;
      plan := reactions;
      var run := queues.runs[r];
      var (key, slot) := (run.slot.key, run.slot);
      var result := fetched;
      DownloadTask(tasks, orders, queues, files, book, r);
      if run.aborted {
        if fetched.Intermediate? {
          DropSound(tasks, orders, queues, files, book, {}, key, fetched.item);
          files := Files(files.owner[fetched.item := key], files.discarded + {fetched.item});
        }
        result := Failure;
      }
      SettleDownload(r, result);
      ghost var (settled, held) := (tasks, queues);
      OnRunSettled(key, run.order, Download, r);
      assert queues.runs[r] == held.runs[r];
      ForgetSound(tasks, orders, queues, files, book, r);
      Forgotten(queues, r);
      queues := Forget(queues, r);
    }

    /** The current run of an entry the pipeline subscribes to returns: its task has the image, or the failure. */
    method DeliverDecode(r: RunId, decoded: bool)
      requires Valid() && r in queues.runs && queues.runs[r].slot.stage.Decode? && !queues.runs[r].returned
      requires Current(queues, r) && queues.runs[r].slot in queues.entries && queues.entries[queues.runs[r].slot].live
      requires decoded ==> queues.runs[r].item.Some?
      requires queues.runs[r].slot.key in tasks && queues.runs[r].item.Some? ==> tasks[queues.runs[r].slot.key].item.None?
      modifies this
      ensures Valid() && r in queues.runs && queues.runs[r] == old(queues).runs[r].(returned := true)
      ensures Load(tasks) <= Most(Load(old(tasks)), maxPending) && discardedPending == old(discardedPending)
      ensures StuckKeys(tasks) == StuckKeys(old(tasks)) && files.owner == old(files).owner && old(files).discarded <= files.discarded
      ensures var key := old(queues).runs[r].slot.key;
              && key in old(tasks)
              && Answered(old(book), book, old(tasks)[key].subs.Keys, if decoded then Resolved else Rejected)
    {
      hide Active, Answered, CallsAll, DeferredKeys, Ended, IsBest, Resumed, Sound, StuckKeys, Waiting;
      var run := queues.runs[r];
      var (key, slot) := (run.slot.key, run.slot);
      LiveTask(tasks, orders, queues, files, book, slot);
      DeliverSound(tasks, orders, queues, files, book, r);
      ReturnKeeps(queues, r);
      Unstuck(tasks, key);
      queues := Drop(Return(queues, r), slot);
      ghost var held := queues;
      var task := tasks[key].(staged := false);
      SameState(tasks, key, task);
      Unstuck(tasks[key := task], key);
      tasks := tasks[key := task];
      ghost var spent := tasks;
      assert Removable(key, task, queues);
      if decoded {
        CompleteTask(key, task.order);
      } else {
        FailTask(key, task.order);
      }
      EndedCounts(spent, tasks, key, maxPending);
      assert files.owner == old(files).owner && old(files).discarded <= files.discarded;
      assert queues.runs[r] == held.runs[r];
    }

    method SettleDecode(r: RunId, decoded: bool)
      requires Valid() && r in queues.runs && queues.runs[r].slot.stage.Decode? && !queues.runs[r].returned
      requires decoded ==> queues.runs[r].item.Some?
      requires Current(queues, r) && queues.runs[r].slot.key in tasks && queues.runs[r].item.Some? ==>
                 tasks[queues.runs[r].slot.key].item.None?
      modifies this
      ensures Valid() && r in queues.runs && queues.runs[r] == old(queues).runs[r].(returned := true)
      ensures Load(tasks) <= Most(Load(old(tasks)), maxPending) && discardedPending == old(discardedPending)
      ensures StuckKeys(tasks) == StuckKeys(old(tasks)) && files.owner == old(files).owner && old(files).discarded <= files.discarded
      ensures if Speaks(old(queues), r, decoded) then
                old(queues).runs[r].slot.key in old(tasks)
                && Answered(old(book), book, old(tasks)[old(queues).runs[r].slot.key].subs.Keys,
                            if decoded then Resolved else Rejected)
              else book == old(book)
    {
      hide Active, Answered, CallsAll, DeferredKeys, Progressed, Resumed, Sound, StuckKeys, Waiting;
      var run := queues.runs[r];
      var slot := run.slot;
      ReturnKeeps(queues, r);
      if !Current(queues, r) {
        StraySound(tasks, orders, queues, files, book, r);
        queues := Return(queues, r);
      } else {
        assert slot in queues.entries;
        if !decoded && run.aborted && queues.entries[slot].live {
          RequeueSound(tasks, orders, queues, files, book, r);
          queues := Requeue(Return(queues, r), slot);
        } else if queues.entries[slot].live {
          DeliverDecode(r, decoded);
        } else {
          IdleDropSound(tasks, orders, queues, files, book, r);
          queues := Drop(Return(queues, r), slot);
        }
      }
      ghost var (settled, held) := (tasks, queues);
      PumpDecodes(slot.lane);
      ProgressValid(settled, settled, tasks, maxPending);
      assert queues.runs[r] == held.runs[r];
    }

    /** A decode ends, with an image or without; the file it consumed is deleted in every outcome. */
    method DecodeReturns(r: RunId, decoded: bool, reactions: seq<Reaction>)
      requires Valid() && r in queues.runs && queues.runs[r].slot.stage.Decode? && !queues.runs[r].returned
      requires decoded ==> queues.runs[r].item.Some?
      modifies this
      ensures Valid() && r !in queues.runs
      ensures Load(tasks) <= Most(Load(old(tasks)), maxPending)
      ensures discardedPending == old(discardedPending) && StuckKeys(tasks) == StuckKeys(old(tasks))
      ensures files.owner == old(files).owner
      ensures old(queues).runs[r].item.Some? ==> old(queues).runs[r].item.value in files.discarded
      ensures if Speaks(old(queues), r, decoded) then
                old(queues).runs[r].slot.key in old(tasks)
                && Answered(old(book), book, old(tasks)[old(queues).runs[r].slot.key].subs.Keys,
                            if decoded then Resolved else Rejected)
              else book == old(book)
    {
      hide Active, Answered, CallsAll, DeferredKeys, Sound, StuckKeys, Waiting;
      plan := reactions;
      var run := queues.runs[r];
      var (key, slot) := (run.slot.key, run.slot);
      CurrentTask(tasks, orders, queues, files, book, r);
      if run.item.Some? {
        ConsumeSound(tasks, orders, queues, files, book, r);
        ConsumeKeeps(tasks, run);
        tasks := Consumed(tasks, run);
        files := Files(files.owner, files.discarded + {run.item.value});
      }
      SettleDecode(r, decoded);
      ghost var held := queues;
      if run.item.Some? {
        OnRunSettled(key, run.order, Decode, r);
        assert queues.runs[r] == held.runs[r];
      }
      if run.item.None? {
        EmptyField(tasks, orders, queues, files, book, r);
      }
      ForgetSound(tasks, orders, queues, files, book, r);
      Forgotten(queues, r);
      queues := Forget(queues, r);
    }
  }

  lemma {:induction false} NoneResumed(a: Tasks)
    ensures ResumedFrom(a, a, {})
  {
  }

  lemma {:induction false} InDeferred(a: Tasks, k: Key)
    requires k in a && a[k].state.Deferred?
    ensures k in DeferredKeys(a)
    ensures forall j :: j in DeferredKeys(a) ==> j in a && a[j].state.Deferred?
  {
  }

  lemma {:induction false} NoneDeferred(a: Tasks)
    requires forall k :: k in a ==> !a[k].state.Deferred?
    ensures DeferredKeys(a) == {}
  {
  }

  lemma {:induction false} DeferredObserved(tasks: Tasks, count: nat, q: Queues, f: Files, b: Book)
    requires Sound(tasks, count, q, f, b, {})
    ensures forall k :: k in tasks && tasks[k].state.Deferred? ==> tasks[k].subs != map[]
    ensures forall k :: k in DeferredKeys(tasks) ==> tasks[k].subs != map[]
  {
    hide Owned, Heard, IsBest, TasksLinked, EntriesLinked, RunsLinked, Distinct;
    assert forall k :: k in tasks ==> Shaped(tasks[k]);
  }

  lemma {:induction false} ShapedTask(tasks: Tasks, count: nat, q: Queues, f: Files, b: Book, k: Key)
    requires Sound(tasks, count, q, f, b, {}) && k in tasks
    ensures tasks[k].state.Deferred? ==> !tasks[k].staged
    ensures tasks[k].subs != map[] ==> Observed(tasks[k]) && (tasks[k].staged <==> !tasks[k].state.Deferred?)
    ensures Shaped(tasks[k]) && (tasks[k].subs != map[] ==> IsBest(tasks[k].subs, tasks[k].priority))
  {
    hide Owned, Heard, IsBest, TasksLinked, EntriesLinked, RunsLinked, Distinct;
  }

  lemma {:induction false} Tightened(tasks: Tasks, count: nat, q: Queues, f: Files, b: Book, k: Key)
    requires Sound(tasks, count, q, f, b, {k}) && k in tasks && tasks[k].subs != map[] && IsBest(tasks[k].subs, tasks[k].priority)
    requires tasks[k].staged <==> !tasks[k].state.Deferred?
    ensures Sound(tasks, count, q, f, b, {})
  {
    hide Linked, Owned, Heard, IsBest;
    TightenSound(tasks, count, q, f, b, {k}, k);
    assert {k} - {k} == {};
  }

  lemma {:induction false} ShapedIf(t: Task)
    ensures t.subs != map[] && IsBest(t.subs, t.priority) && (t.staged <==> !t.state.Deferred?) ==> Shaped(t)
  {
    hide IsBest;
  }

  lemma {:induction false} MovedTask(a: Tasks, b: Tasks, k: Key, max: nat)
    requires Progressed(a, b, max) && k in a
    ensures k in b && b[k].subs == a[k].subs && b[k].order == a[k].order && b[k].priority == a[k].priority
    ensures !a[k].state.Deferred? ==> !b[k].state.Deferred?
    ensures a[k].staged ==> b[k].staged
    ensures a[k].subs == map[] ==> b[k] == a[k]
  {
    assert Advanced(a[k], b[k]);
  }

  lemma {:induction false} StartedTask(a: Tasks, b: Tasks, k: Key)
    requires DownloadsStarted(a, b) && k in a
    ensures k in b && b[k].subs == a[k].subs && b[k].order == a[k].order && b[k].priority == a[k].priority
    ensures a[k].subs == map[] ==> b[k] == a[k]
    ensures b[k].state == a[k].state || b[k].state.Downloading?
  {
    assert Started(a[k], b[k]);
  }

  lemma {:induction false} NoneGivenUp(a: Tasks)
    ensures DeferredFrom(a, a, {})
  {
  }

  lemma {:induction false} InWaiting(a: Tasks, k: Key)
    requires k in Waiting(a)
    ensures k in a && a[k].state.WaitingDecode?
  {
  }

  lemma {:induction false} CallsJoin(a: seq<Call>, b: seq<Call>, c: Call)
    ensures a + (b + [c]) == (a + b) + [c]
  {
  }

  lemma {:induction false} OneMoreCall(calls: seq<Call>, tokens: set<Token>, token: Token, answer: Answer)
    requires CallsAll(calls, tokens, answer) && token !in tokens
    ensures CallsAll(calls + [Call(token, answer)], tokens + {token}, answer)
  {
    var more := calls + [Call(token, answer)];
    assert more[|calls|].token == token;
    forall other | other in tokens
      ensures exists i :: 0 <= i < |more| && more[i].token == other
    {
      var i :| 0 <= i < |calls| && calls[i].token == other;
      assert more[i].token == other;
    }
  }

  /** Each of `tokens` is called once, all with the same answer, after whatever was called before. */
  ghost predicate Answered(before: Book, after: Book, tokens: set<Token>, answer: Answer) {
    exists calls :: CallsAll(calls, tokens, answer) && after == before.(calls := before.calls + calls)
  }

  lemma {:induction false} AnsweredBy(before: Book, after: Book, tokens: set<Token>, answer: Answer, calls: seq<Call>)
    requires CallsAll(calls, tokens, answer) && after == before.(calls := before.calls + calls)
    ensures Answered(before, after, tokens, answer)
  {
    hide CallsAll;
  }

  /** A task ended: no other task changed but by what the queues did next. */
  ghost predicate Ended(before: Tasks, after: Tasks, k: Key, max: nat) {
    k in before && Progressed(before - {k}, after, max)
  }

  lemma {:induction false} EndedBy(before: Tasks, removed: Tasks, after: Tasks, k: Key, max: nat)
    requires k in before && removed == before - {k} && Progressed(removed, after, max) && |Waiting(before)| <= max
    ensures Ended(before, after, k, max) && |Waiting(after)| <= max
  {
    WithoutKey(before, k);
    ProgressKeeps(removed, after, max);
  }

  lemma {:induction false} Unstuck(a: Tasks, k: Key)
    requires k in a && a[k].subs != map[]
    ensures k !in StuckKeys(a) && !Stuck(a[k])
  {
  }

  lemma {:induction false} NothingCalled(b: Book)
    ensures b.(calls := b.calls + []) == b
  {
    assert b.calls + [] == b.calls;
  }

  lemma {:induction false} KeyGone(a: Tasks, b: Tasks, k: Key, max: nat)
    requires Progressed(a, b, max) && k !in a
    ensures k !in b
  {
  }

  lemma {:induction false} ProgressLoad(a: Tasks, b: Tasks, max: nat)
    requires Progressed(a, b, max)
    ensures Load(b) <= Most(Load(a), max)
    ensures forall n :: Load(a) <= n ==> Load(b) <= Most(n, max)
  {
    hide Moved, Load, Resumed;
  }

  /** A task whose run has just been cleaned up, and that nobody observes, can go; it was not stuck before. */
  lemma {:induction false} SettledRemovable(tasks: Tasks, count: nat, q: Queues, f: Files, b: Book, k: Key, stage: Stage, r: RunId, t: Task)
    requires Sound(tasks, count, q, f, b, {}) && k in tasks && tasks[k].subs == map[] && Field(tasks[k], stage) == Some(r)
    requires stage.Download? ==> !tasks[k].state.Decoding?
    requires t == if stage.Download? then tasks[k].(downloadRun := None) else tasks[k].(decodeRun := None)
    ensures Removable(k, t, q) && k !in StuckKeys(tasks)
  {
    assert TaskLinked(k, tasks[k], count, q) && Shaped(tasks[k]);
    hide Linked, Owned, Heard;
  }

  lemma {:induction false} EndedCounts(a: Tasks, b: Tasks, k: Key, max: nat)
    requires Ended(a, b, k, max)
    ensures k !in b && Load(b) <= Most(Load(a), max) && StuckKeys(b) == StuckKeys(a) - {k}
    ensures |Waiting(b)| <= |Waiting(a)|
  {
    WithoutKey(a, k);
    ProgressKeeps(a - {k}, b, max);
    KeyGone(a - {k}, b, k, max);
    hide Waiting, Active, StuckKeys, Load, Moved, Resumed;
  }

  predicate RunReturned(run: Option<RunId>, q: Queues) {
    run.Some? ==> run.value in q.runs && q.runs[run.value].returned
  }

  /** The task's download returned; only its spent stage subscription stands between it and a coherent state. */
  ghost predicate Delivered(tasks: Tasks, count: nat, q: Queues, f: Files, b: Book, k: Key) {
    && k in tasks && tasks[k].staged && (tasks[k].state.QueuedDownload? || tasks[k].state.Downloading?)
    && Sound(tasks[k := tasks[k].(staged := false)], count, q, f, b, {k})
    && RunReturned(tasks[k].downloadRun, q) && (tasks[k].subs != map[] ==> IsBest(tasks[k].subs, tasks[k].priority))
  }

  lemma {:induction false} DeliveredTask(tasks: Tasks, count: nat, q: Queues, f: Files, b: Book, k: Key)
    requires Delivered(tasks, count, q, f, b, k)
    ensures k in tasks && (tasks[k].state.QueuedDownload? || tasks[k].state.Downloading?)
    ensures Sound(tasks[k := tasks[k].(staged := false)], count, q, f, b, {k})
    ensures RunReturned(tasks[k].downloadRun, q) && (tasks[k].subs != map[] ==> IsBest(tasks[k].subs, tasks[k].priority))
    ensures tasks[k].item.None? && Removable(k, tasks[k].(staged := false), q)
  {
    var a := tasks[k := tasks[k].(staged := false)];
    assert TaskLinked(k, a[k], count, q);
    hide Linked, Owned, Heard, IsBest;
  }

  lemma {:induction false} DeferredTask(a: Tasks, b: Tasks, victims: set<Key>, k: Key)
    requires DeferredFrom(a, b, victims) && k in a
    ensures k in b && b[k].subs == a[k].subs && b[k].order == a[k].order
  {
    hide Worse;
  }

  /** At most one file overflows, and none when everything that may wait fits. */
  lemma {:induction false} Overflow(before: nat, load: nat, waited: nat, waiting: nat, max: nat, victims: nat)
    requires load <= Most(before, max) && waiting <= waited + 1 && waited <= max && waiting <= load
    requires victims == if waiting <= max then 0 else waiting - max
    ensures victims <= 1 && (before <= max ==> victims == 0)
  {
  }

  /** Queue activity from a state like a valid one leads to a valid one. */
  lemma {:induction false} ProgressValid(a: Tasks, b: Tasks, c: Tasks, max: nat)
    requires Progressed(b, c, max) && Waiting(b) == Waiting(a) && Active(b) == Active(a) && DeferredKeys(b) == DeferredKeys(a)
    requires |Waiting(a)| <= max && Resumed(a, max)
    ensures |Waiting(c)| <= max && Resumed(c, max) && StuckKeys(c) == StuckKeys(b) && Load(c) <= Most(Load(a), max)
  {
    ProgressKeeps(b, c, max);
    hide Waiting, Active, DeferredKeys, StuckKeys, Moved;
  }

  lemma {:induction false} StartedValid(b: Tasks, c: Tasks, k: Key, max: nat)
    requires DownloadsStarted(b, c) && k in Active(b)
    ensures Waiting(c) == Waiting(b) && Resumed(c, max) && StuckKeys(c) == StuckKeys(b) && Load(c) == Load(b)
  {
    StartedMoved(b, c);
    MovedKeeps(b, c);
    hide Moved, DownloadsStarted, Waiting, Active, DeferredKeys, StuckKeys;
  }

  /** A deferred task after its priority was refreshed: queued again if it was raised. */
  lemma {:induction false} DeferredRanked(ranked: Tasks, after: Tasks, k: Key, t: Task, previous: Priority)
    requires k in ranked && ranked[k] == t && t.state.Deferred? && !t.staged
    requires Rank(t.priority) <= Rank(previous) ==> after == ranked
    requires Rank(t.priority) > Rank(previous) ==> DownloadsStarted(ranked[k := t.(state := QueuedDownload, staged := true)], after)
    ensures k in after && (after[k].staged || after == ranked)
    ensures after[k].staged ==> DownloadsStarted(ranked[k := t.(state := QueuedDownload, staged := true)], after)
    ensures after[k].subs == t.subs
  {
    var queued := ranked[k := t.(state := QueuedDownload, staged := true)];
    assert Rank(t.priority) > Rank(previous) ==> Started(queued[k], after[k]);
  }

  lemma {:induction false} SameEnd(a: Tasks, b: Tasks, c: Tasks, k: Key, max: nat)
    requires Ended(a, c, k, max) && k in b && a - {k} == b - {k}
    ensures Ended(b, c, k, max)
  {
  }

  predicate Subscribed(tasks: Tasks, key: Key, order: nat, token: Token) {
    Mine(tasks, key, order) && token in tasks[key].subs
  }

  /** Its last subscriber leaves a task that is marked running, but whose run is not in flight any more. */
  predicate Strands(t: Task, token: Token) {
    t.subs.Keys == {token} && ((t.state.Downloading? && t.downloadRun.None?) || (t.state.Decoding? && t.decodeRun.None?))
  }

  predicate Raises(tasks: Tasks, key: Key, order: nat, token: Token, next: Priority) {
    Subscribed(tasks, key, order, token) && tasks[key].state.Deferred? && Rank(next) > Rank(tasks[key].priority)
  }

  predicate Observed(t: Task) {
    t.subs != map[] && IsBest(t.subs, t.priority) && (t.staged <==> !t.state.Deferred?)
  }

  lemma {:induction false} StrandsIf(t: Task, left: Task, token: Token)
    requires token in t.subs && left == t.(subs := t.subs - {token})
    ensures Stuck(left) <==> Strands(t, token)
    ensures left.subs == map[] <==> t.subs.Keys == {token}
    ensures Strands(t, token) ==> left.subs == map[]
    ensures Stuck(left) ==> left.state.Downloading? || left.state.Decoding?
    ensures Stuck(left.(staged := false)) <==> Stuck(left)
  {
    assert left.subs.Keys == t.subs.Keys - {token};
    assert left.subs == map[] <==> left.subs.Keys == {};
  }

  /** Without one of its subscribers a task ranks no higher. */
  lemma {:induction false} FewerIsNoBetter(t: Task, u: Task, token: Token)
    requires IsBest(t.subs, t.priority) && IsBest(u.subs, u.priority) && u.subs == t.subs - {token}
    ensures Rank(u.priority) <= Rank(t.priority)
  {
    var other :| other in u.subs && u.subs[other] == u.priority;
    assert other in t.subs && t.subs[other] == u.priority;
  }

  /** One subscriber raises its task only by rising above it. */
  lemma {:induction false} OneIsNoBetter(t: Task, u: Task, token: Token, next: Priority)
    requires Observed(t) && IsBest(u.subs, u.priority) && token in t.subs && u.subs == t.subs[token := next]
    ensures Rank(u.priority) > Rank(t.priority) ==> Rank(next) > Rank(t.priority)
  {
    var other :| other in u.subs && u.subs[other] == u.priority;
    assert other != token ==> other in t.subs && t.subs[other] == u.priority;
  }

  /** A returned run keeps its record, whatever becomes of its entry. */
  lemma {:induction false} ReturnKeeps(q: Queues, r: RunId)
    requires r in q.runs
    ensures var (run, slot) := (q.runs[r], q.runs[r].slot);
            && Return(q, r).runs == q.runs[r := run.(returned := true)] && Requeue(Return(q, r), slot).runs == Return(q, r).runs
            && Drop(Return(q, r), slot).runs == Return(q, r).runs
  {
  }

  lemma {:induction false} Forgotten(q: Queues, r: RunId)
    ensures r !in Forget(q, r).runs
  {
  }

  /** What a download's result does to the subscribers of its task: an intermediate file leaves them waiting. */
  ghost predicate Spoken(before: Book, after: Book, tokens: set<Token>, result: Fetched) {
    match result
    case Ready => Answered(before, after, tokens, Resolved)
    case Failure => Answered(before, after, tokens, Rejected)
    case Intermediate(item) => after == before
  }

  /** A run reaches the subscribers if it is current and someone subscribes, unless it failed because it was aborted. */
  predicate Speaks(q: Queues, r: RunId, ok: bool)
    requires r in q.runs
  {
    Current(q, r) && q.entries[q.runs[r].slot].live && (ok || !q.runs[r].aborted)
  }

  /** The file cleanup changes nothing else about its task. */
  lemma {:induction false} ConsumeKeeps(a: Tasks, run: Run)
    ensures var b := Consumed(a, run);
            && b.Keys == a.Keys && (forall k :: k in a ==> b[k] == a[k].(item := b[k].item))
            && Waiting(b) == Waiting(a) && Active(b) == Active(a) && DeferredKeys(b) == DeferredKeys(a)
            && StuckKeys(b) == StuckKeys(a) && Load(b) == Load(a)
            && (Mine(a, run.slot.key, run.order) && run.item.Some?
                && (a[run.slot.key].item.None? || a[run.slot.key].item == run.item)
                ==> b[run.slot.key].item.None?)
  {
    var b := Consumed(a, run);
    assert Waiting(b) == Waiting(a) && Active(b) == Active(a);
  }

  /** The task of a current decode is the one it was started for, and holds no other file. */
  lemma {:induction false} CurrentTask(tasks: Tasks, count: nat, q: Queues, f: Files, b: Book, r: RunId)
    requires Sound(tasks, count, q, f, b, {}) && r in q.runs && q.runs[r].slot.stage.Decode? && !q.runs[r].returned
    ensures Current(q, r) && q.runs[r].item.Some? ==>
              var k := q.runs[r].slot.key;
              && k in tasks && Mine(tasks, k, q.runs[r].order) && (tasks[k].item.None? || tasks[k].item == q.runs[r].item)
  {
    hide Linked, Owned, Heard, Current;
    if Current(q, r) && q.runs[r].item.Some? {
      DecodeTask(tasks, count, q, f, b, r);
    }
  }

  /** What giving up a slot's run leaves: nothing changes past the point of cancelling. */
  function GivenUp(q: Queues, slot: Slot): Queues {
    if slot in q.entries && q.entries[slot].run.Some? && q.entries[slot].run.value in q.runs
       && !q.runs[q.entries[slot].run.value].pinned
    then Abandon(q, slot) else q
  }

  /** A settled run is struck from its task. */
  function Cleared(tasks: Tasks, k: Key, stage: Stage, r: RunId): Tasks
    requires k in tasks
  {
    if Field(tasks[k], stage) != Some(r) then tasks
    else tasks[k := if stage.Download? then tasks[k].(downloadRun := None) else tasks[k].(decodeRun := None)]
  }

  lemma {:induction false} OneBest(subs: map<Token, Priority>, p: Priority, q: Priority)
    requires IsBest(subs, q)
    ensures IsBest(subs, p) ==> p == q
  {
    if IsBest(subs, p) {
      var t :| t in subs && subs[t] == p;
      var u :| u in subs && subs[u] == q;
      assert Rank(subs[t]) <= Rank(q) && Rank(subs[u]) <= Rank(p);
    }
  }

  lemma {:induction false} OneSubscriber(token: Token, p: Priority)
    ensures IsBest(map[token := p], p)
  {
    assert token in map[token := p];
  }
}
