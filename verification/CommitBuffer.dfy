/** The commit buffer: commits held back while a list scrolls or a pause lasts, and the two timers that release them. */
module CommitBuffer {
  import opened Outcome

  const COALESCE_DELAY: nat := 80

  type Token = nat
  type Owner = nat

  datatype Reason = Drag | Momentum | Drawer

  datatype Entry = Entry(token: Token, enqueuedAt: nat)

  /** One commit, with what the gates looked like: `oldestAt` is the enqueue time of the first entry of its batch. */
  datatype Commit = Commit(token: Token, at: nat, settled: bool, paused: bool, oldestAt: nat)

  /** The hard gate and the soft gate. */
  predicate Allowed(c: Commit, maxHold: nat) {
    c.settled && (c.paused ==> c.oldestAt + maxHold <= c.at)
  }

  /** Commits so far, then entries still waiting: in the order of their tokens, nobody twice, and nobody cancelled. */
  ghost predicate Ordered(log: seq<Commit>, pending: seq<Entry>, cancelled: set<Token>, issued: Token, clock: nat, maxHold: nat) {
    && (forall i, j :: 0 <= i < j < |log| ==> log[i].token < log[j].token)
    && (forall i, j :: 0 <= i < j < |pending| ==> pending[i].token < pending[j].token)
    && (forall i, j :: 0 <= i < |log| && 0 <= j < |pending| ==> log[i].token < pending[j].token)
    && (forall i, j :: 0 <= i < j < |pending| ==> pending[i].enqueuedAt <= pending[j].enqueuedAt)
    && (forall i :: 0 <= i < |log| ==> log[i].token < issued && log[i].token !in cancelled && Allowed(log[i], maxHold))
    && (forall i :: 0 <= i < |pending| ==>
          pending[i].token < issued && pending[i].token !in cancelled && pending[i].enqueuedAt <= clock)
  }

  /** The commits of a batch that starts with an entry enqueued at `oldestAt`. */
  function Batch(entries: seq<Entry>, at: nat, paused: bool, oldestAt: nat): (log: seq<Commit>)
    ensures |log| == |entries|
    ensures forall i :: 0 <= i < |log| ==> log[i] == Commit(entries[i].token, at, true, paused, oldestAt)
  {
    seq(|entries|, i requires 0 <= i < |entries| => Commit(entries[i].token, at, true, paused, oldestAt))
  }

  lemma {:induction false} BatchGrows(entries: seq<Entry>, n: nat, at: nat, paused: bool, oldestAt: nat)
    requires n < |entries|
    ensures Batch(entries[..n + 1], at, paused, oldestAt)
         == Batch(entries[..n], at, paused, oldestAt) + [Commit(entries[n].token, at, true, paused, oldestAt)]
  {
  }

  lemma {:induction false} EmptyBatch(none: seq<Entry>, at: nat, paused: bool, oldestAt: nat)
    requires none == []
    ensures Batch(none, at, paused, oldestAt) == []
  {
  }

  lemma {:induction false} BatchKeepsOrder(log: seq<Commit>, pending: seq<Entry>, cancelled: set<Token>, issued: Token, clock: nat,
                                           maxHold: nat, n: nat, paused: bool)
    requires Ordered(log, pending, cancelled, issued, clock, maxHold) && n <= |pending| && pending != []
    requires paused ==> pending[0].enqueuedAt + maxHold <= clock
    ensures Ordered(log + Batch(pending[..n], clock, paused, pending[0].enqueuedAt), pending[n..], cancelled, issued, clock, maxHold)
  {
  }

  function Size(entries: seq<Entry>, maxBatch: nat): (n: nat)
    ensures n <= |entries| && n <= maxBatch
  {
    if |entries| < maxBatch then |entries| else maxBatch
  }

  class FrcCommitBuffer {
    const maxHold: nat
    const maxBatch: nat
    var pauseReasons: map<Owner, set<Reason>>
    /** In the order of insertion. */
    var pending: seq<Entry>
    /** Due times of the two timers, when armed. */
    var coalesced: Option<nat>
    var hold: Option<nat>
    /** The environment: the clock, the list, whether it is still listened to, what was committed, and what was cancelled. */
    var clock: nat
    var settled: bool
    var listening: bool
    var issued: Token
    var log: seq<Commit>
    var cancelled: set<Token>

    predicate IsPaused()
      reads this`pauseReasons
    {
      pauseReasons != map[]
    }

    predicate OldestExpired()
      reads this`pending, this`clock
    {
      pending != [] && clock - pending[0].enqueuedAt >= maxHold
    }

    /** A paused buffer that has not reached its ceiling has a timer for it. */
    predicate HoldArmed()
      reads this
    {
      listening && IsPaused() && pending != [] && !OldestExpired() ==> hold.Some?
    }

    /** Over a settled list some timer will look at the buffer again. */
    predicate Covered()
      reads this
    {
      listening && settled && pending != [] ==> coalesced.Some? || (IsPaused() && hold.Some?)
    }

    ghost predicate Valid()
      reads this
    {
      && 1 <= maxBatch
      && Ordered(log, pending, cancelled, issued, clock, maxHold) && (forall token :: token in cancelled ==> token < issued)
      && (hold.Some? ==> IsPaused() && pending != [] && hold.value <= pending[0].enqueuedAt + maxHold)
      && (hold.Some? && cancelled == {} ==> hold.value == pending[0].enqueuedAt + maxHold)
      && (listening && settled && pending != [] && !IsPaused() ==> coalesced.Some?)
      && (cancelled == {} ==> HoldArmed() && Covered())
    }

    constructor (maxHold: nat, maxBatch: nat, settled: bool, clock: nat)
      requires 1 <= maxBatch
      ensures Valid() && this.maxHold == maxHold && this.maxBatch == maxBatch && this.settled == settled && this.clock == clock
      ensures pending == [] && log == [] && cancelled == {} && issued == 0 && listening && !IsPaused() && coalesced.None? && hold.None?
    {
      this.maxHold, this.maxBatch := maxHold, maxBatch;
      this.settled, this.clock, listening := settled, clock, true;
      pauseReasons, pending, coalesced, hold := map[], [], None, None;
      issued, log, cancelled := 0, [], {};
    }

    // ---- Timers ----

    method CancelHoldTimer()
      modifies this`hold
      ensures hold.None?
    {
      hold := None;
    }

    method CancelTimers()
      modifies this`coalesced, this`hold
      ensures coalesced.None? && hold.None?
    {
      coalesced := None;
      CancelHoldTimer();
    }

    method ScheduleCoalesced()
      modifies this`coalesced
      ensures coalesced == if old(coalesced).Some? || pending == [] then old(coalesced) else Some(clock + COALESCE_DELAY)
    {
      if coalesced.Some? || pending == [] {
        return;
      }
      coalesced := Some(clock + COALESCE_DELAY);
    }

    /** Past the ceiling the follow-up batches belong to the coalescing timer. */
    method ScheduleHold()
      requires pending != [] ==> pending[0].enqueuedAt <= clock
      modifies this`hold
      ensures hold == if old(hold).Some? || pending == [] || !IsPaused() || OldestExpired() then old(hold)
                      else Some(pending[0].enqueuedAt + maxHold)
    {
      if hold.Some? || pending == [] || !IsPaused() {
        return;
      }
      if OldestExpired() {
        return;
      }
      var remaining := maxHold - (clock - pending[0].enqueuedAt);
      hold := Some(clock + if remaining < 0 then 0 else remaining);
    }

    method ScheduleTimers()
      requires pending != [] ==> pending[0].enqueuedAt <= clock
      modifies this`coalesced, this`hold
      ensures coalesced == if old(coalesced).Some? || pending == [] then old(coalesced) else Some(clock + COALESCE_DELAY)
      ensures hold == if old(hold).Some? || pending == [] || !IsPaused() || OldestExpired() then old(hold)
                      else Some(pending[0].enqueuedAt + maxHold)
    {
      if pending == [] {
        return;
      }
      ScheduleCoalesced();
      if IsPaused() {
        ScheduleHold();
      }
    }

    // ---- Flushing ----

    /** The first entries are committed, at most a batch of them, and the timers are armed for the rest. */
    method FlushBatch()
      requires 1 <= maxBatch && Ordered(log, pending, cancelled, issued, clock, maxHold)
      requires settled && (IsPaused() && pending != [] ==> OldestExpired())
      modifies this`pending, this`log, this`coalesced, this`hold
      ensures Ordered(log, pending, cancelled, issued, clock, maxHold)
      ensures pending == old(pending)[Size(old(pending), maxBatch)..]
      ensures log == old(log) + if old(pending) == [] then []
                                else Batch(old(pending)[..Size(old(pending), maxBatch)], clock, IsPaused(), old(pending)[0].enqueuedAt)
      ensures coalesced == if pending == [] then None else Some(clock + COALESCE_DELAY)
      ensures hold == if pending == [] || !IsPaused() || OldestExpired() then None else Some(pending[0].enqueuedAt + maxHold)
    {
      ghost var (all, n) := (pending, Size(pending, maxBatch));
      CancelTimers();
      if all != [] {
        BatchKeepsOrder(log, pending, cancelled, issued, clock, maxHold, n, IsPaused());
      }
      hide Ordered, Batch;
      CommitBatch();
      FirstIsEnqueued(log, pending, cancelled, issued, clock, maxHold);
      ScheduleTimers();
    }

    /** The loop over the entries. */
    method CommitBatch()
      requires 1 <= maxBatch && settled
      modifies this`pending, this`log
      ensures pending == old(pending)[Size(old(pending), maxBatch)..]
      ensures log == old(log) + if old(pending) == [] then []
                                else Batch(old(pending)[..Size(old(pending), maxBatch)], clock, IsPaused(), old(pending)[0].enqueuedAt)
    {
      hide Batch;
      if pending == [] {
        return;
      }
      var committed, oldestAt := 0, pending[0].enqueuedAt;
      ghost var all := pending;
      EmptyBatch(all[..0], clock, IsPaused(), oldestAt);
      while pending != []
        invariant committed < maxBatch && committed <= |all| && pending == all[committed..]
        invariant log == old(log) + Batch(all[..committed], clock, IsPaused(), oldestAt)
        decreases |pending|
      {
        var entry := pending[0];
        pending := pending[1..];
        BatchGrows(all, committed, clock, IsPaused(), oldestAt);
        log := log + [Commit(entry.token, clock, settled, IsPaused(), oldestAt)];
        committed := committed + 1;
        if committed >= maxBatch {
          break;
        }
      }
    }

    /** What the gates let through now. */
    predicate Open()
      reads this
    {
      settled && pending != [] && (IsPaused() ==> OldestExpired())
    }

    /** The effect of a flush, or of a gate that stayed shut. */
    twostate predicate Flushed(flush: bool)
      reads this
    {
      var n := if flush then Size(old(pending), maxBatch) else 0;
      && pending == old(pending)[n..]
      && log == old(log) + if n == 0 then [] else Batch(old(pending)[..n], clock, IsPaused(), old(pending)[0].enqueuedAt)
    }

    method TryFlush()
      requires 1 <= maxBatch && Ordered(log, pending, cancelled, issued, clock, maxHold)
      modifies this`pending, this`log, this`coalesced, this`hold
      ensures Ordered(log, pending, cancelled, issued, clock, maxHold)
      ensures Flushed(old(Open()))
      ensures !old(Open()) ==> coalesced == old(coalesced) && hold == old(hold)
      ensures old(Open()) ==> coalesced == if pending == [] then None else Some(clock + COALESCE_DELAY)
      ensures old(Open()) ==>
                hold == if pending == [] || !IsPaused() || OldestExpired() then None else Some(pending[0].enqueuedAt + maxHold)
    {
      hide Ordered;
      if !settled || pending == [] {
        return;
      }
      if IsPaused() && !OldestExpired() {
        return;
      }
      FlushBatch();
    }

    method OnPauseChanged()
      requires 1 <= maxBatch && Ordered(log, pending, cancelled, issued, clock, maxHold)
      requires hold.Some? ==> pending != [] && hold.value <= pending[0].enqueuedAt + maxHold
      requires hold.Some? && cancelled == {} ==> hold.value == pending[0].enqueuedAt + maxHold
      requires forall token :: token in cancelled ==> token < issued
      modifies this`pending, this`log, this`coalesced, this`hold
      ensures Valid()
      ensures Flushed(settled && !IsPaused())
      ensures HoldArmed() && Covered()
    {
      hide Ordered;
      FirstIsEnqueued(log, pending, cancelled, issued, clock, maxHold);
      if IsPaused() {
        ScheduleTimers();
        return;
      }
      CancelHoldTimer();
      if settled {
        FlushBatch();
      } else {
        ScheduleCoalesced();
      }
    }

    // ---- What the callers do ----

    /** Commits at once when nothing stands in the way and nobody waits; otherwise the commit takes its place in line. */
    method Enqueue() returns (token: Token)
      requires Valid()
      modifies this`pending, this`log, this`coalesced, this`hold, this`issued
      ensures Valid() && token == old(issued) && issued == old(issued) + 1
      ensures var all := old(pending) + [Entry(token, clock)];
              if settled && !IsPaused() && old(pending) == [] then
                log == old(log) + [Commit(token, clock, true, false, clock)] && pending == []
              else if settled && !IsPaused() then
                pending == all[Size(all, maxBatch)..]
                && log == old(log) + Batch(all[..Size(all, maxBatch)], clock, false, all[0].enqueuedAt)
              else log == old(log) && pending == all
      ensures !(settled && !IsPaused()) ==>
                coalesced == (if old(coalesced).Some? then old(coalesced) else Some(clock + COALESCE_DELAY))
                && hold == if old(hold).Some? || !IsPaused() || OldestExpired() then old(hold)
                           else Some(pending[0].enqueuedAt + maxHold)
      ensures old(HoldArmed()) ==> HoldArmed()
      ensures old(HoldArmed() && Covered()) ==> Covered()
    {
      hide Ordered, Batch, Size;
      token := issued;
      issued := issued + 1;
      OneMoreIssued(log, pending, cancelled, token, clock, maxHold);
      if settled && !IsPaused() && pending == [] {
        log := log + [Commit(token, clock, settled, IsPaused(), clock)];
        return;
      }
      JoinLine(token);
    }

    /** The commit waits behind the others, if only for the others of its batch. */
    method JoinLine(token: Token)
      requires 1 <= maxBatch && Ordered(log, pending + [Entry(token, clock)], cancelled, issued, clock, maxHold)
      requires forall t :: t in cancelled ==> t < issued
      requires hold.Some? ==> IsPaused() && pending != [] && hold.value <= pending[0].enqueuedAt + maxHold
      requires hold.Some? && cancelled == {} ==> hold.value == pending[0].enqueuedAt + maxHold
      modifies this`pending, this`log, this`coalesced, this`hold
      ensures Valid() && HoldArmed() && Covered()
      ensures var all := old(pending) + [Entry(token, clock)];
              if settled && !IsPaused() then
                pending == all[Size(all, maxBatch)..]
                && log == old(log) + Batch(all[..Size(all, maxBatch)], clock, false, all[0].enqueuedAt)
              else log == old(log) && pending == all
      ensures !(settled && !IsPaused()) ==>
                coalesced == (if old(coalesced).Some? then old(coalesced) else Some(clock + COALESCE_DELAY))
                && hold == if old(hold).Some? || !IsPaused() || OldestExpired() then old(hold)
                           else Some(pending[0].enqueuedAt + maxHold)
    {
      hide Ordered, Batch;
      ghost var first := if pending == [] then clock else pending[0].enqueuedAt;
      pending := pending + [Entry(token, clock)];
      assert pending[0].enqueuedAt == first;
      FirstIsEnqueued(log, pending, cancelled, issued, clock, maxHold);
      if !IsPaused() && settled {
        FlushBatch();
      } else {
        ScheduleTimers();
      }
    }

    /** The handle `Enqueue` returned is called: an entry still waiting leaves the line. */
    method Cancel(token: Token)
      requires Valid()
      modifies this`pending, this`coalesced, this`hold, this`cancelled
      ensures Valid() && log == old(log)
      ensures cancelled == old(cancelled) + if Waits(old(pending), token) then {token} else {}
      ensures !Waits(pending, token) && (forall e :: e in pending <==> e in old(pending) && e.token != token)
      ensures old(pending) != [] && old(pending)[0].token == token ==> pending == old(pending)[1..]
      ensures pending != [] ==> coalesced == old(coalesced) && (old(hold).Some? ==> hold == old(hold))
      ensures old(HoldArmed()) ==> HoldArmed()
      ensures old(HoldArmed() && Covered()) ==> Covered()
    {
      hide Ordered;
      var i := 0;
      while i < |pending| && pending[i].token != token
        invariant i <= |pending| && forall k :: 0 <= k < i ==> pending[k].token != token
      {
        i := i + 1;
      }
      if i == |pending| {
        return;
      }
      OneLess(log, pending, cancelled, issued, clock, maxHold, i);
      cancelled := cancelled + {token};
      pending := pending[..i] + pending[i + 1..];
      FirstIsEnqueued(log, pending, cancelled, issued, clock, maxHold);
      if pending == [] {
        CancelTimers();
      } else if IsPaused() {
        ScheduleHold();
      }
    }

    method SetPaused(owner: Owner, reason: Reason, paused: bool)
      requires Valid()
      modifies this`pauseReasons, this`pending, this`log, this`coalesced, this`hold
      ensures Valid()
      ensures paused ==> owner in pauseReasons && reason in pauseReasons[owner]
      ensures !paused ==> (owner in pauseReasons ==> reason !in pauseReasons[owner])
      ensures Flushed(!paused && settled && !IsPaused())
      ensures paused && old(pending) == [] ==> coalesced == old(coalesced) && hold == old(hold)
      ensures old(HoldArmed()) ==> HoldArmed()
      ensures old(HoldArmed() && Covered()) ==> Covered()
    {
      FirstIsEnqueued(log, pending, cancelled, issued, clock, maxHold);
      hide Ordered;
      var reasons := if owner in pauseReasons then pauseReasons[owner] else {};
      if paused {
        pauseReasons := pauseReasons[owner := reasons + {reason}];
        ScheduleTimers();
        return;
      }
      if reasons - {reason} == {} {
        pauseReasons := pauseReasons - {owner};
      } else {
        pauseReasons := pauseReasons[owner := reasons - {reason}];
      }
      OnPauseChanged();
    }

    method ClearPauseOwner(owner: Owner)
      requires Valid()
      modifies this`pauseReasons, this`pending, this`log, this`coalesced, this`hold
      ensures Valid() && pauseReasons == old(pauseReasons) - {owner}
      ensures Flushed(owner in old(pauseReasons) && settled && !IsPaused())
      ensures old(HoldArmed()) ==> HoldArmed()
      ensures old(HoldArmed() && Covered()) ==> Covered()
    {
      hide Ordered;
      if owner !in pauseReasons {
        assert pauseReasons - {owner} == pauseReasons;
        return;
      }
      pauseReasons := pauseReasons - {owner};
      OnPauseChanged();
    }

    /** Nothing waiting is committed any more. */
    method Dispose()
      requires Valid()
      modifies this`pauseReasons, this`pending, this`coalesced, this`hold, this`listening
      ensures Valid() && pending == [] && !IsPaused() && !listening && HoldArmed() && Covered()
    {
      listening := false;
      CancelTimers();
      pending := [];
      pauseReasons := map[];
    }

    // ---- What the list, the clock and the timers do ----

    method SetSettled(now: bool)
      requires Valid()
      modifies this`settled, this`pending, this`log, this`coalesced, this`hold
      ensures Valid() && settled == now
      ensures Flushed(now && listening && old(pending) != [] && (IsPaused() ==> old(OldestExpired())))
      ensures IsPaused() && !OldestExpired() && pending == old(pending) ==> coalesced == old(coalesced) && hold == old(hold)
      ensures old(HoldArmed()) ==> HoldArmed()
      ensures old(HoldArmed() && Covered()) ==> Covered()
    {
      hide Ordered;
      settled := now;
      if now && listening {
        TryFlush();
      }
    }

    method Tick(time: nat)
      requires Valid() && clock <= time
      modifies this`clock
      ensures Valid() && clock == time
      ensures old(HoldArmed()) ==> HoldArmed()
      ensures old(HoldArmed() && Covered()) ==> Covered()
    {
      Later(log, pending, cancelled, issued, clock, time, maxHold);
      hide Ordered;
      clock := time;
    }

    method FireCoalesced()
      requires Valid() && coalesced.Some? && coalesced.value <= clock
      modifies this`pending, this`log, this`coalesced, this`hold
      ensures Valid() && Flushed(old(Open()))
      ensures !old(Open()) ==> coalesced.None? && hold == old(hold)
      ensures old(HoldArmed()) ==> HoldArmed()
      ensures old(HoldArmed() && Covered()) ==> Covered()
    {
      hide Ordered;
      coalesced := None;
      TryFlush();
    }

    /** The hold timer goes off over an unsettled list for an entry that has been cancelled since. */
    predicate Misfires()
      reads this
    {
      listening && !settled && IsPaused() && pending != [] && !OldestExpired()
    }

    /** The ceiling is lost exactly when the timer misfires: it is not armed again for the entry now in front. */
    method FireHold()
      requires Valid() && hold.Some? && hold.value <= clock
      modifies this`pending, this`log, this`coalesced, this`hold
      ensures Valid() && Flushed(old(Open()))
      ensures HoldArmed() <==> !old(Misfires())
      ensures !settled ==> hold.None? && coalesced == old(coalesced)
      ensures old(Misfires()) ==> cancelled != {}
      ensures old(HoldArmed() && Covered()) ==> Covered()
    {
      hide Ordered, Batch, Size;
      FirstIsEnqueued(log, pending, cancelled, issued, clock, maxHold);
      hold := None;
      TryFlush();
      FirstIsEnqueued(log, pending, cancelled, issued, clock, maxHold);
      if settled && IsPaused() && pending != [] {
        ScheduleHold();
      }
    }
  }

  lemma {:induction false} FirstIsEnqueued(log: seq<Commit>, pending: seq<Entry>, cancelled: set<Token>, issued: Token, clock: nat,
                                           maxHold: nat)
    requires Ordered(log, pending, cancelled, issued, clock, maxHold)
    ensures pending != [] ==> pending[0].enqueuedAt <= clock
  {
  }

  predicate Waits(pending: seq<Entry>, token: Token) {
    exists i :: 0 <= i < |pending| && pending[i].token == token
  }

  lemma {:induction false} OneMoreIssued(log: seq<Commit>, pending: seq<Entry>, cancelled: set<Token>, token: Token, clock: nat, maxHold: nat)
    requires Ordered(log, pending, cancelled, token, clock, maxHold) && forall t :: t in cancelled ==> t < token
    ensures Ordered(log, pending + [Entry(token, clock)], cancelled, token + 1, clock, maxHold)
    ensures pending == [] ==> Ordered(log + [Commit(token, clock, true, false, clock)], [], cancelled, token + 1, clock, maxHold)
  {
  }

  lemma {:induction false} OneLess(log: seq<Commit>, pending: seq<Entry>, cancelled: set<Token>, issued: Token, clock: nat, maxHold: nat,
                                   i: nat)
    requires Ordered(log, pending, cancelled, issued, clock, maxHold) && i < |pending|
    ensures var rest := pending[..i] + pending[i + 1..];
            && Ordered(log, rest, cancelled + {pending[i].token}, issued, clock, maxHold)
            && !Waits(rest, pending[i].token) && (forall e :: e in rest <==> e in pending && e.token != pending[i].token)
            && (rest != [] ==> pending[0].enqueuedAt <= rest[0].enqueuedAt) && pending[i].token < issued
  {
    var rest := pending[..i] + pending[i + 1..];
    RemovedOne(pending, i);
    hide Waits, Allowed;
    forall k | 0 <= k < |rest|
      ensures rest[k] == pending[if k < i then k else k + 1]
    {
    }
    RestOrdered(pending, rest, i);
  }

  lemma {:induction false} RestOrdered(pending: seq<Entry>, rest: seq<Entry>, i: nat)
    requires i < |pending| && |rest| == |pending| - 1
    requires forall k :: 0 <= k < |rest| ==> rest[k] == pending[if k < i then k else k + 1]
    requires forall k, j :: 0 <= k < j < |pending| ==> pending[k].token < pending[j].token
    requires forall k, j :: 0 <= k < j < |pending| ==> pending[k].enqueuedAt <= pending[j].enqueuedAt
    ensures forall k, j :: 0 <= k < j < |rest| ==> rest[k].token < rest[j].token
    ensures forall k, j :: 0 <= k < j < |rest| ==> rest[k].enqueuedAt <= rest[j].enqueuedAt
    ensures forall k :: 0 <= k < |rest| ==> rest[k] in pending && rest[k].token != pending[i].token
  {
    forall k | 0 <= k < |rest|
      ensures rest[k] in pending && rest[k].token != pending[i].token
    {
      var j := if k < i then k else k + 1;
      assert rest[k] == pending[j];
      if j < i {
        assert pending[j].token < pending[i].token;
      } else {
        assert pending[i].token < pending[j].token;
      }
    }
  }

  lemma {:induction false} RemovedOne(pending: seq<Entry>, i: nat)
    requires i < |pending| && forall k, j :: 0 <= k < j < |pending| ==> pending[k].token < pending[j].token
    ensures var rest := pending[..i] + pending[i + 1..];
            !Waits(rest, pending[i].token) && (forall e :: e in rest <==> e in pending && e.token != pending[i].token)
  {
    var rest := pending[..i] + pending[i + 1..];
    assert forall k :: 0 <= k < |rest| ==> rest[k] == if k < i then pending[k] else pending[k + 1];
    forall e | e in pending && e.token != pending[i].token
      ensures e in rest
    {
      var k :| 0 <= k < |pending| && pending[k] == e;
      assert rest[if k < i then k else k - 1] == e;
    }
  }

  lemma {:induction false} Later(log: seq<Commit>, pending: seq<Entry>, cancelled: set<Token>, issued: Token, clock: nat, time: nat,
                                 maxHold: nat)
    requires Ordered(log, pending, cancelled, issued, clock, maxHold) && clock <= time
    ensures Ordered(log, pending, cancelled, issued, time, maxHold)
  {
  }

  /** Two commits, a second apart, wait under a pause while the list moves. */
  method TwoHeld() returns (b: FrcCommitBuffer)
    ensures fresh(b) && b.Valid() && !b.settled && b.listening && b.IsPaused() && b.clock == 1000 && b.maxHold == 1500
    ensures b.pending == [Entry(0, 0), Entry(1, 1000)] && b.hold == Some(1500) && b.coalesced == Some(1080)
  {
    hide Ordered, Batch, FrcCommitBuffer.Valid, FrcCommitBuffer.HoldArmed, FrcCommitBuffer.Covered;
    b := new FrcCommitBuffer(1500, 8, false, 0);
    b.SetPaused(0, Drag, true);
    assert b.IsPaused() && b.pending == [];
    var older := b.Enqueue();
    assert b.pending == [Entry(0, 0)] && b.hold == Some(1500) && b.coalesced == Some(80);
    b.Tick(1000);
    b.FireCoalesced();
    assert b.pending == [Entry(0, 0)] && b.hold == Some(1500) && b.coalesced.None?;
    var younger := b.Enqueue();
  }

  /**
   * The older of the two is cancelled, so that the hold timer goes off early for the younger, over a moving list. Later
   * the list has settled, the ceiling is long past, and no timer will ever look at the buffer again.
   */
  method OverdueForEver() returns (b: FrcCommitBuffer)
    ensures b.Valid() && b.settled && b.listening && b.OldestExpired() && b.IsPaused()
    ensures b.coalesced.None? && b.hold.None? && b.pending == [Entry(1, 1000)]
  {
    hide Ordered, Batch, FrcCommitBuffer.Valid, FrcCommitBuffer.HoldArmed, FrcCommitBuffer.Covered;
    b := TwoHeld();
    b.Cancel(0);
    assert b.pending == [Entry(1, 1000)];
    b.Tick(1500);
    b.FireCoalesced();
    b.FireHold();
    b.SetSettled(true);
    b.Tick(9000);
  }
}
