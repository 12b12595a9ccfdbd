/** The bench of chat windows assembled before they are opened: who is started, retried, closed, and mounted. */
module WarmBench {
  import opened Outcome
  import opened WarmSelection

  /** Route parameters: the object, and what it says. */
  datatype Params = Params(identity: nat, content: string)
  datatype WarmEntry = WarmEntry(params: Params, closed: bool, yielded: bool, started: bool, attempt: nat)
  datatype ChatWarmSlot = ChatWarmSlot(id: Id, params: Params, attempt: nat, closed: bool)
  datatype Target = Target(id: Id, params: Params)
  datatype Phase = Idle | Parked | PlayWait | Playing

  type Entries = map<Id, WarmEntry>

  /** What besides the bench decides a pump: `parked` is the chat under the finger. */
  datatype World = World(skipMotion: bool, slideBusy: bool, assembly: bool, cold: bool, parked: Option<Id>,
                         cached: set<Id>, held: set<Id>)

  function Most(a: nat, b: nat): nat {
    if a < b then b else a
  }

  function Live(entries: Entries): set<Id> {
    set id | id in entries && entries[id].started && !entries[id].closed
  }

  function InFlight(order: seq<Id>, entries: Entries): seq<Id> {
    if order == [] then []
    else
      var (most, last) := (InFlight(order[..|order| - 1], entries), order[|order| - 1]);
      if last in entries && entries[last].started && !entries[last].closed && !entries[last].yielded then most + [last] else most
  }

  function FingerOf(entries: Entries, w: World): Option<Id> {
    if w.parked.Some? && w.parked.value in entries && entries[w.parked.value].closed then None else w.parked
  }

  function Listed(order: seq<Id>, pages: set<Id>): set<Id> {
    set id | id in order && id in pages
  }

  function ClosedIds(entries: Entries): set<Id> {
    set id | id in entries && entries[id].closed
  }

  function YieldedIds(entries: Entries): set<Id> {
    set id | id in entries && entries[id].yielded
  }

  function RetryIds(entries: Entries): set<Id> {
    set id | id in entries && entries[id].yielded && entries[id].attempt < RETRY_MAX
  }

  function QueryOf(order: seq<Id>, entries: Entries, w: World): Query {
    var finger := FingerOf(entries, w);
    Query(order, Listed(order, w.cached), ClosedIds(entries), YieldedIds(entries), InFlight(order, entries), false,
          w.assembly || finger.Some?, finger, w.cold, Listed(order, w.held), RetryIds(entries), PARALLEL)
  }

  /** A selected chat gets its slot back, or is started while windows are few. */
  function Turn(entries: Entries, id: Id, finger: Option<Id>): (after: Entries)
    ensures after.Keys == entries.Keys
  {
    if id !in entries then entries
    else if entries[id].yielded then entries[id := entries[id].(yielded := false, attempt := entries[id].attempt + 1)]
    else if entries[id].started || (|Live(entries)| >= LIVE_MAX && finger != Some(id)) then entries
    else entries[id := entries[id].(started := true)]
  }

  function Handed(entries: Entries, ids: seq<Id>, finger: Option<Id>): (after: Entries)
    ensures after.Keys == entries.Keys
  {
    if ids == [] then entries else Turn(Handed(entries, ids[..|ids| - 1], finger), ids[|ids| - 1], finger)
  }

  predicate Pumps(entries: Entries, w: World) {
    !w.skipMotion && !w.slideBusy && (w.assembly || FingerOf(entries, w).Some?)
  }

  /** The bench after a pump. */
  function Pumped(entries: Entries, order: seq<Id>, w: World): (after: Entries)
    ensures after.Keys == entries.Keys
  {
    if Pumps(entries, w) then Handed(entries, Selected(QueryOf(order, entries, w)), FingerOf(entries, w)) else entries
  }

  function Slots(order: seq<Id>, entries: Entries): seq<ChatWarmSlot> {
    if order == [] then []
    else
      var (most, last) := (Slots(order[..|order| - 1], entries), order[|order| - 1]);
      if last in entries && entries[last].started
      then most + [ChatWarmSlot(last, entries[last].params, entries[last].attempt, entries[last].closed)]
      else most
  }

  /** A window that is closed has started and has not given its slot up, and no slot is handed out too often. */
  predicate Kept(e: WarmEntry) {
    !(e.closed && e.yielded) && (e.closed ==> e.started) && e.attempt <= RETRY_MAX
  }

  /** The order lists every tracked chat once, and nothing else. */
  ghost predicate Sound(entries: Entries, order: seq<Id>) {
    && "" !in entries && Distinct(order) && (forall id :: id in order <==> id in entries)
    && forall id :: id in entries ==> Kept(entries[id])
  }

  /** Nothing a tracked chat has reached is taken back while it is tracked. */
  ghost predicate Lasts(before: Entries, after: Entries) {
    forall id :: id in before && id in after ==>
      && (before[id].closed ==> after[id].closed) && (before[id].started ==> after[id].started)
      && before[id].attempt <= after[id].attempt
  }

  predicate ParkedStarted(entries: Entries, parked: Option<Id>) {
    parked.Some? ==> parked.value in entries && entries[parked.value].started
  }

  // ---- What a pump does ----

  lemma {:induction false} InFlightHas(order: seq<Id>, entries: Entries, id: Id)
    ensures id in InFlight(order, entries) <==>
              id in order && id in entries && entries[id].started && !entries[id].closed && !entries[id].yielded
    decreases |order|
  {
    if order != [] {
      InFlightHas(order[..|order| - 1], entries, id);
      assert order == order[..|order| - 1] + [order[|order| - 1]];
    }
  }

  lemma {:induction false} LiveMore(entries: Entries, id: Id)
    requires id in entries && !entries[id].started && !entries[id].closed
    ensures |Live(entries[id := entries[id].(started := true)])| == |Live(entries)| + 1
  {
    assert Live(entries[id := entries[id].(started := true)]) == Live(entries) + {id};
  }

  lemma {:induction false} LiveSame(entries: Entries, id: Id, e: WarmEntry)
    requires id in entries && e.started == entries[id].started && e.closed == entries[id].closed
    ensures Live(entries[id := e]) == Live(entries)
  {
  }

  /** Each selected chat has one turn, and the chats that are not selected are untouched. */
  lemma {:induction false} HandedTo(entries: Entries, ids: seq<Id>, finger: Option<Id>, id: Id)
    requires Distinct(ids) && id in entries
    ensures var h := Handed(entries, ids, finger);
            && (id !in ids ==> h[id] == entries[id])
            && (id in ids && entries[id].yielded ==>
                  h[id] == entries[id].(yielded := false, attempt := entries[id].attempt + 1))
            && (id in ids && !entries[id].yielded ==> h[id] == entries[id] || h[id] == entries[id].(started := true))
    decreases |ids|
  {
    hide Live;
    if ids != [] {
      var most := ids[..|ids| - 1];
      HandedTo(entries, most, finger, id);
      assert ids == most + [ids[|ids| - 1]];
    }
  }

  /** The windows in the tree grow to the limit at most, if the finger's chat is among them already. */
  lemma {:induction false} HandedFits(entries: Entries, ids: seq<Id>, finger: Option<Id>)
    requires Distinct(ids) && ParkedStarted(entries, finger) && forall id :: id in entries ==> Kept(entries[id])
    ensures |Live(Handed(entries, ids, finger))| <= Most(|Live(entries)|, LIVE_MAX)
    ensures |Live(entries)| <= |Live(Handed(entries, ids, finger))|
    decreases |ids|
  {
    if ids != [] {
      var (most, last) := (ids[..|ids| - 1], ids[|ids| - 1]);
      HandedFits(entries, most, finger);
      var h := Handed(entries, most, finger);
      if last in h {
        HandedTo(entries, most, finger, last);
        if h[last].yielded {
          LiveSame(h, last, h[last].(yielded := false, attempt := h[last].attempt + 1));
        } else if !h[last].started {
          LiveMore(h, last);
        }
      }
      hide Live;
    }
  }

  /** A selected chat that was neither started nor given up is started, unless the tree is full. */
  lemma {:induction false} HandedServes(entries: Entries, ids: seq<Id>, finger: Option<Id>, id: Id)
    requires Distinct(ids) && ParkedStarted(entries, finger) && forall i :: i in entries ==> Kept(entries[i])
    requires id in ids && id in entries && !entries[id].yielded
    ensures var h := Handed(entries, ids, finger); h[id].started || |Live(h)| >= LIVE_MAX
    decreases |ids|
  {
    var (most, last) := (ids[..|ids| - 1], ids[|ids| - 1]);
    assert ids == most + [last];
    HandedTo(entries, most, finger, id);
    var h := Handed(entries, most, finger);
    if id in most {
      HandedServes(entries, most, finger, id);
      if last in h {
        HandedTo(entries, most, finger, last);
        if h[last].yielded {
          LiveSame(h, last, h[last].(yielded := false, attempt := h[last].attempt + 1));
        } else if !h[last].started {
          LiveMore(h, last);
        }
      }
    }
    hide Live;
  }

  /** Whom the pump selects: open, and given up only if another attempt is left. */
  lemma {:induction false} PumpSelects(entries: Entries, order: seq<Id>, w: World, id: Id)
    requires id in Selected(QueryOf(order, entries, w))
    ensures id in entries ==> !entries[id].closed
    ensures id in entries && entries[id].yielded ==> entries[id].attempt < RETRY_MAX && id in w.cached
  {
    SelectedIs(QueryOf(order, entries, w), id);
    hide Selected, InFlight, FingerOf;
  }

  lemma {:induction false} PumpDistinct(entries: Entries, order: seq<Id>, w: World)
    ensures Distinct(Selected(QueryOf(order, entries, w)))
  {
    SelectionFits(QueryOf(order, entries, w));
    hide Selected, InFlight, FingerOf;
  }

  /** A pump keeps the bench sound, takes nothing back, and does not fill the tree past its limit. */
  lemma {:induction false} PumpKeeps(entries: Entries, order: seq<Id>, w: World)
    requires Sound(entries, order) && ParkedStarted(entries, w.parked)
    ensures var after := Pumped(entries, order, w);
            && Sound(after, order) && Lasts(entries, after)
            && |Live(after)| <= Most(|Live(entries)|, LIVE_MAX)
            && forall id :: id in entries ==> after[id].closed == entries[id].closed && after[id].params == entries[id].params
  {
    var after := Pumped(entries, order, w);
    var (ids, finger) := (Selected(QueryOf(order, entries, w)), FingerOf(entries, w));
    PumpDistinct(entries, order, w);
    HandedFits(entries, ids, finger);
    hide Selected, QueryOf, Handed, Live;
    forall id | id in entries
      ensures Kept(after[id]) && after[id].closed == entries[id].closed && after[id].params == entries[id].params
      ensures (entries[id].started ==> after[id].started) && entries[id].attempt <= after[id].attempt
    {
      HandedTo(entries, ids, finger, id);
      if id in ids {
        PumpSelects(entries, order, w, id);
      }
    }
  }

  /**
   * The pump touches a chat whose page is not cached only when the window of every cached chat of the list is closed,
   * and never while the page is held.
   */
  lemma {:induction false} PumpPrefersCached(entries: Entries, order: seq<Id>, w: World, id: Id)
    requires Sound(entries, order) && ParkedStarted(entries, w.parked)
    requires id in entries && Pumped(entries, order, w)[id] != entries[id] && id !in w.cached
    ensures w.cold && id !in w.held && forall other :: other in order && other in w.cached ==> entries[other].closed
  {
    var q := QueryOf(order, entries, w);
    PumpDistinct(entries, order, w);
    HandedTo(entries, Selected(q), FingerOf(entries, w), id);
    PumpSelects(entries, order, w, id);
    InFlightHas(order, entries, id);
    ColdStartsLast(q, id);
    hide Selected, Handed;
    forall other | other in order && other in w.cached
      ensures entries[other].closed
    {
      assert other in q.cached;
      assert !CachedOpen(q) ==> other in q.closed;
    }
  }

  /** A slot goes to a second attempt only if every cached chat on its first attempt is served by then. */
  lemma {:induction false} PumpRetriesLast(entries: Entries, order: seq<Id>, w: World, id: Id, other: Id)
    requires Sound(entries, order) && ParkedStarted(entries, w.parked) && w.parked != Some(id)
    requires id in entries && Pumped(entries, order, w)[id].attempt > entries[id].attempt
    requires other in order && other in w.cached && !entries[other].closed && !entries[other].yielded
    ensures var after := Pumped(entries, order, w); after[other].started || |Live(after)| >= LIVE_MAX
  {
    var q := QueryOf(order, entries, w);
    PumpDistinct(entries, order, w);
    HandedTo(entries, Selected(q), FingerOf(entries, w), id);
    RetriesLast(q, id, other);
    HandedServes(entries, Selected(q), FingerOf(entries, w), other);
    hide Selected, Handed, Live;
  }

  /** After a pump no cached chat waits for its first attempt while a slot is free. */
  lemma {:induction false} PumpLeavesNoneIdle(entries: Entries, order: seq<Id>, w: World, id: Id)
    requires Sound(entries, order) && ParkedStarted(entries, w.parked) && Pumps(entries, w)
    requires id in order && id in w.cached && !entries[id].closed && !entries[id].yielded
    ensures var after := Pumped(entries, order, w);
            after[id].started || |Live(after)| >= LIVE_MAX || |Selected(QueryOf(order, entries, w))| >= PARALLEL
  {
    var q := QueryOf(order, entries, w);
    PumpDistinct(entries, order, w);
    NoIdleSlot(q, id);
    if id in Selected(q) {
      HandedServes(entries, Selected(q), FingerOf(entries, w), id);
    }
    hide Selected, Handed, Live;
  }

  // ---- The mounted slots ----

  /** The active window is a started one of the list, so what stays mounted is just what has started. */
  lemma {:induction false} StartedMounted(order: seq<Id>, entries: Entries, started: set<Id>, active: Option<Id>)
    requires "" !in entries && Distinct(order) && forall id :: id in order ==> id in entries
    requires forall id :: id in started <==> id in entries && entries[id].started
    requires active.Some? ==> active.value in started
    ensures var ids := InOrder(order, started, None, active);
            && |ids| == |Slots(order, entries)|
            && (forall i :: 0 <= i < |ids| ==>
                  && ids[i] in entries
                  && Slots(order, entries)[i] == ChatWarmSlot(ids[i], entries[ids[i]].params, entries[ids[i]].attempt, entries[ids[i]].closed))
    decreases |order|
  {
    if order != [] {
      var most := order[..|order| - 1];
      assert order == most + [order[|order| - 1]];
      StartedMounted(most, entries, started, active);
      InOrderHas(most, started, None, active);
    }
  }

  function StartedIds(entries: Entries): set<Id> {
    set id | id in entries && entries[id].started
  }

  lemma {:induction false} MountedSlots(order: seq<Id>, entries: Entries, active: Option<Id>)
    requires Sound(entries, order) && ParkedStarted(entries, active)
    ensures var (ids, slots) := (Mounted(order, StartedIds(entries), None, active), Slots(order, entries));
            && |ids| == |slots|
            && (forall i :: 0 <= i < |ids| ==>
                  && ids[i] in entries
                  && slots[i] == ChatWarmSlot(ids[i], entries[ids[i]].params, entries[ids[i]].attempt, entries[ids[i]].closed))
  {
    StartedMounted(order, entries, StartedIds(entries), active);
    InOrderHas(order, StartedIds(entries), None, active);
    hide InOrder, Slots, Kept;
  }

  // ---- Following the list ----

  function ListOrder(list: seq<Target>): seq<Id> {
    if list == [] then [] else Push(ListOrder(list[..|list| - 1]), list[|list| - 1].id)
  }

  function Fresh(params: Params): WarmEntry {
    WarmEntry(params, false, false, false, 0)
  }

  /** Every listed chat is tracked; new parameters are taken when they say something else. */
  function Refreshed(entries: Entries, list: seq<Target>): Entries {
    if list == [] then entries
    else
      var (most, last) := (list[..|list| - 1], list[|list| - 1]);
      var done := Refreshed(entries, most);
      if last.id == "" || last.id in ListOrder(most) then done
      else if last.id !in done then done[last.id := Fresh(last.params)]
      else if done[last.id].params.content == last.params.content then done
      else done[last.id := done[last.id].(params := last.params)]
  }

  /** In the middle of forgetting: what has not been looked at is still there. */
  function Left(entries: Entries, rest: set<Id>, listed: seq<Id>, active: Option<Id>): Entries {
    map id | id in entries && (id in rest || id in listed || active == Some(id)) :: entries[id]
  }

  lemma {:induction false} LeftMore(entries: Entries, rest: set<Id>, listed: seq<Id>, active: Option<Id>, id: Id)
    requires id in rest && rest <= entries.Keys
    ensures Left(entries, rest - {id}, listed, active) ==
            if id in listed || active == Some(id) then Left(entries, rest, listed, active)
            else Left(entries, rest, listed, active) - {id}
  {
  }

  lemma {:induction false} LeftEnds(entries: Entries, listed: seq<Id>, active: Option<Id>)
    ensures Left(entries, entries.Keys, listed, active) == entries
    ensures Left(entries, {}, listed, active) == Remaining(entries, listed, active)
  {
  }

  function Remaining(entries: Entries, listed: seq<Id>, active: Option<Id>): Entries {
    map id | id in entries && (id in listed || active == Some(id)) :: entries[id]
  }

  /** Chats that left the list are forgotten, but for the parked one, which comes last. */
  function Synced(entries: Entries, list: seq<Target>, active: Option<Id>): Entries {
    var all := Refreshed(entries, list);
    Remaining(all, ListOrder(list), active)
  }

  function SyncedOrder(list: seq<Target>, active: Option<Id>): seq<Id> {
    PushIf(ListOrder(list), active)
  }

  lemma {:induction false} ListOrderHas(list: seq<Target>)
    ensures Distinct(ListOrder(list)) && "" !in ListOrder(list)
    decreases |list|
  {
    if list != [] {
      ListOrderHas(list[..|list| - 1]);
    }
  }

  lemma {:induction false} RefreshedIs(entries: Entries, list: seq<Target>)
    requires "" !in entries && forall id :: id in entries ==> Kept(entries[id])
    ensures var all := Refreshed(entries, list);
            && "" !in all && (forall id :: id in all <==> id in entries || id in ListOrder(list))
            && (forall id :: id in all ==> Kept(all[id]))
            && (forall id :: id in entries ==> all[id] == entries[id].(params := all[id].params))
            && (forall id :: id in all && id !in entries ==> all[id] == Fresh(all[id].params))
    decreases |list|
  {
    hide Kept;
    if list != [] {
      RefreshedIs(entries, list[..|list| - 1]);
      var (done, last) := (Refreshed(entries, list[..|list| - 1]), list[|list| - 1]);
      FreshIsKept(last.params);
      if last.id in done {
        ParamsAreFree(done[last.id], last.params);
      }
    }
  }

  lemma {:induction false} FreshIsKept(params: Params)
    ensures Kept(Fresh(params))
  {
  }

  lemma {:induction false} ParamsAreFree(e: WarmEntry, params: Params)
    ensures Kept(e.(params := params)) <==> Kept(e)
  {
  }

  /** Following the list keeps the bench sound: what stays listed keeps what it has reached, what is new starts afresh. */
  lemma {:induction false} SyncKeeps(entries: Entries, order: seq<Id>, list: seq<Target>, active: Option<Id>)
    requires Sound(entries, order) && ParkedStarted(entries, active)
    ensures var (after, listed) := (Synced(entries, list, active), SyncedOrder(list, active));
            && Sound(after, listed) && ParkedStarted(after, active) && Lasts(entries, after)
            && (forall id :: id in after ==> after[id] == if id in entries then entries[id].(params := after[id].params)
                                                          else Fresh(after[id].params))
            && |Live(after)| <= |Live(entries)|
            && (active.Some? ==> active.value in Refreshed(entries, list) && active.value != "")
  {
    ListOrderHas(list);
    RefreshedIs(entries, list);
    var (after, listed) := (Synced(entries, list, active), SyncedOrder(list, active));
    hide ListOrder, Refreshed;
    assert Live(after) <= Live(entries);
    FewerOrAsMany(Live(after), Live(entries));
  }

  lemma {:induction false} FewerOrAsMany(a: set<Id>, b: set<Id>)
    requires a <= b
    ensures |a| <= |b|
  {
    if a != {} {
      var id :| id in a;
      FewerOrAsMany(a - {id}, b - {id});
    }
  }

  // ---- Taps and reports ----

  /** A tapped chat is started, and tracked first of all if it is new. */
  function Remembered(entries: Entries, id: Id, params: Params): Entries {
    entries[id := if id in entries then entries[id].(params := params, started := true)
                  else WarmEntry(params, false, false, true, 0)]
  }

  function Closed(entries: Entries, id: Option<Id>): Entries {
    if id.None? || id.value !in entries || entries[id.value].closed then entries
    else entries[id.value := entries[id.value].(closed := true, yielded := false, started := true)]
  }

  function Yielded(entries: Entries, id: Id): Entries {
    if id !in entries || entries[id].closed then entries else entries[id := entries[id].(yielded := true)]
  }

  lemma {:induction false} RememberKeeps(entries: Entries, order: seq<Id>, id: Id, params: Params)
    requires Sound(entries, order) && id != ""
    ensures var after := Remembered(entries, id, params);
            && Sound(after, if id in entries then order else [id] + order) && Lasts(entries, after)
            && |Live(after)| <= |Live(entries)| + 1 && ParkedStarted(after, Some(id))
  {
    hide Live, Distinct;
    RememberLive(entries, id, params);
    RememberOrder(entries, order, id);
  }

  lemma {:induction false} RememberLive(entries: Entries, id: Id, params: Params)
    ensures |Live(Remembered(entries, id, params))| <= |Live(entries)| + 1
  {
    var after := Remembered(entries, id, params);
    assert Live(after) == Live(entries) || Live(after) == Live(entries) + {id};
  }

  lemma {:induction false} RememberOrder(entries: Entries, order: seq<Id>, id: Id)
    requires Distinct(order) && (forall k :: k in order <==> k in entries) 
    ensures id !in entries ==> Distinct([id] + order)
  {
    assert id !in entries ==> forall k :: 0 <= k < |order| ==> order[k] in order && order[k] != id;
  }

  lemma {:induction false} ClosedKeeps(entries: Entries, order: seq<Id>, id: Option<Id>)
    requires Sound(entries, order)
    ensures Sound(Closed(entries, id), order) && Lasts(entries, Closed(entries, id))
    ensures |Live(Closed(entries, id))| <= |Live(entries)|
  {
    assert Live(Closed(entries, id)) <= Live(entries);
    FewerOrAsMany(Live(Closed(entries, id)), Live(entries));
  }

  lemma {:induction false} YieldedKeeps(entries: Entries, order: seq<Id>, id: Id)
    requires Sound(entries, order)
    ensures Sound(Yielded(entries, id), order) && Lasts(entries, Yielded(entries, id))
    ensures Live(Yielded(entries, id)) == Live(entries) && Slots(order, Yielded(entries, id)) == Slots(order, entries)
  {
    YieldedSlots(order, entries, id);
  }

  lemma {:induction false} YieldedSlots(order: seq<Id>, entries: Entries, id: Id)
    ensures Slots(order, Yielded(entries, id)) == Slots(order, entries)
    decreases |order|
  {
    if order != [] {
      YieldedSlots(order[..|order| - 1], entries, id);
    }
  }

  lemma {:induction false} LastsSame(entries: Entries)
    ensures Lasts(entries, entries)
  {
  }

  lemma {:induction false} StaysClosed(before: Entries, after: Entries, id: Id)
    requires Lasts(before, after) && id in before && id in after && before[id].closed
    ensures after[id].closed
  {
  }

  lemma {:induction false} LastsOn(a: Entries, b: Entries, c: Entries)
    requires Lasts(a, b) && Lasts(b, c) && c.Keys == b.Keys
    ensures Lasts(a, c)
  {
  }

  /** Every chat that gave its slot up has its window in the tree, so another attempt needs no new window. */
  ghost predicate Mounting(entries: Entries) {
    forall id :: id in entries && entries[id].yielded ==> entries[id].started
  }

  /** That holds for as long as only started windows report a passed deadline, and breaks with the first other report. */
  lemma {:induction false} ReportsMount(entries: Entries, id: Id)
    requires Mounting(entries)
    ensures Mounting(Yielded(entries, id)) <==> (id in entries && !entries[id].closed ==> entries[id].started)
  {
    if id in entries && !entries[id].closed {
      assert Yielded(entries, id)[id].yielded;
    }
  }

  /** A pump keeps it, and while it holds a second attempt leaves the number of windows as it is. */
  lemma {:induction false} RetriesMount(entries: Entries, order: seq<Id>, w: World, id: Id)
    requires Sound(entries, order) && ParkedStarted(entries, w.parked) && Mounting(entries)
    ensures Mounting(Pumped(entries, order, w))
    ensures id in entries && Pumped(entries, order, w)[id].attempt > entries[id].attempt ==> id in Live(entries)
  {
    var (ids, finger) := (Selected(QueryOf(order, entries, w)), FingerOf(entries, w));
    PumpDistinct(entries, order, w);
    hide Selected, QueryOf, Handed;
    forall i | i in entries
      ensures Pumped(entries, order, w)[i].yielded ==> entries[i].yielded
      ensures entries[i].started ==> Pumped(entries, order, w)[i].started
      ensures Pumped(entries, order, w)[i].attempt > entries[i].attempt ==> entries[i].yielded
    {
      HandedTo(entries, ids, finger, i);
    }
  }

  datatype ParkResult = Skipped | Same | NowParked

  class ChatWarmBench {
    var warmById: Entries
    var warmOrder: seq<Id>
    /** The published slots, and how often the listeners were woken. */
    var warmSnap: seq<ChatWarmSlot>
    var woken: nat
    var assemblyEnabled: bool
    var coldAllowed: bool
    var coldTimer: bool
    var parkPhase: Phase
    var parkedUuid: Option<Id>
    var exitOffEdge: bool
    var shellPushed: bool
    var enterStarted: bool
    var slideHold: bool
    /** The environment: reduced motion, an exit under way, and which chats have their pages. */
    var skipMotion: bool
    var exiting: bool
    var cached: set<Id>
    var held: set<Id>

    ghost predicate Ready()
      reads this`warmById, this`warmOrder, this`parkPhase, this`parkedUuid
    {
      && Sound(warmById, warmOrder) && (parkPhase.Idle? <==> parkedUuid.None?)
      && ParkedStarted(warmById, parkedUuid)
    }

    /** What holds between calls: the published slots are the started windows of the list, in its order. */
    ghost predicate Valid()
      reads this`warmById, this`warmOrder, this`warmSnap, this`parkPhase, this`parkedUuid,
            this`assemblyEnabled, this`coldAllowed, this`coldTimer
    {
      && Ready() && warmSnap == Slots(warmOrder, warmById)
      && (coldTimer <==> assemblyEnabled && !coldAllowed)
    }

    function Parked(): Option<Id>
      reads this`parkPhase, this`parkedUuid
    {
      if parkPhase.Parked? || parkPhase.PlayWait? then parkedUuid else None
    }

    predicate SlideOccupies()
      reads this`exiting, this`parkPhase, this`shellPushed, this`enterStarted, this`slideHold, this`exitOffEdge
    {
      exiting || (parkPhase.Playing? && !shellPushed && (enterStarted || slideHold || !exitOffEdge))
    }

    function Now(): World
      reads this`exiting, this`parkPhase, this`parkedUuid, this`shellPushed, this`enterStarted, this`slideHold, this`exitOffEdge,
            this`skipMotion, this`assemblyEnabled, this`coldAllowed, this`cached, this`held
    {
      World(skipMotion, SlideOccupies(), assemblyEnabled, coldAllowed, Parked(), cached, held)
    }

    constructor ()
      ensures Valid() && warmById == map[] && warmOrder == [] && parkPhase == Idle && !assemblyEnabled && !coldAllowed
    {
      warmById, warmOrder, warmSnap, woken := map[], [], [], 0;
      assemblyEnabled, coldAllowed, coldTimer := false, false, false;
      parkPhase, parkedUuid := Idle, None;
      exitOffEdge, shellPushed, enterStarted, slideHold := true, false, false, false;
      skipMotion, exiting, cached, held := true, false, {}, {};
    }

    /** The slots as the tree has them; every mounted chat has an entry, so the overlay's parameters are never needed. */
    method RebuildWarmSnap() returns (slots: seq<ChatWarmSlot>)
      requires Ready()
      ensures slots == Slots(warmOrder, warmById)
    {
      hide Sound, Slots, Mounted, ParkedStarted;
      var started := StartedIds(warmById);
      var active := if parkPhase.Idle? then None else parkedUuid;
      var ids := ChatWarmMountedIds(warmOrder, started, None, active);
      MountedSlots(warmOrder, warmById, active);
      slots := [];
      for i := 0 to |ids|
        invariant slots == Slots(warmOrder, warmById)[..i]
      {
        var entry := warmById[ids[i]];
        slots := slots + [ChatWarmSlot(ids[i], entry.params, entry.attempt, entry.closed)];
      }
    }

    /** The listeners are woken when the slots have changed, and only then. */
    method PublishWarm()
      requires Ready()
      modifies this`warmSnap, this`woken
      ensures warmSnap == Slots(warmOrder, warmById)
      ensures woken == old(woken) + if warmSnap == old(warmSnap) then 0 else 1
    {
      var next := RebuildWarmSnap();
      if warmSnap == next {
        return;
      }
      warmSnap := next;
      woken := woken + 1;
    }

    method WarmInFlightIds() returns (ids: seq<Id>)
      ensures ids == InFlight(warmOrder, warmById)
    {
      ids := [];
      for i := 0 to |warmOrder|
        invariant ids == InFlight(warmOrder[..i], warmById)
      {
        assert warmOrder[..i + 1][..i] == warmOrder[..i];
        var id := warmOrder[i];
        if id in warmById && warmById[id].started && !warmById[id].closed && !warmById[id].yielded {
          ids := ids + [id];
        }
      }
      assert warmOrder[..|warmOrder|] == warmOrder;
    }

    /** The selected chats take their turns; the slots are published if one of them did anything. */
    method HandOut(desired: seq<Id>, finger: Option<Id>)
      requires Valid() && Distinct(desired) && ParkedStarted(warmById, finger)
      requires Sound(Handed(warmById, desired, finger), warmOrder)
      requires Lasts(warmById, Handed(warmById, desired, finger))
      modifies this`warmById, this`warmSnap, this`woken
      ensures Valid() && warmById == Handed(old(warmById), desired, finger)
      ensures woken <= old(woken) + 1 && (warmById == old(warmById) ==> woken == old(woken))
    {
      hide Sound, Slots, Live, Handed, Lasts, Distinct, ParkedStarted;
      ghost var start := warmById;
      var changed := false;
      var live := |Live(warmById)|;
      NoneHanded(start, finger);
      assert desired[..0] == [] && desired[..|desired|] == desired;
      for i := 0 to |desired|
        invariant warmById == Handed(start, desired[..i], finger) && live == |Live(warmById)|
        invariant !changed ==> warmById == start
        invariant warmSnap == old(warmSnap) && woken == old(woken)
      {
        var id := desired[i];
        HandedStep(start, warmOrder, desired, finger, i);
        TurnLive(warmById, id, finger);
        if id in warmById {
          var entry := warmById[id];
          if entry.yielded {
            warmById := warmById[id := entry.(yielded := false, attempt := entry.attempt + 1)];
            changed := true;
          } else if !entry.started && (live < LIVE_MAX || finger == Some(id)) {
            warmById := warmById[id := entry.(started := true)];
            live := live + 1;
            changed := true;
          }
        }
      }
      ParkedLasts(start, warmById, parkedUuid);
      if changed {
        PublishWarm();
      }
    }

    /** Free slots are handed out in one pass: a chat that gave its slot up tries again, a new one starts. */
    method PumpWarm()
      requires Valid()
      modifies this`warmById, this`warmSnap, this`woken
      ensures Valid() && warmById == Pumped(old(warmById), warmOrder, Now())
      ensures Lasts(old(warmById), warmById) && |Live(warmById)| <= Most(|Live(old(warmById))|, LIVE_MAX)
      ensures woken <= old(woken) + 1
    {
      hide Sound, Slots, Live, Handed, Selected, InFlight, Lasts, Distinct, ParkedStarted, Listed, ClosedIds, YieldedIds, RetryIds;
      PumpReady(warmById, warmOrder, Now(), parkedUuid);
      if skipMotion || SlideOccupies() {
        return;
      }
      var parked := Parked();
      var finger := if parked.Some? && parked.value in warmById && warmById[parked.value].closed then None else parked;
      if !assemblyEnabled && finger.None? {
        return;
      }
      var inFlightIds := WarmInFlightIds();
      var q := Query(warmOrder, Listed(warmOrder, cached), ClosedIds(warmById), YieldedIds(warmById), inFlightIds, false,
                     assemblyEnabled || finger.Some?, finger, coldAllowed, Listed(warmOrder, held), RetryIds(warmById), PARALLEL);
      var desired := SelectChatWarmMeasureIds(q);
      HandOut(desired, finger);
    }

    /** The order of the list: new chats are tracked, chats that left are forgotten unless they are parked. */
    method SyncChatWarmTargets(list: seq<Target>)
      requires Valid()
      modifies this`warmById, this`warmOrder, this`warmSnap, this`woken
      ensures Valid() && warmOrder == SyncedOrder(list, parkedUuid)
      ensures warmById == Pumped(Synced(old(warmById), list, parkedUuid), warmOrder, Now())
      ensures Lasts(old(warmById), warmById) && |Live(warmById)| <= Most(|Live(old(warmById))|, LIVE_MAX)
    {
      hide Sound, Slots, Live, Lasts, Refreshed, ListOrder, Remaining, ParkedStarted, Pumped;
      SyncKeeps(warmById, warmOrder, list, parkedUuid);
      ghost var start := warmById;
      var nextOrder, changed := TrackListed(list);
      var kept, forgot := ForgetUnlisted(nextOrder);
      if nextOrder + kept != warmOrder {
        warmOrder := nextOrder + kept;
        changed := true;
      }
      if changed || forgot {
        PublishWarm();
      }
      ghost var synced := warmById;
      PumpWarm();
      LastsOn(start, synced, warmById);
    }

    /** Assembly is switched on or off; while it is on, cold chats get their turn sooner or later. */
    method SetChatWarmAssemblyEnabled(enabled: bool)
      requires Valid()
      modifies this`assemblyEnabled, this`coldTimer, this`warmById, this`warmSnap, this`woken
      ensures Valid() && assemblyEnabled == enabled
      ensures warmById == if enabled || old(assemblyEnabled) then Pumped(old(warmById), warmOrder, Now()) else old(warmById)
      ensures Lasts(old(warmById), warmById) && |Live(warmById)| <= Most(|Live(old(warmById))|, LIVE_MAX)
    {
      hide Sound, Slots, Live, Pumped;
      if !enabled && coldTimer {
        coldTimer := false;
      }
      if enabled && !coldAllowed && !coldTimer {
        coldTimer := true;
      }
      if assemblyEnabled == enabled {
        if enabled {
          PumpWarm();
        }
        return;
      }
      assemblyEnabled := enabled;
      PumpWarm();
    }

    /** The fallback fires: cold chats need not wait for the first pages any longer. */
    method ColdFallbackFires()
      requires Valid() && coldTimer
      modifies this`coldAllowed, this`coldTimer, this`warmById, this`warmSnap, this`woken
      ensures Valid() && coldAllowed && warmById == Pumped(old(warmById), warmOrder, Now())
      ensures Lasts(old(warmById), warmById) && |Live(warmById)| <= Most(|Live(old(warmById))|, LIVE_MAX)
    {
      hide Sound, Slots, Live, Lasts, Pumped;
      coldTimer := false;
      if !assemblyEnabled {
        return;
      }
      coldAllowed := true;
      PumpWarm();
    }

    method AllowChatWarmColdFill()
      requires Valid()
      modifies this`coldAllowed, this`coldTimer, this`warmById, this`warmSnap, this`woken
      ensures Valid() && coldAllowed && warmById == Pumped(old(warmById), warmOrder, Now())
      ensures Lasts(old(warmById), warmById) && |Live(warmById)| <= Most(|Live(old(warmById))|, LIVE_MAX)
    {
      hide Sound, Slots, Live, Lasts, Pumped;
      coldTimer := false;
      coldAllowed := true;
      PumpWarm();
    }

    /** Its pages came, or motion is allowed again: the queue looks once more. */
    method KickChatWarmAssembly(pages: set<Id>, waiting: set<Id>, reduced: bool)
      requires Valid()
      modifies this`cached, this`held, this`skipMotion, this`warmById, this`warmSnap, this`woken
      ensures Valid() && cached == pages && held == waiting && skipMotion == reduced
      ensures warmById == Pumped(old(warmById), warmOrder, Now())
      ensures Lasts(old(warmById), warmById) && |Live(warmById)| <= Most(|Live(old(warmById))|, LIVE_MAX)
    {
      hide Sound, Slots, Live, Lasts, Pumped;
      cached, held, skipMotion := pages, waiting, reduced;
      PumpWarm();
    }

    method MarkWarmWindowClosed(id: Option<Id>)
      requires Ready()
      modifies this`warmById
      ensures Ready() && warmById == Closed(old(warmById), id)
      ensures Lasts(old(warmById), warmById) && |Live(warmById)| <= |Live(old(warmById))|
    {
      ClosedKeeps(warmById, warmOrder, id);
      ParkedLasts(warmById, Closed(warmById, id), parkedUuid);
      hide Sound, Live, Lasts, ParkedStarted;
      if id.None? || id.value !in warmById || warmById[id.value].closed {
        return;
      }
      warmById := warmById[id.value := warmById[id.value].(closed := true, yielded := false, started := true)];
    }

    method CloseAndPump(id: Id)
      requires Valid()
      modifies this`warmById, this`warmSnap, this`woken
      ensures Valid() && warmById == Pumped(Closed(old(warmById), Some(id)), warmOrder, Now())
      ensures id in old(warmById) ==> id in warmById && warmById[id].closed
      ensures Lasts(old(warmById), warmById) && |Live(warmById)| <= Most(|Live(old(warmById))|, LIVE_MAX)
    {
      hide Sound, Slots, Live, Lasts, ParkedStarted, Pumped;
      ghost var start := warmById;
      MarkWarmWindowClosed(Some(id));
      PublishWarm();
      ghost var shut := warmById;
      PumpWarm();
      LastsOn(start, shut, warmById);
      if id in start {
        StaysClosed(shut, warmById, id);
      }
    }

    /** The window of a chat has its real heights: it is ready for good, and its slot is free. */
    method NotifyChatWarmWindowClosed(id: Id)
      requires Valid()
      modifies this`warmById, this`warmSnap, this`woken
      ensures Valid()
      ensures warmById == if id !in old(warmById) || old(warmById)[id].closed then old(warmById)
                          else Pumped(Closed(old(warmById), Some(id)), warmOrder, Now())
      ensures id in old(warmById) ==> id in warmById && warmById[id].closed
      ensures Lasts(old(warmById), warmById) && |Live(warmById)| <= Most(|Live(old(warmById))|, LIVE_MAX)
    {
      hide Sound, Slots, Live, Lasts, ParkedStarted, Pumped;
      LastsSame(warmById);
      if id !in warmById || warmById[id].closed {
        return;
      }
      CloseAndPump(id);
    }

    /** The deadline passed: the chat gives its slot up, and its window stays. */
    method NotifyChatWarmMeasureYielded(id: Id)
      requires Valid()
      modifies this`warmById, this`warmSnap, this`woken
      ensures Valid()
      ensures warmById == if id !in old(warmById) || old(warmById)[id].closed || old(warmById)[id].yielded then old(warmById)
                          else Pumped(Yielded(old(warmById), id), warmOrder, Now())
      ensures Lasts(old(warmById), warmById) && |Live(warmById)| <= Most(|Live(old(warmById))|, LIVE_MAX)
    {
      hide Sound, Slots, Live, Lasts, ParkedStarted, Pumped;
      LastsSame(warmById);
      if id !in warmById || warmById[id].closed || warmById[id].yielded {
        return;
      }
      YieldedKeeps(warmById, warmOrder, id);
      ghost var start := warmById;
      warmById := warmById[id := warmById[id].(yielded := true)];
      ParkedLasts(start, warmById, parkedUuid);
      PublishWarm();
      ghost var given := warmById;
      PumpWarm();
      LastsOn(start, given, warmById);
    }

    /** The chat under the finger: tracked and started, whatever the limits say. */
    method RememberWarmTarget(id: Id, params: Params) returns (entry: WarmEntry)
      requires Ready() && id != ""
      modifies this`warmById, this`warmOrder
      ensures Ready() && warmById == Remembered(old(warmById), id, params) && entry == warmById[id]
      ensures ParkedStarted(warmById, Some(id))
      ensures warmOrder == if id in old(warmById) then old(warmOrder) else [id] + old(warmOrder)
      ensures Lasts(old(warmById), warmById) && |Live(warmById)| <= |Live(old(warmById))| + 1
    {
      hide Sound, Live, Lasts, ParkedStarted;
      RememberKeeps(warmById, warmOrder, id, params);
      ParkedLasts(warmById, Remembered(warmById, id, params), parkedUuid);
      if id in warmById {
        entry := warmById[id].(params := params, started := true);
        warmById := warmById[id := entry];
        return;
      }
      entry := WarmEntry(params, false, false, true, 0);
      warmById := warmById[id := entry];
      warmOrder := [id] + warmOrder;
    }

    /** A chat held past the edge is parked again. */
    method ReviveOffEdgePlay()
      requires Valid()
      modifies this`parkPhase, this`enterStarted, this`slideHold, this`shellPushed
      ensures Valid() && parkPhase == if old(parkPhase).Playing? && exitOffEdge then Phase.Parked else old(parkPhase)
    {
      hide Sound, Slots, ParkedStarted;
      if !parkPhase.Playing? || !exitOffEdge {
        return;
      }
      enterStarted, slideHold, shellPushed := false, false, false;
      parkPhase := Phase.Parked;
    }

    /** Press-in on a row. */
    method ParkChatPush(id: Id, params: Params) returns (result: ParkResult)
      requires Valid()
      modifies this`warmById, this`warmOrder, this`warmSnap, this`woken, this`parkPhase, this`parkedUuid,
               this`enterStarted, this`slideHold, this`shellPushed
      ensures Valid() && (result.Skipped? <==> old(skipMotion) || id == "")
      ensures result.NowParked? ==>
                && parkPhase.Parked? && parkedUuid == Some(id) && warmById == Remembered(old(warmById), id, params)
                && warmOrder == if id in old(warmById) then old(warmOrder) else [id] + old(warmOrder)
      ensures !result.NowParked? ==> warmById == old(warmById) && warmOrder == old(warmOrder) && parkedUuid == old(parkedUuid)
      ensures Lasts(old(warmById), warmById) && |Live(warmById)| <= |Live(old(warmById))| + 1
    {
      hide Sound, Slots, Live, Lasts, ParkedStarted, Remembered;
      LastsSame(warmById);
      if skipMotion || id == "" {
        return Skipped;
      }
      if parkPhase.Playing? && (!exitOffEdge || (enterStarted && !exiting)) {
        return Same;
      }
      ReviveOffEdgePlay();
      if (parkPhase.Parked? || parkPhase.PlayWait?) && parkedUuid == Some(id) {
        return Same;
      }
      var entry := RememberWarmTarget(id, params);
      parkPhase, parkedUuid := Phase.Parked, Some(id);
      PublishWarm();
      result := NowParked;
    }

    method ReleaseChatPark()
      requires Valid()
      modifies this`parkPhase, this`parkedUuid, this`exitOffEdge, this`slideHold, this`shellPushed, this`enterStarted
      ensures Valid() && parkPhase.Idle? && parkedUuid.None?
    {
      hide Sound, Slots;
      exitOffEdge := true;
      parkPhase, parkedUuid := Idle, None;
      slideHold, shellPushed, enterStarted := false, false, false;
    }

    /** The slide back is over: the chat stays mounted past the edge, its window closed for good. */
    method RetainChatPushOffEdge()
      requires Valid()
      modifies this`warmById, this`warmSnap, this`woken, this`parkPhase, this`parkedUuid, this`exitOffEdge, this`shellPushed,
               this`enterStarted, this`slideHold, this`exiting
      ensures Valid() && !exiting && parkedUuid == old(parkedUuid)
      ensures warmById == if old(parkedUuid).None? then old(warmById)
                          else Pumped(Closed(old(warmById), old(parkedUuid)), warmOrder, Now())
      ensures old(parkedUuid).Some? ==> parkedUuid.value in warmById && warmById[parkedUuid.value].closed
      ensures Lasts(old(warmById), warmById) && |Live(warmById)| <= Most(|Live(old(warmById))|, LIVE_MAX)
    {
      hide Sound, Slots, Live, Lasts, Pumped, Closed;
      LastsSame(warmById);
      if parkedUuid.None? {
        ReleaseChatPark();
        exiting := false;
        return;
      }
      exitOffEdge := true;
      shellPushed, enterStarted, slideHold, exiting := false, false, false, false;
      CloseAndPump(parkedUuid.value);
    }

    /** Whatever else the slide does to what the bench reads of it. */
    method MoveSlide(phase: Phase, offEdge: bool, pushed: bool, started: bool, hold: bool, leaving: bool)
      requires Valid() && (phase.Idle? <==> parkPhase.Idle?)
      modifies this`parkPhase, this`exitOffEdge, this`shellPushed, this`enterStarted, this`slideHold, this`exiting
      ensures Valid() && SlideOccupies() == (leaving || (phase.Playing? && !pushed && (started || hold || !offEdge)))
    {
      hide Sound, Slots, ParkedStarted;
      parkPhase, exitOffEdge, shellPushed, enterStarted, slideHold, exiting := phase, offEdge, pushed, started, hold, leaving;
    }

    /** The listed chats get entries; `changed` if any is new or says something else. */
    method TrackListed(list: seq<Target>) returns (nextOrder: seq<Id>, changed: bool)
      modifies this`warmById
      ensures nextOrder == ListOrder(list) && warmById == Refreshed(old(warmById), list)
      ensures !changed ==> warmById == old(warmById)
    {
      nextOrder, changed := [], false;
      for i := 0 to |list|
        invariant nextOrder == ListOrder(list[..i]) && warmById == Refreshed(old(warmById), list[..i])
        invariant !changed ==> warmById == old(warmById)
      {
        assert list[..i + 1][..i] == list[..i];
        var raw := list[i];
        if raw.id != "" && raw.id !in nextOrder {
          nextOrder := nextOrder + [raw.id];
          if raw.id !in warmById {
            warmById := warmById[raw.id := Fresh(raw.params)];
            changed := true;
          } else if warmById[raw.id].params.content != raw.params.content {
            warmById := warmById[raw.id := warmById[raw.id].(params := raw.params)];
            changed := true;
          }
        }
      }
      assert list[..|list|] == list;
    }

    /** Chats that are not listed are forgotten; the parked one is `kept`. */
    method ForgetUnlisted(listed: seq<Id>) returns (kept: seq<Id>, forgot: bool)
      requires parkPhase.Idle? <==> parkedUuid.None?
      requires parkedUuid.Some? ==> parkedUuid.value in warmById && parkedUuid.value != ""
      modifies this`warmById
      ensures listed + kept == PushIf(listed, parkedUuid)
      ensures warmById == Remaining(old(warmById), listed, parkedUuid)
      ensures !forgot ==> warmById == old(warmById)
    {
      hide Left, Remaining;
      kept, forgot := [], false;
      var rest := warmById.Keys;
      LeftEnds(warmById, listed, parkedUuid);
      while rest != {}
        invariant rest <= old(warmById).Keys && warmById == Left(old(warmById), rest, listed, parkedUuid)
        invariant kept == if parkedUuid.Some? && parkedUuid.value !in listed && parkedUuid.value !in rest then [parkedUuid.value] else []
        invariant !forgot ==> warmById == old(warmById)
        decreases |rest|
      {
        var id :| id in rest;
        LeftMore(old(warmById), rest, listed, parkedUuid, id);
        rest := rest - {id};
        if id !in listed {
          if parkedUuid == Some(id) && !parkPhase.Idle? {
            kept := kept + [id];
          } else {
            warmById := warmById - {id};
            forgot := true;
          }
        }
      }
    }
  }

  lemma {:induction false} NoneHanded(entries: Entries, finger: Option<Id>)
    ensures Handed(entries, [], finger) == entries
  {
  }

  lemma {:induction false} HandedStep(entries: Entries, order: seq<Id>, ids: seq<Id>, finger: Option<Id>, i: nat)
    requires i < |ids| && Distinct(ids) && Sound(entries, order)
    ensures Handed(entries, ids[..i + 1], finger) == Turn(Handed(entries, ids[..i], finger), ids[i], finger)
    ensures ids[i] in entries ==> Kept(Handed(entries, ids[..i], finger)[ids[i]])
  {
    hide Live, Turn, Kept;
    assert ids[..i + 1][..i] == ids[..i];
    if ids[i] in entries {
      HandedTo(entries, ids[..i], finger, ids[i]);
    }
  }

  lemma {:induction false} TurnLive(entries: Entries, id: Id, finger: Option<Id>)
    requires id in entries ==> Kept(entries[id])
    ensures var starts := id in entries && !entries[id].yielded && !entries[id].started
                          && (|Live(entries)| < LIVE_MAX || finger == Some(id));
            |Live(Turn(entries, id, finger))| == |Live(entries)| + if starts then 1 else 0
  {
    if id in entries && entries[id].yielded {
      LiveSame(entries, id, entries[id].(yielded := false, attempt := entries[id].attempt + 1));
    } else if id in entries && !entries[id].started {
      LiveMore(entries, id);
    }
    hide Live;
  }

  lemma {:induction false} ParkedLasts(before: Entries, after: Entries, parked: Option<Id>)
    requires ParkedStarted(before, parked) && Lasts(before, after) && before.Keys <= after.Keys
    ensures ParkedStarted(after, parked)
  {
  }

  /** What a pump needs to know before it starts, and what it promises. */
  lemma {:induction false} PumpReady(entries: Entries, order: seq<Id>, w: World, parked: Option<Id>)
    requires Sound(entries, order) && ParkedStarted(entries, parked) && (w.parked.Some? ==> w.parked == parked)
    ensures var after := Pumped(entries, order, w);
            && Sound(after, order) && Lasts(entries, after) && |Live(after)| <= Most(|Live(entries)|, LIVE_MAX)
            && Distinct(Selected(QueryOf(order, entries, w))) && ParkedStarted(entries, FingerOf(entries, w))
  {
    PumpKeeps(entries, order, w);
    PumpDistinct(entries, order, w);
    hide Sound, Lasts, Live, Selected, Distinct, Pumped;
  }
}
