/** Which chats get a measuring slot, which windows stay mounted, and how their slots are stacked. */
module WarmSelection {
  import opened Outcome

  type Id = string

  /** How many windows are assembled at once, how many may be in the tree, how often a slot is handed out again. */
  const PARALLEL: nat := 3
  const LIVE_MAX: nat := 5
  const RETRY_MAX: nat := 2

  /** What the queue knows when it chooses; `finger` is the chat under the finger while its window is open. */
  datatype Query = Query(order: seq<Id>, cached: set<Id>, closed: set<Id>, yielded: set<Id>, inFlight: seq<Id>,
                         slideBusy: bool, assembly: bool, finger: Option<Id>, allowUncached: bool, held: set<Id>,
                         retry: set<Id>, limit: nat)

  /** A chat offered a slot; only a second attempt may take a chat that gave its slot up. */
  datatype Offer = Offer(id: Id, again: bool)

  datatype Round = Running | Warm | Cold | Again

  predicate Distinct(ids: seq<Id>) {
    forall i, j :: 0 <= i < j < |ids| ==> ids[i] != ids[j]
  }

  predicate Eligible(q: Query, o: Offer) {
    o.id != "" && o.id !in q.closed && (o.id in q.yielded ==> o.again)
  }

  predicate Waits(q: Query, id: Id) {
    id in q.cached && id !in q.closed && id !in q.yielded && id !in q.inFlight
  }

  predicate CachedWaiting(q: Query) {
    exists id :: id in q.order && Waits(q, id)
  }

  predicate CachedOpen(q: Query) {
    exists id :: id in q.order && id in q.cached && id !in q.closed
  }

  predicate Offered(q: Query, round: Round, id: Id) {
    match round
    case Running => CachedWaiting(q) && id !in q.cached ==> q.finger == Some(id)
    case Warm => id in q.cached
    case Cold => id !in q.held
    case Again => id in q.retry && id in q.yielded && id in q.cached
  }

  /** A slot is given while one is free; the finger's chat always gets one. */
  function Add(q: Query, chosen: seq<Id>, o: Offer): seq<Id> {
    if o.id in chosen || !Eligible(q, o) || (|chosen| >= q.limit && q.finger != Some(o.id)) then chosen
    else chosen + [o.id]
  }

  function Greedy(q: Query, offers: seq<Offer>): seq<Id> {
    if offers == [] then [] else Add(q, Greedy(q, offers[..|offers| - 1]), offers[|offers| - 1])
  }

  function RoundOffers(q: Query, round: Round, ids: seq<Id>): seq<Offer> {
    if ids == [] then []
    else
      var (most, last) := (RoundOffers(q, round, ids[..|ids| - 1]), ids[|ids| - 1]);
      if Offered(q, round, last) then most + [Offer(last, round.Again?)] else most
  }

  function FingerOffer(q: Query): seq<Offer> {
    if q.finger.Some? then [Offer(q.finger.value, false)] else []
  }

  /** The offers of the rounds before the last one. */
  function FirstOffers(q: Query): seq<Offer> {
    var begun := RoundOffers(q, Running, q.inFlight) + FingerOffer(q);
    if !q.assembly && q.finger.None? then begun
    else
      var warm := begun + RoundOffers(q, Warm, q.order);
      if q.allowUncached && !CachedOpen(q) then warm + RoundOffers(q, Cold, q.order) else warm
  }

  function Offers(q: Query): seq<Offer> {
    if q.assembly then FirstOffers(q) + RoundOffers(q, Again, q.order) else FirstOffers(q)
  }

  function StillOpen(ids: seq<Id>, closed: set<Id>): seq<Id> {
    if ids == [] then []
    else StillOpen(ids[..|ids| - 1], closed) + if ids[|ids| - 1] in closed then [] else [ids[|ids| - 1]]
  }

  /** Every chat in turn takes a slot if it may: what the selection comes to. */
  function Selected(q: Query): seq<Id> {
    if q.slideBusy then StillOpen(q.inFlight, q.closed) else Greedy(q, Offers(q))
  }

  // ---- The selection as it is computed ----

  method Scan(q: Query) returns (waiting: bool, open: bool)
    ensures waiting == CachedWaiting(q) && open == CachedOpen(q)
  {
    waiting, open := false, false;
    for i := 0 to |q.order|
      invariant waiting <==> exists j :: 0 <= j < i && Waits(q, q.order[j])
      invariant open <==> exists j :: 0 <= j < i && q.order[j] in q.cached && q.order[j] !in q.closed
    {
      var id := q.order[i];
      if id in q.cached && id !in q.closed {
        open := true;
        if id !in q.yielded && id !in q.inFlight {
          waiting := true;
        }
      }
    }
  }

  /** One round over a list of chats. */
  method OfferAll(q: Query, chosen: seq<Id>, round: Round, ids: seq<Id>, waiting: bool, ghost before: seq<Offer>)
    returns (more: seq<Id>)
    requires chosen == Greedy(q, before) && waiting == CachedWaiting(q)
    ensures more == Greedy(q, before + RoundOffers(q, round, ids))
  {
    more := chosen;
    assert before + [] == before;
    for i := 0 to |ids|
      invariant more == Greedy(q, before + RoundOffers(q, round, ids[..i]))
    {
      var id := ids[i];
      var offered := match round
        case Running => !(waiting && id !in q.cached && q.finger != Some(id))
        case Warm => id in q.cached
        case Cold => id !in q.held
        case Again => id in q.retry && id in q.yielded && id in q.cached;
      OneMoreOffer(q, before, round, ids, i);
      if offered {
        more := Add(q, more, Offer(id, round.Again?));
      }
    }
    assert ids[..|ids|] == ids;
  }

  lemma {:induction false} GreedyAdd(q: Query, offers: seq<Offer>, o: Offer)
    ensures Greedy(q, offers + [o]) == Add(q, Greedy(q, offers), o)
  {
    assert (offers + [o])[..|offers|] == offers;
  }

  lemma {:induction false} OneMoreOffer(q: Query, before: seq<Offer>, round: Round, ids: seq<Id>, i: nat)
    requires i < |ids|
    ensures var (done, o) := (before + RoundOffers(q, round, ids[..i]), Offer(ids[i], round.Again?));
            Greedy(q, before + RoundOffers(q, round, ids[..i + 1])) ==
            if Offered(q, round, ids[i]) then Add(q, Greedy(q, done), o) else Greedy(q, done)
  {
    var (done, o) := (before + RoundOffers(q, round, ids[..i]), Offer(ids[i], round.Again?));
    assert ids[..i + 1][..i] == ids[..i];
    if Offered(q, round, ids[i]) {
      assert before + RoundOffers(q, round, ids[..i + 1]) == done + [o];
      GreedyAdd(q, done, o);
    }
  }

  /** While a slide is on screen nobody new is measured. */
  method OpenOnly(ids: seq<Id>, closed: set<Id>) returns (chosen: seq<Id>)
    ensures chosen == StillOpen(ids, closed)
  {
    chosen := [];
    for i := 0 to |ids|
      invariant chosen == StillOpen(ids[..i], closed)
    {
      assert ids[..i + 1][..i] == ids[..i];
      if ids[i] !in closed {
        chosen := chosen + [ids[i]];
      }
    }
    assert ids[..|ids|] == ids;
  }

  method OfferFinger(q: Query, chosen: seq<Id>, ghost before: seq<Offer>) returns (more: seq<Id>)
    requires chosen == Greedy(q, before)
    ensures more == Greedy(q, before + FingerOffer(q))
  {
    more := chosen;
    if q.finger.Some? {
      more := Add(q, chosen, Offer(q.finger.value, false));
      GreedyAdd(q, before, Offer(q.finger.value, false));
    } else {
      assert before + FingerOffer(q) == before;
    }
  }

  method SelectChatWarmMeasureIds(q: Query) returns (chosen: seq<Id>)
    ensures chosen == Selected(q)
  {
    assert Greedy(q, []) == [];
    hide Greedy, RoundOffers, FingerOffer, CachedWaiting, CachedOpen, StillOpen;
    if q.slideBusy {
      chosen := OpenOnly(q.inFlight, q.closed);
      return;
    }
    var waiting, open := Scan(q);
    chosen := OfferAll(q, [], Running, q.inFlight, waiting, []);
    ghost var offers := RoundOffers(q, Running, q.inFlight);
    assert [] + offers == offers;
    chosen := OfferFinger(q, chosen, offers);
    offers := offers + FingerOffer(q);
    if !q.assembly && q.finger.None? {
      return;
    }
    chosen := OfferAll(q, chosen, Warm, q.order, waiting, offers);
    offers := offers + RoundOffers(q, Warm, q.order);
    if q.allowUncached && !open {
      chosen := OfferAll(q, chosen, Cold, q.order, waiting, offers);
      offers := offers + RoundOffers(q, Cold, q.order);
    }
    if q.assembly {
      chosen := OfferAll(q, chosen, Again, q.order, waiting, offers);
    }
  }

  // ---- What a greedy choice comes to ----

  lemma {:induction false} GreedyGrows(q: Query, offers: seq<Offer>, i: nat)
    requires i <= |offers|
    ensures Greedy(q, offers[..i]) <= Greedy(q, offers)
    decreases |offers|
  {
    if i == |offers| {
      assert offers[..i] == offers;
    } else {
      var most := offers[..|offers| - 1];
      GreedyGrows(q, most, i);
      assert most[..i] == offers[..i];
    }
  }

  /** A chosen chat was offered at some point where it was not chosen yet, might be taken, and found a slot. */
  lemma {:induction false} Chosen(q: Query, offers: seq<Offer>, id: Id) returns (i: nat)
    requires id in Greedy(q, offers)
    ensures i < |offers| && offers[i].id == id && Eligible(q, offers[i])
    ensures id !in Greedy(q, offers[..i]) && (|Greedy(q, offers[..i])| < q.limit || q.finger == Some(id))
    decreases |offers|
  {
    var most := offers[..|offers| - 1];
    if id in Greedy(q, most) {
      i := Chosen(q, most, id);
      assert most[..i] == offers[..i];
    } else {
      i := |offers| - 1;
    }
  }

  /** A chat that might be taken and was not found every slot given away before its turn. */
  lemma {:induction false} RefusedMeansFull(q: Query, offers: seq<Offer>, i: nat)
    requires i < |offers| && Eligible(q, offers[i]) && offers[i].id !in Greedy(q, offers)
    ensures |Greedy(q, offers[..i])| >= q.limit && q.finger != Some(offers[i].id)
  {
    GreedyGrows(q, offers, i + 1);
    assert offers[..i + 1] == offers[..i] + [offers[i]];
    GreedyAdd(q, offers[..i], offers[i]);
    var (early, all) := (Greedy(q, offers[..i + 1]), Greedy(q, offers));
    assert forall k :: 0 <= k < |early| ==> early[k] == all[k];
    assert offers[i].id !in early;
  }

  /** Nobody is chosen twice, and no more are chosen than there are slots, but for the finger's chat. */
  lemma {:induction false} GreedyFits(q: Query, offers: seq<Offer>)
    ensures Distinct(Greedy(q, offers))
    ensures |Greedy(q, offers)| <= q.limit
            || (|Greedy(q, offers)| == q.limit + 1 && q.finger.Some? && q.finger.value in Greedy(q, offers))
    decreases |offers|
  {
    if offers != [] {
      GreedyFits(q, offers[..|offers| - 1]);
    }
  }

  lemma {:induction false} RoundHas(q: Query, round: Round, ids: seq<Id>, o: Offer)
    ensures o in RoundOffers(q, round, ids) <==> o.again == round.Again? && o.id in ids && Offered(q, round, o.id)
    decreases |ids|
  {
    if ids != [] {
      RoundHas(q, round, ids[..|ids| - 1], o);
      assert ids == ids[..|ids| - 1] + [ids[|ids| - 1]];
    }
  }

  /** Before the last round, these are offered a slot. */
  predicate OfferedFirst(q: Query, id: Id) {
    || (id in q.inFlight && Offered(q, Running, id)) || q.finger == Some(id)
    || (id in q.order && (q.assembly || q.finger.Some?)
        && (id in q.cached || (q.allowUncached && !CachedOpen(q) && id !in q.held)))
  }

  lemma {:induction false} FirstHas(q: Query, o: Offer)
    ensures o in FirstOffers(q) <==> !o.again && OfferedFirst(q, o.id)
  {
    RoundHas(q, Running, q.inFlight, o);
    RoundHas(q, Warm, q.order, o);
    RoundHas(q, Cold, q.order, o);
    hide CachedWaiting, CachedOpen, RoundOffers;
  }

  lemma {:induction false} LastHas(q: Query, o: Offer)
    ensures o in Offers(q) <==>
              o in FirstOffers(q) || (q.assembly && o.again && o.id in q.order && Offered(q, Again, o.id))
  {
    RoundHas(q, Again, q.order, o);
    hide CachedWaiting, CachedOpen, RoundOffers, FirstOffers;
  }

  // ---- What is selected ----

  /** A chosen chat: open, and one of those the rounds offer. */
  lemma {:induction false} SelectedIs(q: Query, id: Id)
    requires !q.slideBusy && id in Selected(q)
    ensures id != "" && id !in q.closed
    ensures id in q.yielded ==> q.assembly && id in q.order && id in q.retry && id in q.cached
    ensures id !in q.yielded ==> OfferedFirst(q, id) || (q.assembly && id in q.order && Offered(q, Again, id))
  {
    var i := Chosen(q, Offers(q), id);
    var o := Offers(q)[i];
    assert o in Offers(q);
    FirstHas(q, o);
    LastHas(q, o);
    hide Offers, FirstOffers, CachedWaiting, CachedOpen, OfferedFirst;
  }

  /** While a cached chat waits for a slot, every selected chat but the finger's is a cached one. */
  lemma {:induction false} CachedFirst(q: Query, id: Id)
    requires !q.slideBusy && CachedWaiting(q) && id in Selected(q) && q.finger != Some(id)
    ensures id in q.cached
  {
    var waiting :| waiting in q.order && Waits(q, waiting);
    assert CachedOpen(q);
    SelectedIs(q, id);
    hide Selected;
  }

  /** A chat that is not cached is newly selected only when every cached one is closed, and never while its page is held. */
  lemma {:induction false} ColdStartsLast(q: Query, id: Id)
    requires !q.slideBusy && id in Selected(q) && q.finger != Some(id) && id !in q.inFlight && id !in q.cached
    ensures q.allowUncached && !CachedOpen(q) && id !in q.held && id in q.order
  {
    SelectedIs(q, id);
    hide Selected;
  }

  /** A chat that gave its slot up gets it back only when every cached chat that has not is served. */
  lemma {:induction false} RetriesLast(q: Query, id: Id, other: Id)
    requires !q.slideBusy && id in Selected(q) && id in q.yielded && q.finger != Some(id)
    requires other in q.order && other != "" && other in q.cached && other !in q.closed && other !in q.yielded
    ensures other in Selected(q)
  {
    var (first, offers) := (FirstOffers(q), Offers(q));
    var i := Chosen(q, offers, id);
    SelectedIs(q, id);
    FirstHas(q, Offer(other, false));
    var j :| 0 <= j < |first| && first[j] == Offer(other, false);
    forall k | 0 <= k < |first|
      ensures offers[k] == first[k] && !first[k].again
    {
      FirstHas(q, first[k]);
    }
    GreedyGrows(q, offers[..i], j);
    assert offers[..i][..j] == offers[..j];
    if other !in Selected(q) {
      RefusedMeansFull(q, offers, j);
    }
  }

  /** No slot stays idle while a cached chat that may have it waits. */
  lemma {:induction false} NoIdleSlot(q: Query, id: Id)
    requires !q.slideBusy && (q.assembly || q.finger.Some?)
    requires id in q.order && id != "" && id in q.cached && id !in q.closed && id !in q.yielded
    ensures id in Selected(q) || |Selected(q)| >= q.limit
  {
    var (first, offers) := (FirstOffers(q), Offers(q));
    FirstHas(q, Offer(id, false));
    var i :| 0 <= i < |first| && first[i] == Offer(id, false);
    assert offers[i] == first[i];
    if id !in Selected(q) {
      RefusedMeansFull(q, offers, i);
      GreedyGrows(q, offers, i);
    }
  }

  /** The finger's chat is always selected, unless it gave its slot up. */
  lemma {:induction false} FingerIsSelected(q: Query)
    requires !q.slideBusy && q.finger.Some? && q.finger.value != "" && q.finger.value !in q.closed + q.yielded
    ensures q.finger.value in Selected(q)
  {
    var (first, offers) := (FirstOffers(q), Offers(q));
    FirstHas(q, Offer(q.finger.value, false));
    var i :| 0 <= i < |first| && first[i] == Offer(q.finger.value, false);
    assert offers[i] == first[i];
    if q.finger.value !in Selected(q) {
      RefusedMeansFull(q, offers, i);
    }
  }

  lemma {:induction false} SelectionFits(q: Query)
    requires !q.slideBusy
    ensures Distinct(Selected(q))
    ensures |Selected(q)| <= q.limit
            || (|Selected(q)| == q.limit + 1 && q.finger.Some? && q.finger.value in Selected(q))
  {
    GreedyFits(q, Offers(q));
  }

  // ---- Mounted windows ----

  function Push(ids: seq<Id>, id: Id): seq<Id> {
    if id == "" || id in ids then ids else ids + [id]
  }

  function PushIf(ids: seq<Id>, id: Option<Id>): seq<Id> {
    if id.Some? then Push(ids, id.value) else ids
  }

  predicate Stays(started: set<Id>, measuring: Option<Id>, active: Option<Id>, id: Id) {
    id in started || measuring == Some(id) || active == Some(id)
  }

  function InOrder(order: seq<Id>, started: set<Id>, measuring: Option<Id>, active: Option<Id>): seq<Id> {
    if order == [] then []
    else
      var (most, last) := (InOrder(order[..|order| - 1], started, measuring, active), order[|order| - 1]);
      if Stays(started, measuring, active, last) then Push(most, last) else most
  }

  function Mounted(order: seq<Id>, started: set<Id>, measuring: Option<Id>, active: Option<Id>): seq<Id> {
    PushIf(PushIf(InOrder(order, started, measuring, active), measuring), active)
  }

  method ChatWarmMountedIds(order: seq<Id>, started: set<Id>, measuring: Option<Id>, active: Option<Id>) returns (out: seq<Id>)
    ensures out == Mounted(order, started, measuring, active)
  {
    out := [];
    for i := 0 to |order|
      invariant out == InOrder(order[..i], started, measuring, active)
    {
      assert order[..i + 1][..i] == order[..i];
      var id := order[i];
      if id in started || measuring == Some(id) || active == Some(id) {
        out := Push(out, id);
      }
    }
    assert order[..|order|] == order;
    out := PushIf(out, measuring);
    out := PushIf(out, active);
  }

  lemma {:induction false} InOrderHas(order: seq<Id>, started: set<Id>, measuring: Option<Id>, active: Option<Id>)
    ensures var out := InOrder(order, started, measuring, active);
            && Distinct(out) && forall id :: id in out <==> id != "" && id in order && Stays(started, measuring, active, id)
    decreases |order|
  {
    if order != [] {
      InOrderHas(order[..|order| - 1], started, measuring, active);
      assert order == order[..|order| - 1] + [order[|order| - 1]];
    }
  }

  /** Exactly the started windows of the list, the measured and the active one stay mounted, each once. */
  lemma {:induction false} MountedOnce(order: seq<Id>, started: set<Id>, measuring: Option<Id>, active: Option<Id>)
    ensures var out := Mounted(order, started, measuring, active);
            && Distinct(out)
            && forall id :: id in out <==>
                              id != "" && (measuring == Some(id) || active == Some(id) || (id in order && id in started))
  {
    InOrderHas(order, started, measuring, active);
    hide InOrder;
  }

  // ---- Stacking ----

  datatype BenchSlot = BenchSlot(id: Id, closed: bool)
  datatype Layer = MeasureLayer | ParkedLayer | ActiveLayer
  datatype Frame = Frame(id: Id, layer: Layer, occluded: bool)

  function FirstOpen(slots: seq<BenchSlot>, active: Option<Id>): Option<Id> {
    if slots == [] then None
    else if !slots[0].closed && active != Some(slots[0].id) then Some(slots[0].id)
    else FirstOpen(slots[1..], active)
  }

  function Find(slots: seq<BenchSlot>, id: Id): Option<BenchSlot> {
    if slots == [] then None else if slots[0].id == id then Some(slots[0]) else Find(slots[1..], id)
  }

  function MeasureId(slots: seq<BenchSlot>, active: Option<Id>, hostRaised: bool): Option<Id> {
    if hostRaised then None
    else if active.Some? && Find(slots, active.value).Some? && !Find(slots, active.value).value.closed then active
    else FirstOpen(slots, active)
  }

  function Those(slots: seq<BenchSlot>, top: Option<Id>, on: bool): seq<BenchSlot> {
    if slots == [] then []
    else (if (top == Some(slots[0].id)) == on then [slots[0]] else []) + Those(slots[1..], top, on)
  }

  function Stack(slots: seq<BenchSlot>, active: Option<Id>, hostRaised: bool): seq<BenchSlot> {
    var top := if hostRaised then active else MeasureId(slots, active, hostRaised);
    Those(slots, top, false) + Those(slots, top, true)
  }

  function Frames(stack: seq<BenchSlot>, measure: Option<Id>, active: Option<Id>): seq<Frame> {
    seq(|stack|, i requires 0 <= i < |stack| =>
      Frame(stack[i].id,
            if measure == Some(stack[i].id) then MeasureLayer
            else if active == Some(stack[i].id) then ActiveLayer
            else ParkedLayer,
            exists j :: i < j < |stack| && measure == Some(stack[j].id)))
  }

  function LayoutChatBenchSlots(slots: seq<BenchSlot>, active: Option<Id>, hostRaised: bool): seq<Frame> {
    Frames(Stack(slots, active, hostRaised), MeasureId(slots, active, hostRaised), active)
  }

  predicate OneEach(slots: seq<BenchSlot>) {
    forall i, j :: 0 <= i < j < |slots| ==> slots[i].id != slots[j].id
  }

  lemma {:induction false} FindIs(slots: seq<BenchSlot>, id: Id)
    ensures Find(slots, id).Some? <==> exists i :: 0 <= i < |slots| && slots[i].id == id
    ensures Find(slots, id).Some? ==> Find(slots, id).value in slots && Find(slots, id).value.id == id
    decreases |slots|
  {
    if slots != [] {
      FindIs(slots[1..], id);
      assert slots == [slots[0]] + slots[1..];
    }
  }

  lemma {:induction false} FirstOpenIs(slots: seq<BenchSlot>, active: Option<Id>)
    ensures FirstOpen(slots, active).None? <==> forall s :: s in slots && !s.closed ==> active == Some(s.id)
    ensures FirstOpen(slots, active).Some? ==>
              active != FirstOpen(slots, active) && exists s :: s in slots && !s.closed && s.id == FirstOpen(slots, active).value
    decreases |slots|
  {
    if slots != [] {
      FirstOpenIs(slots[1..], active);
      assert slots == [slots[0]] + slots[1..];
    }
  }

  lemma {:induction false} ThoseHas(slots: seq<BenchSlot>, top: Option<Id>, on: bool)
    ensures forall s :: s in Those(slots, top, on) <==> s in slots && (top == Some(s.id)) == on
    decreases |slots|
  {
    if slots != [] {
      ThoseHas(slots[1..], top, on);
      assert slots == [slots[0]] + slots[1..];
    }
  }

  lemma {:induction false} ThoseSplit(slots: seq<BenchSlot>, top: Option<Id>)
    ensures multiset(Those(slots, top, false)) + multiset(Those(slots, top, true)) == multiset(slots)
    decreases |slots|
  {
    if slots != [] {
      ThoseSplit(slots[1..], top);
      assert slots == [slots[0]] + slots[1..];
    }
  }

  lemma {:induction false} ThoseOnce(slots: seq<BenchSlot>, top: Option<Id>, on: bool)
    requires OneEach(slots)
    ensures OneEach(Those(slots, top, on)) && (on ==> |Those(slots, top, on)| <= 1)
    decreases |slots|
  {
    if slots != [] {
      var rest := Those(slots[1..], top, on);
      ThoseOnce(slots[1..], top, on);
      ThoseHas(slots[1..], top, on);
      assert forall k :: 0 <= k < |rest| ==> rest[k] in rest && rest[k].id != slots[0].id;
      if on && rest != [] {
        assert top == Some(rest[0].id);
      }
    }
  }

  lemma {:induction false} StackIs(slots: seq<BenchSlot>, active: Option<Id>, hostRaised: bool)
    requires OneEach(slots)
    ensures var stack := Stack(slots, active, hostRaised);
            var top := if hostRaised then active else MeasureId(slots, active, hostRaised);
            && multiset(stack) == multiset(slots) && |stack| == |slots|
            && ((exists s :: s in slots && top == Some(s.id)) ==> |stack| > 0 && top == Some(stack[|stack| - 1].id))
            && forall i :: 0 <= i < |stack| - 1 ==> top != Some(stack[i].id)
  {
    var stack := Stack(slots, active, hostRaised);
    var top := if hostRaised then active else MeasureId(slots, active, hostRaised);
    var (rest, tops) := (Those(slots, top, false), Those(slots, top, true));
    ThoseHas(slots, top, false);
    ThoseHas(slots, top, true);
    ThoseSplit(slots, top);
    ThoseOnce(slots, top, true);
    assert |multiset(stack)| == |multiset(slots)|;
    assert forall i :: 0 <= i < |rest| ==> rest[i] in rest;
    assert forall i :: 0 <= i < |tops| ==> tops[i] in tops;
    hide Those, MeasureId;
  }

  lemma {:induction false} MeasureIs(slots: seq<BenchSlot>, active: Option<Id>, hostRaised: bool)
    requires OneEach(slots)
    ensures var measure := MeasureId(slots, active, hostRaised);
            && (measure.Some? <==> !hostRaised && exists s :: s in slots && !s.closed)
            && (measure.Some? ==> exists s :: s in slots && !s.closed && measure == Some(s.id))
            && (measure.Some? ==> forall s :: s in slots && active == Some(s.id) && !s.closed ==> measure == active)
  {
    if active.Some? {
      FindIs(slots, active.value);
    }
    FirstOpenIs(slots, active);
    hide Find, FirstOpen;
  }

  lemma {:induction false} FramesAre(stack: seq<BenchSlot>, measure: Option<Id>, active: Option<Id>)
    requires measure.Some? ==> |stack| > 0 && measure == Some(stack[|stack| - 1].id)
    requires forall i :: 0 <= i < |stack| - 1 ==> measure.Some? ==> measure != Some(stack[i].id)
    ensures var (frames, n) := (Frames(stack, measure, active), |stack| - 1);
            && |frames| == |stack| && (forall i :: 0 <= i <= n ==> frames[i].id == stack[i].id)
            && (measure.Some? ==>
                  && frames[n].layer.MeasureLayer? && !frames[n].occluded
                  && forall i :: 0 <= i < n ==> frames[i].occluded && !frames[i].layer.MeasureLayer?)
            && (measure.None? ==> forall i :: 0 <= i <= n ==> !frames[i].occluded && !frames[i].layer.MeasureLayer?)
            && (measure.None? && 0 <= n && active == Some(stack[n].id) ==> frames[n].layer.ActiveLayer?)
  {
  }

  /**
   * The slots are restacked, none lost and none added. Only with the host lowered is one measured: the active window
   * while it is open, else the first open one. It lies on top, nothing covers it, and it covers every other.
   */
  lemma {:induction false} MeasuredOnTop(slots: seq<BenchSlot>, active: Option<Id>, hostRaised: bool)
    requires OneEach(slots)
    ensures var frames := LayoutChatBenchSlots(slots, active, hostRaised);
            var n := |frames| - 1;
            var measured := !hostRaised && exists s :: s in slots && !s.closed;
            && multiset(Stack(slots, active, hostRaised)) == multiset(slots) && |frames| == |slots|
            && (measured ==>
                  && 0 <= n && frames[n].layer.MeasureLayer? && !frames[n].occluded
                  && !Stack(slots, active, hostRaised)[n].closed
                  && (forall s :: s in slots && active == Some(s.id) && !s.closed ==> frames[n].id == s.id)
                  && forall i :: 0 <= i < n ==> frames[i].occluded && !frames[i].layer.MeasureLayer?)
            && (!measured ==> forall i :: 0 <= i <= n ==> !frames[i].occluded && !frames[i].layer.MeasureLayer?)
            && (hostRaised && (exists s :: s in slots && active == Some(s.id)) ==> frames[n].layer.ActiveLayer?)
  {
    hide Stack, MeasureId, Frames;
    StackIs(slots, active, hostRaised);
    MeasureIs(slots, active, hostRaised);
    var (stack, measure) := (Stack(slots, active, hostRaised), MeasureId(slots, active, hostRaised));
    FramesAre(stack, measure, active);
    if measure.Some? {
      var s :| s in slots && !s.closed && measure == Some(s.id);
      assert stack[|stack| - 1] in multiset(stack);
      assert stack[|stack| - 1] in slots;
    }
  }
}
