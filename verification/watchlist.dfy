/**
 Recurring research: db/watchlist.py. Each function is one atomic step on the table, and times
 are seconds on one clock.
*/
module Watchlist {
  import opened Common

  const DAY := 86400
  const WEEK := 7 * DAY

  /** last: the document of the last run, and when that was. */
  datatype Item = Item(userId: int, url: string, name: Option<string>, schedule: string, status: string,
                       nextRun: int, last: Option<(int, int)>)

  function Interval(schedule: string, otherwise: int): int {
    if schedule == "weekly" then WEEK
    else if schedule == "biweekly" then 2 * WEEK
    else if schedule == "monthly" then 30 * DAY
    else otherwise
  }

  /** A week, two weeks or 30 days on; an unknown schedule counts as weekly here. */
  function NextRun(schedule: string, now: int): (next: int)
    ensures next >= now + WEEK
    ensures schedule == "biweekly" ==> next - now == 14 * 86400
    ensures schedule == "monthly" ==> next - now == 30 * 86400
    ensures schedule != "biweekly" && schedule != "monthly" ==> next - now == 7 * 86400
  {
    now + Interval(schedule, WEEK)
  }

  type Table = map<int, Item>

  predicate IsDue(item: Item, now: int) {
    item.status == "active" && item.nextRun <= now
  }

  function Due(items: Table, now: int): set<int> {
    Where(items, (item: Item) => IsDue(item, now))
  }

  /** A batch of due items: as many as allowed, and none while one due earlier is left out. */
  ghost predicate Batch(items: Table, now: int, size: nat, ids: set<int>) {
    && ids <= Due(items, now)
    && |ids| == Min(size, |Due(items, now)|)
    && forall i, j :: i in ids && j in Due(items, now) - ids ==> items[i].nextRun <= items[j].nextRun
  }

  function Claimed(items: Table, now: int, ids: set<int>): Table {
    map id | id in items :: if id in ids then items[id].(nextRun := now + 30 * DAY) else items[id]
  }

  /** The item of a user and url, if there is one: (user_id, company_url) is unique. */
  predicate IsFor(item: Item, userId: int, url: string) {
    item.userId == userId && item.url == url
  }

  function Renewed(item: Item, schedule: string, now: int): Item {
    item.(status := "active", schedule := schedule, nextRun := NextRun(schedule, now))
  }

  /** Pausing keeps next_run_at; becoming active again sets it, and an unknown schedule counts as biweekly here. */
  function Updated(item: Item, schedule: Option<string>, status: Option<string>, now: int): Item {
    var newSchedule := if schedule.Some? then schedule.value else item.schedule;
    var newStatus := if status.Some? then status.value else item.status;
    item.(schedule := newSchedule, status := newStatus,
          nextRun := if status == Some("active") && item.status != "active" then now + Interval(newSchedule, 2 * WEEK)
                     else item.nextRun)
  }

  function Completed(item: Item, documentId: int, schedule: string, now: int): Item {
    item.(last := Some((documentId, now)), nextRun := NextRun(schedule, now), status := "active")
  }

  lemma {:induction false} EarliestExists(items: Table, ids: set<int>)
    requires ids != {} && forall id :: id in ids ==> id in items
    ensures exists id :: id in ids && forall o :: o in ids ==> items[id].nextRun <= items[o].nextRun
    decreases |ids|
  {
    Inhabited(ids);
    var some :| some in ids;
    var rest := ids - {some};
    if rest != {} {
      EarliestExists(items, rest);
      var id :| id in rest && forall o :: o in rest ==> items[id].nextRun <= items[o].nextRun;
      var best := if items[some].nextRun < items[id].nextRun then some else id;
      forall o | o in ids
        ensures items[best].nextRun <= items[o].nextRun
      {
        assert o == some || o in rest;
      }
    }
  }

  /** What a batch is, in the fields of the items. */
  lemma BatchMeaning(items: Table, now: int, size: nat, ids: set<int>)
    requires Batch(items, now, size, ids)
    ensures forall id :: id in ids ==>
              && id in items && items[id].status == "active" && items[id].nextRun <= now
              && items[id].(nextRun := now + 30 * 86400) == Claimed(items, now, ids)[id]
    ensures forall id :: id in items && id !in ids ==> Claimed(items, now, ids)[id] == items[id]
    ensures forall id, other ::
              id in items && items[id].status == "active" && items[id].nextRun <= now && id !in ids && other in ids ==>
              items[other].nextRun <= items[id].nextRun
    ensures |ids| <= size
    ensures |ids| < size ==>
              forall id :: id in items && items[id].status == "active" && items[id].nextRun <= now ==> id in ids
  {
    var due := Due(items, now);
    assert forall id :: id in due <==> id in items && items[id].status == "active" && items[id].nextRun <= now;
    SubsetSize(ids, due);
  }

  class WatchlistItems {
    var items: Table
    var nextId: int

    constructor ()
      ensures items == map[] && nextId == 1
    {
      items, nextId := map[], 1;
    }

    /** INSERT ... ON CONFLICT (user_id, company_url) DO UPDATE */
    method CreateWatchlistItem(userId: int, url: string, name: Option<string>, schedule: string, now: int)
      returns (id: int)
      requires nextId !in items
      modifies this
      ensures if exists k :: k in old(items) && IsFor(old(items)[k], userId, url) then
                && id in old(items) && IsFor(old(items)[id], userId, url) && nextId == old(nextId)
                && items == old(items)[id := Renewed(old(items)[id], schedule, now)]
                && items[id] == old(items)[id].(status := "active", schedule := schedule,
                                                nextRun := NextRun(schedule, now))
                && old(items)[id].userId == userId && old(items)[id].url == url
              else
                && id == old(nextId) && nextId == id + 1
                && items == old(items)[id := Item(userId, url, name, schedule, "active", NextRun(schedule, now), None)]
    {
      if k :| k in items && IsFor(items[k], userId, url) {
        id := k;
        items := items[id := Renewed(items[id], schedule, now)];
      } else {
        id := nextId;
        items := items[id := Item(userId, url, name, schedule, "active", NextRun(schedule, now), None)];
        nextId := nextId + 1;
      }
    }

    method UpdateWatchlistItem(id: int, userId: int, schedule: Option<string>, status: Option<string>, now: int)
      returns (found: bool)
      modifies this`items
      ensures found == (id in old(items) && old(items)[id].userId == userId)
      ensures items == if found then old(items)[id := Updated(old(items)[id], schedule, status, now)] else old(items)
      ensures found ==>
        var (item, item') := (old(items)[id], items[id]);
        && item' == item.(schedule := item'.schedule, status := item'.status, nextRun := item'.nextRun)
        && item'.schedule == (if schedule.Some? then schedule.value else item.schedule)
        && item'.status == (if status.Some? then status.value else item.status)
        && item'.nextRun == if status != Some("active") || item.status == "active" then item.nextRun
                            else if item'.schedule == "weekly" then now + 7 * 86400
                            else if item'.schedule == "monthly" then now + 30 * 86400
                            else now + 14 * 86400
    {
      found := id in items && items[id].userId == userId;
      if found {
        items := items[id := Updated(items[id], schedule, status, now)];
      }
    }

    method DeleteWatchlistItem(id: int, userId: int) returns (deleted: bool)
      modifies this`items
      ensures deleted == (id in old(items) && old(items)[id].userId == userId)
      ensures items == if deleted then old(items) - {id} else old(items)
    {
      deleted := id in items && items[id].userId == userId;
      if deleted {
        items := items - {id};
      }
    }

    method ClaimDueItems(size: nat, now: int) returns (claimed: set<int>)
      modifies this`items
      ensures Batch(old(items), now, size, claimed)
      ensures items == Claimed(old(items), now, claimed)
      ensures forall id :: id in claimed ==>
                && id in old(items) && old(items)[id].status == "active" && old(items)[id].nextRun <= now
                && id in items && items[id] == old(items)[id].(nextRun := now + 30 * 86400)
      ensures forall id :: id in old(items) && id !in claimed ==> id in items && items[id] == old(items)[id]
      ensures forall id, other ::
                id in old(items) && old(items)[id].status == "active" && old(items)[id].nextRun <= now
                && id !in claimed && other in claimed ==>
                old(items)[other].nextRun <= old(items)[id].nextRun
      ensures |claimed| <= size
      ensures |claimed| < size ==>
                forall id :: id in old(items) && old(items)[id].status == "active" && old(items)[id].nextRun <= now ==>
                  id in claimed
    {
      claimed := TakeEarliest(size, now);
      BatchMeaning(items, now, size, claimed);
      items := Claimed(items, now, claimed);
    }

    /** SELECT ... ORDER BY next_run_at LIMIT size, over the due items. */
    method TakeEarliest(size: nat, now: int) returns (claimed: set<int>)
      ensures Batch(items, now, size, claimed)
    {
      var table := items;
      var due := Due(table, now);
      claimed := {};
      var left := due;
      while |claimed| < size && left != {}
        invariant claimed + left == due && claimed !! left && |claimed| <= size
        invariant forall id :: id in due ==> id in table
        invariant forall i, j :: i in claimed && j in left ==> table[i].nextRun <= table[j].nextRun
        decreases left
      {
        EarliestExists(table, left);
        var id :| id in left && forall o :: o in left ==> table[id].nextRun <= table[o].nextRun;
        claimed, left := claimed + {id}, left - {id};
      }
      assert due - claimed == left;
      SubsetSize(claimed, due);
    }

    method CompleteWatchlistRun(id: int, documentId: int, schedule: string, now: int)
      modifies this`items
      ensures items == if id in old(items) then old(items)[id := Completed(old(items)[id], documentId, schedule, now)]
                       else old(items)
      ensures id in old(items) ==>
                items[id] == old(items)[id].(last := Some((documentId, now)), nextRun := NextRun(schedule, now),
                                             status := "active")
    {
      if id in items {
        items := items[id := Completed(items[id], documentId, schedule, now)];
      }
    }

    method MarkSkippedNoCredits(id: int)
      modifies this`items
      ensures items == if id in old(items) then old(items)[id := old(items)[id].(status := "skipped_no_credits")]
                       else old(items)
    {
      if id in items {
        items := items[id := items[id].(status := "skipped_no_credits")];
      }
    }
  }

  // ---- runs -------------------------------------------------------------------

  datatype Op =
    | Create(item: Item)
    | Renew(id: int, schedule: string)
    | Update(id: int, userId: int, newSchedule: Option<string>, newStatus: Option<string>)
    | Delete(id: int, userId: int)
    | Claim(size: nat, ids: set<int>)
    | Complete(id: int, documentId: int, schedule: string)
    | Skip(id: int)

  datatype Event = Event(now: int, op: Op)

  datatype Claiming = Claiming(ids: set<int>, at: int)

  datatype World = World(items: Table, nextId: int, clock: int, claims: seq<Claiming>)

  /** Whether a step can be taken: the clock does not run back, and a claim takes a proper batch. */
  ghost predicate Enabled(w: World, e: Event) {
    && e.now >= w.clock
    && match e.op
       case Create(item) => item.status == "active" && item.nextRun == NextRun(item.schedule, e.now)
                            && forall k :: k in w.items ==> !IsFor(w.items[k], item.userId, item.url)
       case Claim(size, ids) => Batch(w.items, e.now, size, ids)
       case Renew(id, _) => id in w.items
       case Update(id, userId, _, _) => id in w.items && w.items[id].userId == userId
       case Delete(id, userId) => id in w.items && w.items[id].userId == userId
       case Complete(id, _, _) => id in w.items
       case Skip(id) => id in w.items
  }

  /** One database function; a step that is not enabled changes nothing. */
  ghost function Step(w: World, e: Event): World {
    if !Enabled(w, e) then w else
    var next := World(w.items, w.nextId, e.now, w.claims);
    match e.op
    case Create(item) => next.(items := w.items[w.nextId := item], nextId := w.nextId + 1)
    case Renew(id, schedule) => next.(items := w.items[id := Renewed(w.items[id], schedule, e.now)])
    case Update(id, _, schedule, status) =>
      next.(items := w.items[id := Updated(w.items[id], schedule, status, e.now)])
    case Delete(id, _) => next.(items := w.items - {id})
    case Claim(_, ids) => next.(items := Claimed(w.items, e.now, ids), claims := w.claims + [Claiming(ids, e.now)])
    case Complete(id, documentId, schedule) =>
      next.(items := w.items[id := Completed(w.items[id], documentId, schedule, e.now)])
    case Skip(id) => next.(items := w.items[id := w.items[id].(status := "skipped_no_credits")])
  }

  ghost function Run(w: World, es: seq<Event>): World
    decreases |es|
  {
    if es == [] then w else Step(Run(w, es[..|es| - 1]), es[|es| - 1])
  }

  const START := World(map[], 1, 0, [])

  /** A claimed item that still exists is not due again within a week of the claim. */
  predicate Rested(w: World, claiming: Claiming, id: int) {
    id in claiming.ids && id in w.items ==> w.items[id].nextRun >= claiming.at + WEEK
  }

  predicate Spaced(claims: seq<Claiming>, i: int, j: int)
    requires 0 <= i < j < |claims|
  {
    forall id :: id in claims[i].ids && id in claims[j].ids ==> claims[j].at >= claims[i].at + WEEK
  }

  ghost predicate Inv(w: World) {
    && (forall id :: id in w.items ==> id < w.nextId)
    && (forall i :: 0 <= i < |w.claims| ==> w.claims[i].at <= w.clock)
    && (forall i, id :: 0 <= i < |w.claims| && id in w.claims[i].ids ==> id < w.nextId)
    && (forall i, id :: 0 <= i < |w.claims| ==> Rested(w, w.claims[i], id))
    && (forall i, j :: 0 <= i < j < |w.claims| ==> Spaced(w.claims, i, j))
  }

  /** Whatever the step, a rested item stays rested: every write of next_run_at is a week ahead or more. */
  lemma StepRests(w: World, e: Event, claiming: Claiming, id: int)
    requires claiming.at <= w.clock && Rested(w, claiming, id) && (id in claiming.ids ==> id < w.nextId)
    ensures Rested(Step(w, e), claiming, id)
  {
  }

  lemma ClaimSpaced(w: World, now: int, size: nat, ids: set<int>, claiming: Claiming, id: int)
    requires Batch(w.items, now, size, ids) && Rested(w, claiming, id)
    requires id in claiming.ids && id in ids
    ensures now >= claiming.at + WEEK
  {
  }

  lemma StepKeepsInv(w: World, e: Event)
    requires Inv(w)
    ensures Inv(Step(w, e))
  {
    var v := Step(w, e);
    forall i, id | 0 <= i < |v.claims|
      ensures Rested(v, v.claims[i], id)
    {
      if i < |w.claims| {
        StepRests(w, e, w.claims[i], id);
      }
    }
    forall i, j | 0 <= i < j < |v.claims|
      ensures Spaced(v.claims, i, j)
    {
      if j == |w.claims| {
        forall id | id in v.claims[i].ids && id in v.claims[j].ids
          ensures v.claims[j].at >= v.claims[i].at + WEEK
        {
          ClaimSpaced(w, e.now, e.op.size, e.op.ids, w.claims[i], id);
        }
      } else {
        assert Spaced(w.claims, i, j);
      }
    }
  }

  lemma {:induction false} RunKeepsInv(es: seq<Event>)
    ensures Inv(Run(START, es))
    decreases |es|
  {
    if es != [] {
      RunKeepsInv(es[..|es| - 1]);
      StepKeepsInv(Run(START, es[..|es| - 1]), es[|es| - 1]);
    }
  }

  /** In every run, two claims of the same item are at least seven days apart. */
  lemma ClaimsSpaced(es: seq<Event>, i: nat, j: nat, id: int)
    requires i < j < |Run(START, es).claims|
    requires id in Run(START, es).claims[i].ids && id in Run(START, es).claims[j].ids
    ensures Run(START, es).claims[j].at - Run(START, es).claims[i].at >= WEEK
  {
    RunKeepsInv(es);
    assert Spaced(Run(START, es).claims, i, j);
  }
}
