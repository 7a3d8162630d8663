/**
 Idempotency keys: db/idempotency.py and its wrapper api/idempotency.py. A row with status code
 0 belongs to a request still in progress. Times are seconds on one clock.
*/
module Idempotency {
  import opened Common

  const DAY := 86400

  datatype Key = Key(apiKeyId: int, key: string)

  datatype Entry = Entry(status: int, body: string, createdAt: int)

  /** What claiming a key answers: proceed, the cached response, or a conflict. */
  datatype Outcome = Proceed | Cached(status: int, body: string) | InProgress

  /** What a request is told: go on (and save under the key, if it sent one), or a response. */
  datatype Reply = GoOn(saveUnder: Option<string>) | Respond(key: string, status: int, body: string)

  const CONFLICT := "A request with this idempotency key is already in progress"

  type Table = map<Key, Entry>

  /** What the look-up after a refused insert answers; a row deleted in between counts as in progress. */
  function Found(rows: Table, key: Key): Outcome {
    if key in rows && rows[key].status != 0 then Cached(rows[key].status, rows[key].body) else InProgress
  }

  /** INSERT ... ON CONFLICT DO NOTHING */
  function AfterInsert(rows: Table, key: Key, now: int): Table {
    if key in rows then rows else rows[key := Entry(0, "{}", now)]
  }

  function AfterSave(rows: Table, key: Key, status: int, body: string): Table {
    if key in rows then rows[key := rows[key].(status := status, body := body)] else rows
  }

  function Expired(rows: Table, now: int): set<Key> {
    set key | key in rows && rows[key].createdAt < now - DAY
  }

  class IdempotencyKeys {
    var rows: Table

    constructor ()
      ensures rows == map[]
    {
      rows := map[];
    }

    /**
     Two statements: the insert, and where it is refused a look at the row in the way. `seen` is
     the table as other requests and cleanups leave it between the two.
    */
    method Claim(key: Key, now: int, seen: Table) returns (outcome: Outcome)
      modifies this
      ensures outcome == Proceed <==> key !in old(rows)
      ensures key !in old(rows) ==> rows == AfterInsert(old(rows), key, now)
      ensures key in old(rows) ==> rows == seen && outcome == Found(seen, key)
      ensures key !in old(rows) ==> rows == old(rows)[key := Entry(0, "{}", now)]
      ensures key in old(rows) && key in seen && seen[key].status != 0 ==>
                outcome == Cached(seen[key].status, seen[key].body)
      ensures key in old(rows) && (key !in seen || seen[key].status == 0) ==> outcome == InProgress
    {
      if key !in rows {
        rows := rows[key := Entry(0, "{}", now)];
        return Proceed;
      }
      rows := seen;
      if key in rows {
        var existing := rows[key];
        if existing.status != 0 {
          return Cached(existing.status, existing.body);
        }
      }
      return InProgress;
    }

    method Save(key: Key, status: int, body: string)
      modifies this
      ensures rows == AfterSave(old(rows), key, status, body)
      ensures rows == if key in old(rows) then old(rows)[key := Entry(status, body, old(rows)[key].createdAt)]
                      else old(rows)
    {
      if key in rows {
        rows := rows[key := rows[key].(status := status, body := body)];
      }
    }

    method CleanupExpired(now: int) returns (deleted: nat)
      modifies this
      ensures rows == old(rows) - Expired(old(rows), now)
      ensures deleted == |Expired(old(rows), now)| == |old(rows)| - |rows|
      ensures forall key :: key in rows <==> key in old(rows) && old(rows)[key].createdAt >= now - 24 * 3600
      ensures forall key :: key in rows ==> rows[key] == old(rows)[key]
    {
      var expired := Expired(rows, now);
      assert (rows - expired).Keys == rows.Keys - expired;
      assert expired <= rows.Keys && |rows - expired| == |(rows - expired).Keys| && |rows| == |rows.Keys|;
      rows := rows - expired;
      deleted := |expired|;
    }

    /** The header of a request: without one, or with an empty one, the request just goes on. */
    method CheckIdempotency(header: Option<string>, apiKeyId: int, now: int, seen: Table) returns (reply: Reply)
      modifies this
      ensures header.None? || header.value == "" ==> reply == GoOn(None) && rows == old(rows)
      ensures header.Some? && header.value != "" ==>
                var key := Key(apiKeyId, header.value);
                && (reply == GoOn(header) <==> key !in old(rows))
                && (key !in old(rows) ==> rows == AfterInsert(old(rows), key, now))
                && (key in old(rows) ==>
                      && rows == seen
                      && reply == if key in seen && seen[key].status != 0
                                  then Respond(header.value, seen[key].status, seen[key].body)
                                  else Respond(header.value, 409, CONFLICT))
      ensures header.Some? && header.value != "" && Key(apiKeyId, header.value) !in old(rows) ==>
                rows == old(rows)[Key(apiKeyId, header.value) := Entry(0, "{}", now)]
    {
      if header.None? || header.value == "" {
        return GoOn(None);
      }
      var outcome := Claim(Key(apiKeyId, header.value), now, seen);
      match outcome
      case Proceed => return GoOn(header);
      case Cached(status, body) => return Respond(header.value, status, body);
      case InProgress => return Respond(header.value, 409, CONFLICT);
    }
  }

  // ---- runs -------------------------------------------------------------------

  datatype Op = Inserting(key: Key) | Saving(key: Key, status: int, body: string) | Cleaning

  datatype Event = Event(now: int, op: Op)

  /** granted: who was told to proceed and when; dropped: the keys each cleanup deleted. */
  datatype World = World(rows: Table, clock: int, granted: seq<(Key, int)>, dropped: seq<set<Key>>)

  function Step(w: World, e: Event): World {
    if e.now < w.clock then w else
    match e.op
    case Inserting(key) =>
      World(AfterInsert(w.rows, key, e.now), e.now,
            if key in w.rows then w.granted else w.granted + [(key, e.now)], w.dropped)
    case Saving(key, status, body) => World(AfterSave(w.rows, key, status, body), e.now, w.granted, w.dropped)
    case Cleaning =>
      World(w.rows - Expired(w.rows, e.now), e.now, w.granted, w.dropped + [Expired(w.rows, e.now)])
  }

  function Run(w: World, es: seq<Event>): World
    decreases |es|
  {
    if es == [] then w else Step(Run(w, es[..|es| - 1]), es[|es| - 1])
  }

  const START := World(map[], 0, [], [])

  function Grants(granted: seq<(Key, int)>, key: Key): nat
    decreases |granted|
  {
    if granted == [] then 0
    else Grants(granted[..|granted| - 1], key) + if granted[|granted| - 1].0 == key then 1 else 0
  }

  function Drops(dropped: seq<set<Key>>, key: Key): nat
    decreases |dropped|
  {
    if dropped == [] then 0
    else Drops(dropped[..|dropped| - 1], key) + if key in dropped[|dropped| - 1] then 1 else 0
  }

  lemma GrantAppended(granted: seq<(Key, int)>, grant: (Key, int), key: Key)
    ensures Grants(granted + [grant], key) == Grants(granted, key) + if grant.0 == key then 1 else 0
  {
    assert (granted + [grant])[..|granted|] == granted;
  }

  lemma DropAppended(dropped: seq<set<Key>>, keys: set<Key>, key: Key)
    ensures Drops(dropped + [keys], key) == Drops(dropped, key) + if key in keys then 1 else 0
  {
    assert (dropped + [keys])[..|dropped|] == dropped;
  }

  /** The grants of a key are its deletions, and one more while its row lives. */
  predicate Balanced(rows: Table, granted: seq<(Key, int)>, dropped: seq<set<Key>>, key: Key) {
    Grants(granted, key) == Drops(dropped, key) + if key in rows then 1 else 0
  }

  lemma InsertBalances(rows: Table, granted: seq<(Key, int)>, dropped: seq<set<Key>>, inserted: Key, now: int, key: Key)
    requires Balanced(rows, granted, dropped, key) && inserted !in rows
    ensures Balanced(AfterInsert(rows, inserted, now), granted + [(inserted, now)], dropped, key)
  {
    GrantAppended(granted, (inserted, now), key);
  }

  lemma CleanupBalances(rows: Table, granted: seq<(Key, int)>, dropped: seq<set<Key>>, now: int, key: Key)
    requires Balanced(rows, granted, dropped, key)
    ensures Balanced(rows - Expired(rows, now), granted, dropped + [Expired(rows, now)], key)
  {
    DropAppended(dropped, Expired(rows, now), key);
  }

  lemma StepKeepsCount(w: World, e: Event, key: Key)
    requires Balanced(w.rows, w.granted, w.dropped, key)
    ensures Balanced(Step(w, e).rows, Step(w, e).granted, Step(w, e).dropped, key)
  {
    match e.op
    case Inserting(inserted) =>
      if inserted !in w.rows {
        InsertBalances(w.rows, w.granted, w.dropped, inserted, e.now, key);
      }
    case Saving(_, _, _) =>
    case Cleaning => CleanupBalances(w.rows, w.granted, w.dropped, e.now, key);
  }

  /** A key is granted once more than it was deleted while its row lives, and as often as deleted otherwise. */
  lemma {:induction false} GrantedOncePerLife(es: seq<Event>, key: Key)
    ensures var w := Run(START, es); Balanced(w.rows, w.granted, w.dropped, key)
    decreases |es|
  {
    if es != [] {
      GrantedOncePerLife(es[..|es| - 1], key);
      StepKeepsCount(Run(START, es[..|es| - 1]), es[|es| - 1], key);
    }
  }

  /** The events neither save under the key again nor let a cleanup delete it. */
  predicate Leaves(w: World, es: seq<Event>, key: Key)
    decreases |es|
  {
    es == [] ||
    var (front, e) := (es[..|es| - 1], es[|es| - 1]);
    && Leaves(w, front, key)
    && (e.op.Saving? ==> e.op.key != key)
    && (e.op.Cleaning? ==> key !in Expired(Run(w, front).rows, e.now))
  }

  lemma {:induction false} LeftAlone(w: World, es: seq<Event>, key: Key)
    requires key in w.rows && Leaves(w, es, key)
    ensures key in Run(w, es).rows && Run(w, es).rows[key] == w.rows[key]
    decreases |es|
  {
    if es != [] {
      LeftAlone(w, es[..|es| - 1], key);
    }
  }

  lemma {:induction false} LeavesBoth(w: World, es: seq<Event>, more: seq<Event>, key: Key)
    requires Leaves(w, es, key) && Leaves(Run(w, es), more, key)
    ensures Leaves(w, es + more, key) && Run(w, es + more) == Run(Run(w, es), more)
    decreases |more|
  {
    if more == [] {
      assert es + more == es;
    } else {
      assert (es + more)[..|es + more| - 1] == es + more[..|more| - 1];
      LeavesBoth(w, es, more[..|more| - 1], key);
    }
  }

  /**
   After a save every later claim is refused the insert and is answered with exactly the saved
   pair, whatever happens before the insert and between it and the look-up, if and only if the
   saved status is not 0; a saved 0 leaves the key in progress.
  */
  lemma SavedIsReturned(w: World, key: Key, status: int, body: string, now: int, es: seq<Event>, more: seq<Event>)
    requires key in w.rows && now >= w.clock
    requires var saved := Step(w, Event(now, Saving(key, status, body)));
             Leaves(saved, es, key) && Leaves(Run(saved, es), more, key)
    ensures var inserted := Run(Step(w, Event(now, Saving(key, status, body))), es);
            var looked := Run(inserted, more);
            && key in inserted.rows
            && (Found(looked.rows, key) == Cached(status, body) <==> status != 0)
            && (status == 0 ==> Found(looked.rows, key) == InProgress)
  {
    var saved := Step(w, Event(now, Saving(key, status, body)));
    LeftAlone(saved, es, key);
    LeavesBoth(saved, es, more, key);
    LeftAlone(saved, es + more, key);
  }

  /** The last grant of a live key is the age of its row, and of a deleted key more than a day old. */
  predicate Aged(w: World, grant: (Key, int)) {
    && grant.1 <= w.clock
    && (if grant.0 in w.rows then w.rows[grant.0].createdAt == grant.1 || w.rows[grant.0].createdAt > grant.1 + DAY
        else w.clock > grant.1 + DAY)
  }

  predicate Apart(granted: seq<(Key, int)>, i: int, j: int)
    requires 0 <= i < j < |granted|
  {
    granted[i].0 == granted[j].0 ==> granted[j].1 > granted[i].1 + DAY
  }

  ghost predicate Inv(w: World) {
    && (forall i :: 0 <= i < |w.granted| ==> Aged(w, w.granted[i]))
    && (forall i, j :: 0 <= i < j < |w.granted| ==> Apart(w.granted, i, j))
  }

  lemma StepAges(w: World, e: Event, grant: (Key, int))
    requires Aged(w, grant)
    ensures Aged(Step(w, e), grant)
  {
  }

  lemma StepKeepsInv(w: World, e: Event)
    requires Inv(w)
    ensures Inv(Step(w, e))
  {
    var v := Step(w, e);
    forall i | 0 <= i < |v.granted|
      ensures Aged(v, v.granted[i])
    {
      if i < |w.granted| {
        StepAges(w, e, w.granted[i]);
      }
    }
    forall i, j | 0 <= i < j < |v.granted|
      ensures Apart(v.granted, i, j)
    {
      if j < |w.granted| {
        assert Apart(w.granted, i, j);
      } else {
        assert Aged(w, w.granted[i]);
      }
    }
  }

  lemma {:induction false} RunKeepsInv(es: seq<Event>)
    ensures Inv(Run(START, es))
    decreases |es|
  {
    if es != [] {
      RunKeepsInv(es[..|es| - 1]);
      StepKeepsInv(Run(START, es[..|es| - 1]), es[|es| - 1]);
    }
  }

  /** In every run, two requests told to proceed with the same key are more than a day apart. */
  lemma GrantsADayApart(es: seq<Event>, i: nat, j: nat)
    requires i < j < |Run(START, es).granted|
    requires Run(START, es).granted[i].0 == Run(START, es).granted[j].0
    ensures Run(START, es).granted[j].1 - Run(START, es).granted[i].1 > DAY
  {
    RunKeepsInv(es);
    assert Apart(Run(START, es).granted, i, j);
  }
}
