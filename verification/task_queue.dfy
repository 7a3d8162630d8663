/**
 The durable task queue of db/task_queue.py. Every SQL statement (or transaction) is one
 atomic function on the table; the class TaskTable holds the table and its methods are
 the Python functions, each proved to take the table where the pure function says.

 Times are clock readings in seconds. A payload keeps its id-valued fields only.
*/
module TaskQueue {
  import opened Common

  const DEFAULT_MAX_ATTEMPTS := 3
  const DAY := 86400
  const BACKOFF_CAP := 300
  const ERROR_LIMIT := 2000

  datatype Status = Pending | Running | Completed | Failed {
    predicate Terminal() {
      Completed? || Failed?
    }
  }

  /** A job, or the finalization claim whose task_type is "_finalize_<key>_<value>". */
  datatype TaskType = Work(name: string) | Marker(key: string, value: int)

  type Payload = map<string, int>

  datatype Task = Task(
    taskType: TaskType,
    payload: Payload,
    status: Status,
    attempts: int,
    maxAttempts: int,
    createdAt: int,
    runAt: Option<int>,
    startedAt: Option<int>,
    completedAt: Option<int>,
    claimedBy: Option<string>,
    error: Option<string>)

  type Table = map<int, Task>

  // ---- one row ----------------------------------------------------------------

  function NewTask(name: string, payload: Payload, now: int): Task {
    Task(Work(name), payload, Pending, 0, DEFAULT_MAX_ATTEMPTS, now, Some(now), None, None, None, None)
  }

  function NewMarker(key: string, value: int, now: int): Task {
    Task(Marker(key, value), map[], Completed, 0, DEFAULT_MAX_ATTEMPTS, now, Some(now), None, Some(now), None, None)
  }

  predicate Eligible(t: Task, now: int) {
    && t.status.Pending?
    && t.attempts < t.maxAttempts
    && (t.runAt.None? || t.runAt.value <= now)
  }

  predicate Exhausted(t: Task) {
    t.attempts >= t.maxAttempts
  }

  function Claimed(t: Task, worker: string, now: int): Task {
    t.(status := Running, startedAt := Some(now), attempts := t.attempts + 1, claimedBy := Some(worker))
  }

  function Done(t: Task, now: int): Task {
    t.(status := Completed, completedAt := Some(now))
  }

  function Pow2(n: int): (p: int)
    ensures p >= 1
  {
    if n <= 0 then 1 else 2 * Pow2(n - 1)
  }

  function Backoff(attempts: int): int {
    Min(10 * Pow2(attempts), BACKOFF_CAP)
  }

  function Truncated(error: string): Option<string> {
    if error == "" then None else Some(if |error| > ERROR_LIMIT then error[..ERROR_LIMIT] else error)
  }

  function Broken(t: Task, error: string, now: int): Task {
    t.(status := if Exhausted(t) then Failed else Pending,
       error := Truncated(error),
       completedAt := if Exhausted(t) then Some(now) else None,
       startedAt := None,
       claimedBy := None,
       runAt := if Exhausted(t) then t.runAt else Some(now + Backoff(t.attempts)))
  }

  predicate Stale(t: Task, minutes: int, now: int) {
    t.status.Running? && t.startedAt.Some? && t.startedAt.value < now - 60 * minutes
  }

  function Requeued(t: Task, now: int): Task {
    var last := t.attempts + 1 >= t.maxAttempts;
    t.(status := if last then Failed else Pending,
       attempts := t.attempts + 1,
       startedAt := None,
       claimedBy := None,
       completedAt := if last then Some(now) else None)
  }

  function Reset(t: Task): Task {
    t.(status := Pending, error := None, attempts := 0, startedAt := None, completedAt := None, claimedBy := None)
  }

  /** payload->>key = value. */
  predicate Carries(t: Task, key: string, value: int) {
    key in t.payload && t.payload[key] == value
  }

  // ---- the table --------------------------------------------------------------

  /** One new row per payload, under consecutive ids. */
  function AfterEnqueue(rows: Table, nextId: int, name: string, payloads: seq<Payload>, now: int): Table {
    if payloads == [] then rows else
    var last := |payloads| - 1;
    AfterEnqueue(rows, nextId, name, payloads[..last], now)[nextId + last := NewTask(name, payloads[last], now)]
  }

  lemma {:induction false} AfterEnqueueRow(rows: Table, nextId: int, name: string, payloads: seq<Payload>, now: int,
                                           id: int)
    ensures var after := AfterEnqueue(rows, nextId, name, payloads, now);
            && (id in after <==> id in rows || nextId <= id < nextId + |payloads|)
            && (id in after && nextId <= id < nextId + |payloads| ==>
                  after[id] == NewTask(name, payloads[id - nextId], now))
            && (id in rows && !(nextId <= id < nextId + |payloads|) ==> after[id] == rows[id])
  {
    if payloads != [] {
      AfterEnqueueRow(rows, nextId, name, payloads[..|payloads| - 1], now, id);
    }
  }

  function AfterClaim(rows: Table, id: int, worker: string, now: int): Table {
    if id in rows && Eligible(rows[id], now) then rows[id := Claimed(rows[id], worker, now)] else rows
  }

  function AfterComplete(rows: Table, id: int, now: int): Table {
    if id in rows then rows[id := Done(rows[id], now)] else rows
  }

  function AfterFail(rows: Table, id: int, error: string, now: int): Table {
    if id in rows then rows[id := Broken(rows[id], error, now)] else rows
  }

  predicate FailExhausts(rows: Table, id: int) {
    id in rows && Exhausted(rows[id])
  }

  function AfterRequeueStale(rows: Table, minutes: int, now: int): Table {
    map id | id in rows :: if Stale(rows[id], minutes, now) then Requeued(rows[id], now) else rows[id]
  }

  predicate OldMarker(t: Task, now: int) {
    t.taskType.Marker? && t.completedAt.Some? && t.completedAt.value < now - DAY
  }

  function AfterMarkerCleanup(rows: Table, now: int): Table {
    map id | id in rows && !OldMarker(rows[id], now) :: rows[id]
  }

  predicate HasMarker(rows: Table, key: string, value: int) {
    exists id :: id in rows && rows[id].taskType == Marker(key, value)
  }

  predicate SiblingsTerminal(rows: Table, key: string, value: int) {
    forall id :: id in rows && Carries(rows[id], key, value) ==> rows[id].status.Terminal()
  }

  predicate Grants(rows: Table, key: string, value: int) {
    !HasMarker(rows, key, value) && SiblingsTerminal(rows, key, value)
  }

  function AfterCheck(rows: Table, nextId: int, key: string, value: int, now: int): Table {
    if Grants(rows, key, value) then rows[nextId := NewMarker(key, value, now)] else rows
  }

  function AfterRetry(rows: Table, id: int): Table {
    if id in rows && rows[id].status.Failed? then rows[id := Reset(rows[id])] else rows
  }

  predicate Disposable(t: Task, days: int, now: int) {
    && t.status.Terminal()
    && t.completedAt.Some? && t.completedAt.value < now - DAY * days
    && t.taskType.Work?
  }

  function AfterCleanup(rows: Table, days: int, now: int): Table {
    map id | id in rows && !Disposable(rows[id], days, now) :: rows[id]
  }

  // ---- the Python functions ---------------------------------------------------

  lemma OldestExists(rows: Table, now: int, candidates: set<int>)
    requires candidates != {}
    requires forall id :: id in candidates ==> id in rows
    ensures exists id :: id in candidates
                         && forall other :: other in candidates ==> rows[id].createdAt <= rows[other].createdAt
  {
    Inhabited(candidates);
    var some :| some in candidates;
    var (rest, first) := (candidates - {some}, some);
    if rest != {} {
      OldestExists(rows, now, rest);
      var id :| id in rest && forall other :: other in rest ==> rows[id].createdAt <= rows[other].createdAt;
      first := if rows[id].createdAt <= rows[some].createdAt then id else some;
    }
    forall other | other in candidates
      ensures rows[first].createdAt <= rows[other].createdAt
    {
      assert other == some || other in rest;
    }
  }

  class TaskTable {
    var rows: Table
    var nextId: int

    constructor ()
      ensures rows == map[] && nextId == 1
    {
      rows, nextId := map[], 1;
    }

    method EnqueueMany(name: string, payloads: seq<Payload>, now: int) returns (count: nat)
      modifies this
      ensures rows == AfterEnqueue(old(rows), old(nextId), name, payloads, now)
      ensures nextId == old(nextId) + |payloads|
      ensures count == |payloads|
      ensures forall i :: 0 <= i < |payloads| ==>
                old(nextId) + i in rows
                && rows[old(nextId) + i]
                == Task(Work(name), payloads[i], Pending, 0, 3, now, Some(now), None, None, None, None)
      ensures forall id :: id in old(rows) && !(old(nextId) <= id < nextId) ==> id in rows && rows[id] == old(rows)[id]
      ensures forall id :: id in rows ==> id in old(rows) || old(nextId) <= id < nextId
    {
      for i := 0 to |payloads|
        invariant nextId == old(nextId) + i
        invariant rows == AfterEnqueue(old(rows), old(nextId), name, payloads[..i], now)
      {
        rows := rows[nextId := NewTask(name, payloads[i], now)];
        nextId := nextId + 1;
        assert payloads[..i + 1][..i] == payloads[..i];
      }
      assert payloads[..|payloads|] == payloads;
      count := |payloads|;
      forall id
        ensures id in rows <==> id in old(rows) || old(nextId) <= id < nextId
        ensures old(nextId) <= id < nextId ==> rows[id] == NewTask(name, payloads[id - old(nextId)], now)
        ensures id in old(rows) && !(old(nextId) <= id < nextId) ==> rows[id] == old(rows)[id]
      {
        AfterEnqueueRow(old(rows), old(nextId), name, payloads, now, id);
      }
    }

    /**
     Claims the oldest due task; None exactly when no row is due: pending, with attempts left, and
     past the time it was told to wait for.
    */
    method ClaimNext(worker: string, now: int) returns (claimed: Option<(int, Task)>)
      modifies this
      ensures nextId == old(nextId)
      ensures claimed.None? <==>
              forall id :: id in old(rows) ==>
                var t := old(rows)[id];
                !(t.status.Pending? && t.attempts < t.maxAttempts && (t.runAt.None? || t.runAt.value <= now))
      ensures claimed.None? ==> rows == old(rows)
      ensures claimed.Some? ==>
        var (id, task) := claimed.value;
        && id in old(rows)
        && rows == AfterClaim(old(rows), id, worker, now) == old(rows)[id := task]
        && var t := old(rows)[id];
           && t.status.Pending? && t.attempts < t.maxAttempts && (t.runAt.None? || t.runAt.value <= now)
           && task == t.(status := Running, startedAt := Some(now), attempts := t.attempts + 1,
                         claimedBy := Some(worker))
      ensures claimed.Some? ==>
        forall id :: id in old(rows) ==>
          var t := old(rows)[id];
          (t.status.Pending? && t.attempts < t.maxAttempts && (t.runAt.None? || t.runAt.value <= now)
           ==> claimed.value.1.createdAt <= t.createdAt)
    {
      var due := set id | id in rows && Eligible(rows[id], now);
      if due == {} {
        assert forall id :: id in rows && Eligible(rows[id], now) ==> id in due;
        return None;
      }
      OldestExists(rows, now, due);
      var id :| id in due && forall other :: other in due ==> rows[id].createdAt <= rows[other].createdAt;
      rows := rows[id := Claimed(rows[id], worker, now)];
      claimed := Some((id, rows[id]));
    }

    method Complete(id: int, now: int)
      modifies this
      ensures rows == AfterComplete(old(rows), id, now) && nextId == old(nextId)
      ensures rows == if id in old(rows)
                      then old(rows)[id := old(rows)[id].(status := Completed, completedAt := Some(now))]
                      else old(rows)
    {
      if id in rows {
        rows := rows[id := Done(rows[id], now)];
      }
    }

    method Fail(id: int, error: string, now: int) returns (exhausted: bool)
      modifies this
      ensures rows == AfterFail(old(rows), id, error, now) && nextId == old(nextId)
      ensures exhausted <==> FailExhausts(old(rows), id)
      ensures id !in old(rows) ==> !exhausted && rows == old(rows)
      ensures id in old(rows) ==>
        var t := old(rows)[id];
        var failed := t.(error := if error == "" then None else Some(error[..Min(|error|, 2000)]),
                         startedAt := None, claimedBy := None);
        && (exhausted <==> t.attempts >= t.maxAttempts)
        && rows == old(rows)[id := if exhausted then failed.(status := Failed, completedAt := Some(now))
                                   else failed.(status := Pending, completedAt := None,
                                                runAt := Some(now + Backoff(t.attempts)))]
    {
      exhausted := false;
      if id in rows {
        assert |error| <= 2000 ==> error[..|error|] == error;
        rows := rows[id := Broken(rows[id], error, now)];
        exhausted := Exhausted(rows[id]);
      }
    }

    /** The two statements of requeue_stale; the count is the number of rows requeued. */
    method RequeueStale(minutes: int, now: int) returns (count: nat)
      modifies this
      ensures rows == AfterMarkerCleanup(AfterRequeueStale(old(rows), minutes, now), now)
      ensures nextId == old(nextId)
      ensures forall id :: id in old(rows) ==>
                var t := old(rows)[id];
                var stale := t.status.Running? && t.startedAt.Some? && t.startedAt.value < now - 60 * minutes;
                && (id in rows <==>
                      stale || !(t.taskType.Marker? && t.completedAt.Some? && t.completedAt.value < now - 86400))
                && (id in rows ==> rows[id] == if !stale then t else
                      t.(status := if t.attempts + 1 < t.maxAttempts then Pending else Failed,
                         attempts := t.attempts + 1, startedAt := None, claimedBy := None,
                         completedAt := if t.attempts + 1 < t.maxAttempts then None else Some(now)))
      ensures forall id :: id in rows ==> id in old(rows)
      ensures count == |set id | id in old(rows) && old(rows)[id].status.Running? && old(rows)[id].startedAt.Some?
                              && old(rows)[id].startedAt.value < now - 60 * minutes|
    {
      var stale := set id | id in rows && Stale(rows[id], minutes, now);
      assert stale == set id | id in rows && rows[id].status.Running? && rows[id].startedAt.Some?
                               && rows[id].startedAt.value < now - 60 * minutes;
      count := |stale|;
      rows := AfterRequeueStale(rows, minutes, now);
      rows := AfterMarkerCleanup(rows, now);
    }

    method CheckNoPendingSiblings(key: string, value: int, now: int) returns (granted: bool)
      modifies this
      ensures granted <==> Grants(old(rows), key, value)
      ensures rows == AfterCheck(old(rows), old(nextId), key, value, now)
      ensures nextId == old(nextId) + if granted then 1 else 0
      ensures granted <==>
              && (forall id :: id in old(rows) ==> old(rows)[id].taskType != Marker(key, value))
              && (forall id ::
                    id in old(rows) && key in old(rows)[id].payload && old(rows)[id].payload[key] == value ==>
                    old(rows)[id].status.Completed? || old(rows)[id].status.Failed?)
      ensures rows == if !granted then old(rows) else
                      old(rows)[old(nextId) := Task(Marker(key, value), map[], Completed, 0, 3, now, Some(now), None,
                                                    Some(now), None, None)]
    {
      if exists id :: id in rows && rows[id].taskType == Marker(key, value) {
        return false;
      }
      var open := set id | id in rows && Carries(rows[id], key, value) && !rows[id].status.Terminal();
      if |open| != 0 {
        Inhabited(open);
        var id :| id in open;
        return false;
      }
      assert forall id :: id in rows && Carries(rows[id], key, value) && !rows[id].status.Terminal() ==> id in open;
      rows := rows[nextId := NewMarker(key, value, now)];
      nextId := nextId + 1;
      granted := true;
    }

    method RetryFailedTask(id: int) returns (updated: bool)
      modifies this
      ensures rows == AfterRetry(old(rows), id) && nextId == old(nextId)
      ensures updated <==> id in old(rows) && old(rows)[id].status.Failed?
      ensures rows == if !updated then old(rows) else
                      old(rows)[id := old(rows)[id].(status := Pending, error := None, attempts := 0,
                                                     startedAt := None, completedAt := None, claimedBy := None)]
    {
      updated := id in rows && rows[id].status.Failed?;
      if updated {
        rows := rows[id := Reset(rows[id])];
      }
    }

    method CleanupCompletedTasks(days: int, now: int) returns (count: nat)
      modifies this
      ensures rows == AfterCleanup(old(rows), days, now) && nextId == old(nextId)
      ensures count == |old(rows)| - |rows|
      ensures forall id :: id in rows <==>
                id in old(rows)
                && var t := old(rows)[id];
                   !((t.status.Completed? || t.status.Failed?) && t.taskType.Work?
                     && t.completedAt.Some? && t.completedAt.value < now - 86400 * days)
      ensures forall id :: id in rows ==> rows[id] == old(rows)[id]
    {
      var kept := AfterCleanup(rows, days, now);
      SubsetSize(kept.Keys, rows.Keys);
      count := |rows.Keys| - |kept.Keys|;
      rows := kept;
    }
  }

  // ---- what the functions do to one another -----------------------------------

  /**
   A task that fails with attempts left can be claimed again from the moment its backoff is over,
   and not before: 10 seconds doubled with each attempt, five minutes at most.
  */
  lemma RetryWaits(rows: Table, id: int, error: string, now: int, worker: string, later: int)
    requires id in rows && 0 <= rows[id].attempts < rows[id].maxAttempts
    ensures var a := rows[id].attempts;
            var wait := if a == 0 then 10 else if a == 1 then 20 else if a == 2 then 40 else if a == 3 then 80
                        else if a == 4 then 160 else 300;
            var failed := AfterFail(rows, id, error, now);
            && id in failed && failed[id].status.Pending? && failed[id].runAt == Some(now + wait)
            && id in AfterClaim(failed, id, worker, later)
            && (AfterClaim(failed, id, worker, later)[id].status.Running? <==> later >= now + wait)
  {
    var a := rows[id].attempts;
    if a < 5 {
      assert Pow2(0) == 1 && Pow2(1) == 2 && Pow2(2) == 4 && Pow2(3) == 8 && Pow2(4) == 16;
    } else {
      PowerGrows(5, a);
      assert Pow2(4) == 16 && Pow2(5) == 32;
    }
  }

  lemma {:induction false} PowerGrows(n: nat, m: nat)
    requires n <= m
    ensures Pow2(n) <= Pow2(m)
  {
    if n < m {
      PowerGrows(n, m - 1);
    }
  }

  /** A sweep of m minutes leaves a claimed task alone exactly until m minutes after its claim. */
  lemma SweepSpares(rows: Table, id: int, worker: string, now: int, minutes: int, later: int)
    requires id in rows && rows[id].status.Pending? && rows[id].attempts < rows[id].maxAttempts
    requires rows[id].runAt.None? || rows[id].runAt.value <= now
    ensures var claimed := AfterClaim(rows, id, worker, now);
            var swept := AfterRequeueStale(claimed, minutes, later);
            && id in claimed && claimed[id].status.Running? && id in swept
            && (swept[id] == claimed[id] <==> later <= now + 60 * minutes)
            && (later > now + 60 * minutes ==> !swept[id].status.Running?)
  {
  }

  /** A reset task can be claimed at once if its last backoff is over, as often as a new one. */
  lemma ResetRuns(rows: Table, id: int, worker: string, now: int)
    requires id in rows && rows[id].status.Failed? && rows[id].maxAttempts > 0
    ensures var reset := AfterRetry(rows, id);
            && id in AfterClaim(reset, id, worker, now)
            && (AfterClaim(reset, id, worker, now)[id].status.Running?
                <==> rows[id].runAt.None? || rows[id].runAt.value <= now)
            && (AfterClaim(reset, id, worker, now)[id].status.Running? ==>
                  AfterClaim(reset, id, worker, now)[id].attempts == 1)
  {
  }

  // ---- every interleaving -----------------------------------------------------

  /**
   The table together with the dispatches that workers still owe an answer for: a claim
   adds its task to flights, and the worker's complete or fail takes it out again. A task
   may be in flight twice, when a slow worker's row was requeued and claimed again.
  */
  datatype World = World(rows: Table, nextId: int, flights: multiset<int>, clock: int)

  datatype Event =
    | EnqueueEvent(name: string, payloads: seq<Payload>, at: int)
    | ClaimEvent(id: int, worker: string, at: int)
    | CompleteEvent(id: int, at: int)
    | FailEvent(id: int, error: string, at: int)
    | StaleEvent(minutes: int, at: int)
    | MarkerCleanupEvent(at: int)
    | CheckEvent(key: string, value: int, at: int)
    | RetryEvent(id: int, at: int)
    | CleanupEvent(days: int, at: int)

  function Empty(start: int): World {
    World(map[], 1, multiset{}, start)
  }

  predicate CanClaim(w: World, id: int, now: int) {
    id in w.rows && Eligible(w.rows[id], now)
  }

  /** An event that is not enabled, or that would turn the clock back, changes nothing. */
  predicate Enabled(w: World, e: Event) {
    && w.clock <= e.at
    && match e
       case ClaimEvent(id, _, now) => CanClaim(w, id, now)
       case CompleteEvent(id, _) => id in w.flights
       case FailEvent(id, _, _) => id in w.flights
       case _ => true
  }

  function Step(w: World, e: Event): World {
    if !Enabled(w, e) then w
    else Apply(w, e).(clock := e.at)
  }

  function Apply(w: World, e: Event): World {
    match e
    case EnqueueEvent(name, payloads, now) =>
      w.(rows := AfterEnqueue(w.rows, w.nextId, name, payloads, now), nextId := w.nextId + |payloads|)
    case ClaimEvent(id, worker, now) =>
      w.(rows := AfterClaim(w.rows, id, worker, now), flights := w.flights + multiset{id})
    case CompleteEvent(id, now) =>
      w.(rows := AfterComplete(w.rows, id, now), flights := w.flights - multiset{id})
    case FailEvent(id, error, now) =>
      w.(rows := AfterFail(w.rows, id, error, now), flights := w.flights - multiset{id})
    case StaleEvent(minutes, now) =>
      w.(rows := AfterRequeueStale(w.rows, minutes, now))
    case MarkerCleanupEvent(now) =>
      w.(rows := AfterMarkerCleanup(w.rows, now))
    case CheckEvent(key, value, now) =>
      w.(rows := AfterCheck(w.rows, w.nextId, key, value, now),
         nextId := w.nextId + if Grants(w.rows, key, value) then 1 else 0)
    case RetryEvent(id, _) =>
      w.(rows := AfterRetry(w.rows, id))
    case CleanupEvent(days, now) =>
      w.(rows := AfterCleanup(w.rows, days, now))
  }

  function Run(w: World, es: seq<Event>): World
    decreases |es|
  {
    if es == [] then w else Run(Step(w, es[0]), es[1..])
  }

  // ---- what every step keeps --------------------------------------------------

  ghost predicate RowOk(t: Task) {
    && t.maxAttempts > 0
    && 0 <= t.attempts <= t.maxAttempts + 1
    && (t.status.Pending? ==> t.attempts < t.maxAttempts)
    && (t.status.Running? ==> 1 <= t.attempts <= t.maxAttempts)
    && (t.status.Failed? ==> t.attempts >= t.maxAttempts)
    && (t.taskType.Marker? ==> t.status.Completed? && t.completedAt.Some? && t.payload == map[])
  }

  ghost predicate Inv(w: World) {
    && (forall id :: id in w.rows ==> id < w.nextId && RowOk(w.rows[id]))
    && (forall id :: id in w.flights ==> id < w.nextId)
    && (forall id :: id in w.flights && id in w.rows ==> w.rows[id].taskType.Work?)
    && (forall id :: id in w.rows && w.rows[id].taskType.Marker? ==> w.rows[id].completedAt.value <= w.clock)
  }

  lemma StepKeepsInv(w: World, e: Event)
    requires Inv(w)
    ensures Inv(Step(w, e))
  {
    if Enabled(w, e) {
      var w' := Step(w, e);
      forall id | id in w'.rows
        ensures id < w'.nextId && RowOk(w'.rows[id])
        ensures id in w'.flights ==> w'.rows[id].taskType.Work?
        ensures w'.rows[id].taskType.Marker? ==> w'.rows[id].completedAt.value <= w'.clock
      {
        StepKeepsRow(w, e, id);
      }
    }
  }

  /** A row keeps its type and payload for life, and its id is never given to another. */
  predicate SameJob(t: Task, t': Task) {
    t.taskType == t'.taskType && t.payload == t'.payload
  }

  /** A legal row under an id, whatever event left it there. */
  ghost predicate RowKept(w: World, w': World, id: int)
    requires id in w'.rows
  {
    var row := w'.rows[id];
    && id < w'.nextId && RowOk(row)
    && (id in w'.flights ==> row.taskType.Work?)
    && (row.taskType.Marker? ==> row.completedAt.value <= w'.clock)
    && (if id in w.rows then SameJob(row, w.rows[id]) else w.nextId <= id)
  }

  lemma EnqueueKeeps(w: World, e: Event, id: int)
    requires Inv(w) && Enabled(w, e) && e.EnqueueEvent? && id in Step(w, e).rows
    ensures RowKept(w, Step(w, e), id)
  {
    AfterEnqueueRow(w.rows, w.nextId, e.name, e.payloads, e.at, id);
  }

  lemma ClaimKeeps(w: World, e: Event, id: int)
    requires Inv(w) && Enabled(w, e) && e.ClaimEvent? && id in Step(w, e).rows
    ensures RowKept(w, Step(w, e), id)
  {
  }

  lemma WorkerKeeps(w: World, e: Event, id: int)
    requires Inv(w) && Enabled(w, e) && (e.CompleteEvent? || e.FailEvent?) && id in Step(w, e).rows
    ensures RowKept(w, Step(w, e), id)
  {
  }

  lemma SweepKeeps(w: World, e: Event, id: int)
    requires Inv(w) && Enabled(w, e) && (e.StaleEvent? || e.RetryEvent?) && id in Step(w, e).rows
    ensures RowKept(w, Step(w, e), id)
  {
  }

  lemma CleanupKeeps(w: World, e: Event, id: int)
    requires Inv(w) && Enabled(w, e) && (e.MarkerCleanupEvent? || e.CleanupEvent?) && id in Step(w, e).rows
    ensures RowKept(w, Step(w, e), id)
  {
  }

  lemma CheckKeeps(w: World, e: Event, id: int)
    requires Inv(w) && Enabled(w, e) && e.CheckEvent? && id in Step(w, e).rows
    ensures RowKept(w, Step(w, e), id)
  {
  }

  lemma StepKeepsRow(w: World, e: Event, id: int)
    requires Inv(w) && Enabled(w, e) && id in Step(w, e).rows
    ensures id < Step(w, e).nextId && RowOk(Step(w, e).rows[id])
    ensures id in Step(w, e).flights ==> Step(w, e).rows[id].taskType.Work?
    ensures Step(w, e).rows[id].taskType.Marker? ==> Step(w, e).rows[id].completedAt.value <= e.at
    ensures if id in w.rows then SameJob(Step(w, e).rows[id], w.rows[id]) else w.nextId <= id
  {
    match e
    case EnqueueEvent(_, _, _) => EnqueueKeeps(w, e, id);
    case ClaimEvent(_, _, _) => ClaimKeeps(w, e, id);
    case CompleteEvent(_, _) => WorkerKeeps(w, e, id);
    case FailEvent(_, _, _) => WorkerKeeps(w, e, id);
    case StaleEvent(_, _) => SweepKeeps(w, e, id);
    case RetryEvent(_, _) => SweepKeeps(w, e, id);
    case MarkerCleanupEvent(_) => CleanupKeeps(w, e, id);
    case CleanupEvent(_, _) => CleanupKeeps(w, e, id);
    case CheckEvent(_, _, _) => CheckKeeps(w, e, id);
  }

  lemma {:induction false} RowInvariant(start: int, es: seq<Event>)
    ensures Inv(Run(Empty(start), es))
  {
    RunKeepsInv(Empty(start), es);
  }

  lemma {:induction false} RunKeepsInv(w: World, es: seq<Event>)
    requires Inv(w)
    ensures Inv(Run(w, es))
    decreases |es|
  {
    if es != [] {
      StepKeepsInv(w, es[0]);
      RunKeepsInv(Step(w, es[0]), es[1..]);
    }
  }

  /** Whatever happens, a row that is found under an id is the job that was enqueued under it. */
  lemma {:induction false} RunKeepsJob(w: World, es: seq<Event>, id: int, t: Task)
    requires Inv(w) && id < w.nextId && (id in w.rows ==> SameJob(w.rows[id], t))
    ensures id < Run(w, es).nextId && (id in Run(w, es).rows ==> SameJob(Run(w, es).rows[id], t))
    decreases |es|
  {
    if es != [] {
      StepKeepsInv(w, es[0]);
      if Enabled(w, es[0]) && id in Step(w, es[0]).rows {
        StepKeepsRow(w, es[0], id);
      }
      RunKeepsJob(Step(w, es[0]), es[1..], id, t);
    }
  }

  // ---- one task followed through a run ----------------------------------------

  /** What fail returned True on: claims since the last admin reset, and completes seen. */
  datatype Exhaustion = Exhaustion(claims: nat, maxAttempts: int, completions: nat)

  /** claims and stales count since the last admin reset, the rest since the start. */
  datatype Trace = Trace(
    claims: nat,
    stales: nat,
    allStales: nat,
    resets: nat,
    completions: nat,
    exhaustions: seq<Exhaustion>)

  const Untouched := Trace(0, 0, 0, 0, 0, [])

  function Observe(tr: Trace, w: World, e: Event, task: int): Trace {
    if !Enabled(w, e) then tr else
    match e
    case ClaimEvent(id, _, _) => if id == task then tr.(claims := tr.claims + 1) else tr
    case CompleteEvent(id, _) => if id == task then tr.(completions := tr.completions + 1) else tr
    case FailEvent(id, _, _) =>
      if id == task && FailExhausts(w.rows, id)
      then tr.(exhaustions := tr.exhaustions + [Exhaustion(tr.claims, w.rows[id].maxAttempts, tr.completions)])
      else tr
    case StaleEvent(minutes, now) =>
      if task in w.rows && Stale(w.rows[task], minutes, now)
      then tr.(stales := tr.stales + 1, allStales := tr.allStales + 1)
      else tr
    case RetryEvent(id, _) =>
      if id == task && id in w.rows && w.rows[id].status.Failed?
      then tr.(claims := 0, stales := 0, resets := tr.resets + 1)
      else tr
    case _ => tr
  }

  function Follow(tr: Trace, w: World, es: seq<Event>, task: int): Trace
    decreases |es|
  {
    if es == [] then tr else Follow(Observe(tr, w, es[0], task), Step(w, es[0]), es[1..], task)
  }

  ghost predicate TraceInv(tr: Trace, w: World, task: int) {
    if task in w.rows then
      var t := w.rows[task];
      && t.attempts == tr.claims + tr.stales
      && tr.claims <= t.maxAttempts
      && |tr.exhaustions| + w.flights[task]
           <= tr.allStales + tr.resets + (if t.status.Running? || t.status.Failed? then 1 else 0)
      && (tr.allStales == tr.resets == 0 ==> Lifecycle(tr, t, w.flights[task]))
    else if task < w.nextId then
      && |tr.exhaustions| <= 1 + tr.allStales + tr.resets
      && (tr.allStales == tr.resets == 0 ==> Settled(tr))
    else
      tr == Untouched && w.flights[task] == 0
  }

  /** No stale requeue, no admin reset: at most one dispatch, and one outcome. */
  ghost predicate Lifecycle(tr: Trace, t: Task, flights: nat) {
    && tr.stales == 0
    && (t.taskType.Work? ==> flights == if t.status.Running? then 1 else 0)
    && (t.taskType.Work? ==> tr.completions == if t.status.Completed? then 1 else 0)
    && |tr.exhaustions| == (if t.status.Failed? then 1 else 0)
    && (t.taskType.Marker? ==> tr.completions == 0)
    && Settled(tr)
  }

  ghost predicate Settled(tr: Trace) {
    && |tr.exhaustions| <= 1
    && forall x :: x in tr.exhaustions ==> x.claims == x.maxAttempts && x.completions == 0
  }

  lemma EnqueueTraced(tr: Trace, w: World, e: Event, task: int)
    requires Inv(w) && TraceInv(tr, w, task) && Enabled(w, e) && e.EnqueueEvent?
    ensures TraceInv(Observe(tr, w, e, task), Step(w, e), task)
  {
    AfterEnqueueRow(w.rows, w.nextId, e.name, e.payloads, e.at, task);
  }

  lemma ClaimTraced(tr: Trace, w: World, e: Event, task: int)
    requires Inv(w) && TraceInv(tr, w, task) && Enabled(w, e) && e.ClaimEvent?
    ensures TraceInv(Observe(tr, w, e, task), Step(w, e), task)
  {
  }

  lemma CompleteTraced(tr: Trace, w: World, e: Event, task: int)
    requires Inv(w) && TraceInv(tr, w, task) && Enabled(w, e) && e.CompleteEvent?
    ensures TraceInv(Observe(tr, w, e, task), Step(w, e), task)
  {
  }

  lemma FailTraced(tr: Trace, w: World, e: Event, task: int)
    requires Inv(w) && TraceInv(tr, w, task) && Enabled(w, e) && e.FailEvent?
    ensures TraceInv(Observe(tr, w, e, task), Step(w, e), task)
  {
  }

  lemma StaleTraced(tr: Trace, w: World, e: Event, task: int)
    requires Inv(w) && TraceInv(tr, w, task) && Enabled(w, e) && e.StaleEvent?
    ensures TraceInv(Observe(tr, w, e, task), Step(w, e), task)
  {
  }

  lemma ResetTraced(tr: Trace, w: World, e: Event, task: int)
    requires Inv(w) && TraceInv(tr, w, task) && Enabled(w, e) && e.RetryEvent?
    ensures TraceInv(Observe(tr, w, e, task), Step(w, e), task)
  {
  }

  lemma CleanupTraced(tr: Trace, w: World, e: Event, task: int)
    requires Inv(w) && TraceInv(tr, w, task) && Enabled(w, e) && (e.MarkerCleanupEvent? || e.CleanupEvent?)
    ensures TraceInv(Observe(tr, w, e, task), Step(w, e), task)
  {
  }

  lemma CheckTraced(tr: Trace, w: World, e: Event, task: int)
    requires Inv(w) && TraceInv(tr, w, task) && Enabled(w, e) && e.CheckEvent?
    ensures TraceInv(Observe(tr, w, e, task), Step(w, e), task)
  {
  }

  lemma StepKeepsTrace(tr: Trace, w: World, e: Event, task: int)
    requires Inv(w) && TraceInv(tr, w, task)
    ensures TraceInv(Observe(tr, w, e, task), Step(w, e), task)
  {
    if Enabled(w, e) {
      match e
      case EnqueueEvent(_, _, _) => EnqueueTraced(tr, w, e, task);
      case ClaimEvent(_, _, _) => ClaimTraced(tr, w, e, task);
      case CompleteEvent(_, _) => CompleteTraced(tr, w, e, task);
      case FailEvent(_, _, _) => FailTraced(tr, w, e, task);
      case StaleEvent(_, _) => StaleTraced(tr, w, e, task);
      case MarkerCleanupEvent(_) => CleanupTraced(tr, w, e, task);
      case CheckEvent(_, _, _) => CheckTraced(tr, w, e, task);
      case RetryEvent(_, _) => ResetTraced(tr, w, e, task);
      case CleanupEvent(_, _) => CleanupTraced(tr, w, e, task);
    }
  }

  lemma {:induction false} FollowKeepsTrace(tr: Trace, w: World, es: seq<Event>, task: int)
    requires Inv(w) && TraceInv(tr, w, task)
    ensures Inv(Run(w, es)) && TraceInv(Follow(tr, w, es, task), Run(w, es), task)
    decreases |es|
  {
    if es != [] {
      StepKeepsInv(w, es[0]);
      StepKeepsTrace(tr, w, es[0], task);
      FollowKeepsTrace(Observe(tr, w, es[0], task), Step(w, es[0]), es[1..], task);
    }
  }

  /** A task is claimed at most max_attempts times between admin resets, whatever slow workers do. */
  lemma ClaimsBounded(start: int, es: seq<Event>, task: int)
    ensures var w, tr := Run(Empty(start), es), Follow(Untouched, Empty(start), es, task);
            task in w.rows ==> tr.claims <= w.rows[task].maxAttempts && w.rows[task].attempts == tr.claims + tr.stales
  {
    FollowKeepsTrace(Untouched, Empty(start), es, task);
  }

  /** fail returns True at most once more than the task was requeued as stale or reset by an admin. */
  lemma ExhaustionsBounded(start: int, es: seq<Event>, task: int)
    ensures var tr := Follow(Untouched, Empty(start), es, task);
            |tr.exhaustions| <= 1 + tr.allStales + tr.resets
  {
    FollowKeepsTrace(Untouched, Empty(start), es, task);
  }

  /** A dispatch of the task fails when its attempts are used up. */
  predicate FailsForGood(w: World, e: Event, task: int) {
    && Enabled(w, e) && e.FailEvent? && e.id == task
    && task in w.rows && w.rows[task].attempts >= w.rows[task].maxAttempts
  }

  /** A sweep comes when the task has been running for longer than it allows. */
  predicate FindsLate(w: World, e: Event, task: int) {
    && Enabled(w, e) && e.StaleEvent? && task in w.rows && w.rows[task].status.Running?
    && w.rows[task].startedAt.Some? && w.rows[task].startedAt.value < e.at - 60 * e.minutes
  }

  /** An admin resets the failed task. */
  predicate ResetsFailed(w: World, e: Event, task: int) {
    Enabled(w, e) && e.RetryEvent? && e.id == task && task in w.rows && w.rows[task].status.Failed?
  }

  function TerminalFailures(w: World, es: seq<Event>, task: int): nat
    decreases |es|
  {
    if es == [] then 0
    else (if FailsForGood(w, es[0], task) then 1 else 0) + TerminalFailures(Step(w, es[0]), es[1..], task)
  }

  function TimesSwept(w: World, es: seq<Event>, task: int): nat
    decreases |es|
  {
    if es == [] then 0
    else (if FindsLate(w, es[0], task) then 1 else 0) + TimesSwept(Step(w, es[0]), es[1..], task)
  }

  function TimesReset(w: World, es: seq<Event>, task: int): nat
    decreases |es|
  {
    if es == [] then 0
    else (if ResetsFailed(w, es[0], task) then 1 else 0) + TimesReset(Step(w, es[0]), es[1..], task)
  }

  lemma ObserveCounts(tr: Trace, w: World, e: Event, task: int)
    ensures var tr' := Observe(tr, w, e, task);
            && |tr'.exhaustions| == |tr.exhaustions| + (if FailsForGood(w, e, task) then 1 else 0)
            && tr'.allStales == tr.allStales + (if FindsLate(w, e, task) then 1 else 0)
            && tr'.resets == tr.resets + (if ResetsFailed(w, e, task) then 1 else 0)
  {
  }

  lemma {:induction false} TraceCounts(tr: Trace, w: World, es: seq<Event>, task: int)
    ensures var tr' := Follow(tr, w, es, task);
            && |tr'.exhaustions| == |tr.exhaustions| + TerminalFailures(w, es, task)
            && tr'.allStales == tr.allStales + TimesSwept(w, es, task)
            && tr'.resets == tr.resets + TimesReset(w, es, task)
    decreases |es|
  {
    if es != [] {
      ObserveCounts(tr, w, es[0], task);
      TraceCounts(Observe(tr, w, es[0], task), Step(w, es[0]), es[1..], task);
    }
  }

  /** In every run: terminal failures of a task are one at most, and one more for each sweep and each reset of it. */
  lemma TerminalFailuresBounded(start: int, es: seq<Event>, task: int)
    ensures TerminalFailures(Empty(start), es, task)
         <= 1 + TimesSwept(Empty(start), es, task) + TimesReset(Empty(start), es, task)
  {
    ExhaustionsBounded(start, es, task);
    TraceCounts(Untouched, Empty(start), es, task);
  }

  /**
   Without stale requeues and resets, fail returns True at most once, after exactly
   max_attempts claims and never after a complete: one refund at most per research job.
  */
  lemma ExhaustionOnce(start: int, es: seq<Event>, task: int)
    requires var tr := Follow(Untouched, Empty(start), es, task); tr.allStales == 0 && tr.resets == 0
    ensures var tr := Follow(Untouched, Empty(start), es, task);
            |tr.exhaustions| <= 1 && forall x :: x in tr.exhaustions ==> x.claims == x.maxAttempts && x.completions == 0
  {
    FollowKeepsTrace(Untouched, Empty(start), es, task);
  }

  lemma FollowOne(tr: Trace, w: World, e: Event, es: seq<Event>, task: int)
    ensures Follow(tr, w, [e] + es, task) == Follow(Observe(tr, w, e, task), Step(w, e), es, task)
  {
    assert ([e] + es)[1..] == es;
  }

  /** Two dispatches of a task at its attempt limit both report exhaustion. */
  lemma BothFail(tr: Trace, w: World, task: int)
    requires task in w.rows && Exhausted(w.rows[task]) && w.flights == multiset{task, task}
    ensures |Follow(tr, w, [FailEvent(task, "slow", w.clock), FailEvent(task, "quick", w.clock)], task).exhaustions|
         == |tr.exhaustions| + 2
    ensures var tr' := Follow(tr, w, [FailEvent(task, "slow", w.clock), FailEvent(task, "quick", w.clock)], task);
            tr'.allStales == tr.allStales && tr'.resets == tr.resets
  {
    var (e, e') := (FailEvent(task, "slow", w.clock), FailEvent(task, "quick", w.clock));
    var (tr', w') := (Observe(tr, w, e, task), Step(w, e));
    assert w'.rows[task].attempts == w.rows[task].attempts && w'.flights == multiset{task};
    FollowOne(tr, w, e, [e'], task);
    FollowOne(tr', w', e', [], task);
    assert [e, e'] == [e] + [e'] && [e'] == [e'] + [];
  }

  function Lone(t: Task, flights: multiset<int>, clock: int): World {
    World(map[1 := t], 2, flights, clock)
  }

  lemma LoneArrives(t: Task)
    requires t == NewTask("research", map[], 0)
    ensures Step(Empty(0), EnqueueEvent("research", [map[]], 0)) == Lone(t, multiset{}, 0)
    ensures Observe(Untouched, Empty(0), EnqueueEvent("research", [map[]], 0), 1) == Untouched
  {
    assert AfterEnqueue(map[], 1, "research", [map[]], 0) == map[1 := t];
  }

  lemma LoneIsClaimed(t: Task, worker: string, tr: Trace, flights: multiset<int>, now: int)
    requires Eligible(t, now)
    ensures Step(Lone(t, flights, now), ClaimEvent(1, worker, now))
         == Lone(Claimed(t, worker, now), flights + multiset{1}, now)
    ensures Observe(tr, Lone(t, flights, now), ClaimEvent(1, worker, now), 1) == tr.(claims := tr.claims + 1)
  {
  }

  lemma LoneGoesStale(t: Task, tr: Trace, flights: multiset<int>, now: int, later: int)
    requires now <= later && Stale(t, 15, later)
    ensures Step(Lone(t, flights, now), StaleEvent(15, later)) == Lone(Requeued(t, later), flights, later)
    ensures Observe(tr, Lone(t, flights, now), StaleEvent(15, later), 1)
         == tr.(stales := tr.stales + 1, allStales := tr.allStales + 1)
  {
    assert AfterRequeueStale(map[1 := t], 15, later) == map[1 := Requeued(t, later)];
  }

  /** A task claimed by a slow worker and requeued as stale, before es. */
  lemma SlowStart(t: Task, es: seq<Event>) returns (longer: seq<Event>)
    requires t == NewTask("research", map[], 0)
    ensures Follow(Untouched, Empty(0), longer, 1)
         == Follow(Trace(1, 1, 1, 0, 0, []), Lone(Requeued(Claimed(t, "slow", 0), 1000), multiset{1}, 1000), es, 1)
  {
    var t2 := Claimed(t, "slow", 0);
    var w := Lone(t2, multiset{1}, 0);
    LoneArrives(t);
    LoneIsClaimed(t, "slow", Untouched, multiset{}, 0);
    LoneGoesStale(t2, Trace(1, 0, 0, 0, 0, []), multiset{1}, 0, 1000);
    longer := Before(Trace(1, 0, 0, 0, 0, []), w, StaleEvent(15, 1000), es,
                     Lone(Requeued(t2, 1000), multiset{1}, 1000));
    longer := Before(Untouched, Lone(t, multiset{}, 0), ClaimEvent(1, "slow", 0), longer, w);
    longer := Before(Untouched, Empty(0), EnqueueEvent("research", [map[]], 0), longer, Lone(t, multiset{}, 0));
  }

  /** One stale requeue is enough for two terminal failures of one task: the bound is attained. */
  lemma ExhaustionTwiceAfterStale() returns (es: seq<Event>)
    ensures var tr := Follow(Untouched, Empty(0), es, 1);
            |tr.exhaustions| == 2 && tr.allStales == 1 && tr.resets == 0
  {
    var (late, tr) := (1000, Trace(1, 1, 1, 0, 0, []));
    var t := NewTask("research", map[], 0);
    var t3 := Requeued(Claimed(t, "slow", 0), late);
    LoneIsClaimed(t3, "quick", tr, multiset{1}, late);
    var w := Lone(Claimed(t3, "quick", late), multiset{1, 1}, late);
    es := [FailEvent(1, "slow", late), FailEvent(1, "quick", late)];
    BothFail(tr.(claims := 2), w, 1);
    es := Before(tr, Lone(t3, multiset{1}, late), ClaimEvent(1, "quick", late), es, w);
    es := SlowStart(t, es);
  }

  lemma Before(tr: Trace, w: World, e: Event, es: seq<Event>, w': World) returns (longer: seq<Event>)
    requires w' == Step(w, e)
    ensures longer == [e] + es
    ensures Follow(tr, w, longer, 1) == Follow(Observe(tr, w, e, 1), w', es, 1)
  {
    FollowOne(tr, w, e, es, 1);
    longer := [e] + es;
  }

  // ---- finalization claims ----------------------------------------------------

  predicate GrantsNow(w: World, e: Event, key: string, value: int) {
    Enabled(w, e) && e.CheckEvent? && e.key == key && e.value == value && Grants(w.rows, key, value)
  }

  /** The times at which check_no_pending_siblings returned True for one parent key. */
  function GrantTimes(w: World, es: seq<Event>, key: string, value: int): seq<int>
    decreases |es|
  {
    if es == [] then []
    else (if GrantsNow(w, es[0], key, value) then [es[0].at] else []) + GrantTimes(Step(w, es[0]), es[1..], key, value)
  }

  ghost predicate MarkedAt(w: World, key: string, value: int, at: int) {
    exists id :: id in w.rows && w.rows[id].taskType == Marker(key, value) && w.rows[id].completedAt == Some(at)
  }

  /** A grant sees every row of its key terminal, and leaves a marker with its own time. */
  lemma GrantIsSafe(w: World, e: Event, key: string, value: int)
    requires Inv(w) && GrantsNow(w, e, key, value)
    ensures forall id :: id in w.rows && Carries(w.rows[id], key, value) ==>
      !w.rows[id].status.Pending? && !w.rows[id].status.Running?
    ensures MarkedAt(Step(w, e), key, value, e.at)
  {
    assert w.nextId in Step(w, e).rows && Step(w, e).rows[w.nextId] == NewMarker(key, value, e.at);
  }

  /** A marker outlives every step except the 24-hour cleanup, which frees the key only when it is due. */
  lemma MarkerPersists(w: World, e: Event, key: string, value: int, at: int)
    requires Inv(w) && MarkedAt(w, key, value, at)
    ensures !GrantsNow(w, e, key, value)
    ensures MarkedAt(Step(w, e), key, value, at) || at + DAY < Step(w, e).clock
  {
    var id :| id in w.rows && w.rows[id].taskType == Marker(key, value) && w.rows[id].completedAt == Some(at);
    if e.EnqueueEvent? {
      AfterEnqueueRow(w.rows, w.nextId, e.name, e.payloads, e.at, id);
    }
    if Enabled(w, e) && !(e.MarkerCleanupEvent? && OldMarker(w.rows[id], e.at)) {
      assert id in Step(w, e).rows && Step(w, e).rows[id] == w.rows[id];
    }
  }

  /** Every time lies beyond floor, and each later one more than a day beyond the one before. */
  ghost predicate DayApart(floor: int, times: seq<int>) {
    && (forall i :: 0 <= i < |times| ==> floor < times[i])
    && (forall i, j :: 0 <= i < j < |times| ==> times[i] + DAY < times[j])
  }

  lemma DayApartCons(floor: int, first: int, times: seq<int>)
    requires floor < first && DayApart(first + DAY, times)
    ensures DayApart(floor, [first] + times)
  {
    var all := [first] + times;
    assert forall i :: 1 <= i < |all| ==> all[i] == times[i - 1];
  }

  /** times lie more than a day apart, and more than a day after any marker that lives. */
  ghost predicate SpacedAfter(w: World, key: string, value: int, times: seq<int>) {
    && DayApart(w.clock - 1, times)
    && forall at :: MarkedAt(w, key, value, at) ==> DayApart(at + DAY, times)
  }

  lemma GrantSpaces(w: World, e: Event, key: string, value: int, later: seq<int>)
    requires Inv(w) && GrantsNow(w, e, key, value) && SpacedAfter(Step(w, e), key, value, later)
    ensures SpacedAfter(w, key, value, [e.at] + later)
  {
    GrantIsSafe(w, e, key, value);
    assert DayApart(e.at + DAY, later);
    DayApartCons(w.clock - 1, e.at, later);
    forall at
      ensures !MarkedAt(w, key, value, at)
    {
      if MarkedAt(w, key, value, at) {
        MarkerPersists(w, e, key, value, at);
      }
    }
  }

  lemma OtherStepSpaces(w: World, e: Event, key: string, value: int, later: seq<int>)
    requires Inv(w) && !GrantsNow(w, e, key, value) && SpacedAfter(Step(w, e), key, value, later)
    ensures SpacedAfter(w, key, value, later)
  {
    forall at | MarkedAt(w, key, value, at)
      ensures DayApart(at + DAY, later)
    {
      MarkerPersists(w, e, key, value, at);
    }
  }

  lemma {:induction false} GrantTimesSpaced(w: World, es: seq<Event>, key: string, value: int)
    requires Inv(w)
    ensures SpacedAfter(w, key, value, GrantTimes(w, es, key, value))
    decreases |es|
  {
    if es != [] {
      var (e, w') := (es[0], Step(w, es[0]));
      var later := GrantTimes(w', es[1..], key, value);
      StepKeepsInv(w, e);
      GrantTimesSpaced(w', es[1..], key, value);
      if GrantsNow(w, e, key, value) {
        GrantSpaces(w, e, key, value, later);
      } else {
        OtherStepSpaces(w, e, key, value, later);
        assert [] + later == later;
      }
    }
  }

  /**
   Finalization safety over every run: two grants for one parent are more than 24 hours
   apart, so while its marker lives the parent is finalized at most once.
  */
  lemma FinalizationOnceADay(start: int, es: seq<Event>, key: string, value: int)
    ensures var times := GrantTimes(Empty(start), es, key, value);
            forall i, j :: 0 <= i < j < |times| ==> times[i] + DAY < times[j]
  {
    GrantTimesSpaced(Empty(start), es, key, value);
  }

  // ---- who can be granted -----------------------------------------------------

  predicate Sweeps(w: World, e: Event, task: int) {
    Enabled(w, e) && e.StaleEvent? && task in w.rows && Stale(w.rows[task], e.minutes, e.at)
  }

  predicate NeverSwept(w: World, es: seq<Event>, task: int)
    decreases |es|
  {
    es == [] || (!Sweeps(w, es[0], task) && NeverSwept(Step(w, es[0]), es[1..], task))
  }

  /** A task has one dispatch while its row is running, and none otherwise. */
  ghost predicate OneDispatch(w: World, task: int) {
    w.flights[task] == if task in w.rows && w.rows[task].status.Running? then 1 else 0
  }

  lemma WorkKeepsDispatch(w: World, e: Event, task: int)
    requires Inv(w) && OneDispatch(w, task) && Enabled(w, e)
    requires e.ClaimEvent? || e.CompleteEvent? || e.FailEvent?
    ensures OneDispatch(Step(w, e), task)
  {
  }

  lemma SweepKeepsDispatch(w: World, e: Event, task: int)
    requires Inv(w) && OneDispatch(w, task) && Enabled(w, e) && !Sweeps(w, e, task)
    requires e.StaleEvent? || e.RetryEvent?
    ensures OneDispatch(Step(w, e), task)
  {
  }

  lemma CleanupKeepsDispatch(w: World, e: Event, task: int)
    requires Inv(w) && OneDispatch(w, task) && Enabled(w, e)
    requires e.MarkerCleanupEvent? || e.CleanupEvent? || e.CheckEvent?
    ensures OneDispatch(Step(w, e), task)
  {
  }

  lemma StepKeepsDispatch(w: World, e: Event, task: int)
    requires Inv(w) && OneDispatch(w, task) && !Sweeps(w, e, task)
    ensures OneDispatch(Step(w, e), task)
  {
    if Enabled(w, e) {
      match e
      case EnqueueEvent(name, payloads, now) => AfterEnqueueRow(w.rows, w.nextId, name, payloads, now, task);
      case ClaimEvent(_, _, _) => WorkKeepsDispatch(w, e, task);
      case CompleteEvent(_, _) => WorkKeepsDispatch(w, e, task);
      case FailEvent(_, _, _) => WorkKeepsDispatch(w, e, task);
      case StaleEvent(_, _) => SweepKeepsDispatch(w, e, task);
      case RetryEvent(_, _) => SweepKeepsDispatch(w, e, task);
      case MarkerCleanupEvent(_) => CleanupKeepsDispatch(w, e, task);
      case CleanupEvent(_, _) => CleanupKeepsDispatch(w, e, task);
      case CheckEvent(_, _, _) => CleanupKeepsDispatch(w, e, task);
    }
  }

  lemma {:induction false} UnsweptDispatch(w: World, es: seq<Event>, task: int)
    requires Inv(w) && OneDispatch(w, task) && NeverSwept(w, es, task)
    ensures OneDispatch(Run(w, es), task)
    decreases |es|
  {
    if es != [] {
      StepKeepsInv(w, es[0]);
      StepKeepsDispatch(w, es[0], task);
      UnsweptDispatch(Step(w, es[0]), es[1..], task);
    }
  }

  /**
   A dispatch that asks for the finalization of its own parent is granted only if its own row
   was swept at some time: otherwise that row is still running, and is counted.
  */
  lemma NeverGrantedUnswept(start: int, es: seq<Event>, task: int, key: string, value: int)
    requires NeverSwept(Empty(start), es, task) && task in Run(Empty(start), es).flights
    ensures var rows := Run(Empty(start), es).rows;
            task in rows && (Carries(rows[task], key, value) ==> !Grants(rows, key, value))
  {
    UnsweptDispatch(Empty(start), es, task);
  }
}
