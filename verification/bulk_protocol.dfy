/**
 One bulk job from reservation to refund, run by any number of workers over the shared
 queue: api/jobs.py run_bulk_job and run_bulk_item, worker.py _dispatch, and the
 statements of db/task_queue.py, db/bulk.py and db/users.py they execute. Each database
 call is one step, and the steps of all workers, of the stale sweep, of the cleanups, of the
 admin retry and of readers that time out slow items (api/routes.py) interleave freely.
*/
module BulkProtocol {
  import opened Common
  import Q = TaskQueue
  import B = BulkJobs

  const KEY := "bulk_job_id"

  datatype Kind = Parent | Child(item: int) | Other

  /** How far a dispatched task has come. Children leave Working when their item is terminal. */
  datatype Stage =
    | Claimed
    | Fanning(next: nat)
    | Working
    | Marked
    | Granted
    | Finalized(failed: int)
    | Finished

  datatype Flight = Flight(task: int, kind: Kind, stage: Stage)

  /** What finalize_bulk_job read, and how many items were not terminal then. */
  datatype Final = Final(failed: int, unfinished: nat)

  datatype Config = Config(job: int, admin: bool, shared: Q.Payload, order: seq<int>, start: int)

  datatype Queue = Queue(rows: Q.Table, nextId: int)

  /** The item rows of the job and the counters of its parent row. */
  datatype Books = Books(items: map<int, B.ItemStatus>, completed: int, failed: int)

  /** The organization's balance, what other activity added to it, and what this job gave back. */
  datatype Funds = Funds(balance: int, outside: int, refunded: int)

  /**
   What happened so far; no step depends on it. returned: the failures refunded so far; reworked:
   an item that was already completed or failed was begun, ended or timed out; staled: a child
   row of this job was swept; dropped: the marker of this job was cleaned up.
  */
  datatype Past = Past(
    enqueued: set<int>,
    grants: nat,
    finals: seq<Final>,
    settled: nat,
    returned: int,
    reworked: bool,
    staled: bool,
    dropped: bool)

  datatype State = State(cfg: Config, queue: Queue, flights: map<int, Flight>, books: Books, funds: Funds, past: Past)

  predicate IsCompleted(status: B.ItemStatus) { status.Completed? }
  predicate IsFailed(status: B.ItemStatus) { status.Failed? }
  predicate IsDone(status: B.ItemStatus) { status.Terminal() }
  predicate IsOpen(status: B.ItemStatus) { !status.Terminal() }

  function KindOf(t: Q.Task, job: int): Kind {
    if !Q.Carries(t, KEY, job) then Other
    else if t.taskType == Q.Work("bulk") then Parent
    else if t.taskType == Q.Work("bulk_item") && "item_id" in t.payload then Child(t.payload["item_id"])
    else Other
  }

  function ItemFields(cfg: Config, item: int): Q.Payload {
    map[KEY := cfg.job, "item_id" := item]
  }

  function Payload(cfg: Config, index: nat): Q.Payload
    requires index < |cfg.order|
  {
    B.ChildPayload(cfg.shared, ItemFields(cfg, cfg.order[index]), index)
  }

  /** Whatever the shared fields are, a child's payload names its job and its own item. */
  lemma PayloadFields(cfg: Config, index: nat)
    requires index < |cfg.order|
    ensures KEY in Payload(cfg, index) && Payload(cfg, index)[KEY] == cfg.job
    ensures "item_id" in Payload(cfg, index) && Payload(cfg, index)["item_id"] == cfg.order[index]
  {
    assert "account_index"[0] == 'a' && KEY[0] == 'b' && "item_id"[0] == 'i';
  }

  function ChunkOf(cfg: Config, from: nat, to: nat): seq<Q.Payload>
    requires from <= to <= |cfg.order|
  {
    seq(to - from, i requires 0 <= i < to - from => Payload(cfg, from + i))
  }

  datatype Event =
    | Claim(flight: int, id: int, worker: string, at: int)
    | FanChunk(flight: int, at: int)
    | Begin(flight: int)
    | Mark(flight: int, ok: bool)
    | TimeOut(item: int)
    | Check(flight: int, at: int)
    | Finalize(flight: int)
    | Refund(flight: int)
    | Work(flight: int)
    | Complete(flight: int, at: int)
    | Crash(flight: int, error: string, at: int)
    | StaleSweep(minutes: int, at: int)
    | MarkerCleanup(at: int)
    | AdminRetry(id: int)
    | Cleanup(days: int, at: int)
    | Enqueue(name: string, payloads: seq<Q.Payload>, at: int)
    | OtherCredit(cents: int)

  function Without(flights: map<int, Flight>, d: int): map<int, Flight> {
    map f | f in flights && f != d :: flights[f]
  }

  predicate InFlight(s: State, d: int, e: Event) {
    d in s.flights &&
    var (kind, stage) := (s.flights[d].kind, s.flights[d].stage);
    match e
    case FanChunk(_, _) => kind.Parent? && (stage.Claimed? || (stage.Fanning? && stage.next <= |s.cfg.order|))
    case Begin(_) => kind.Child? && stage.Claimed? && kind.item in s.books.items
    case Mark(_, _) => kind.Child? && stage.Working? && kind.item in s.books.items
    case Check(_, _) => kind.Child? && stage.Marked?
    case Finalize(_) => stage.Granted?
    case Refund(_) => stage.Finalized?
    case Work(_) => kind.Other? && stage.Claimed?
    case Complete(_, _) => stage.Finished?
    case _ => true
  }

  predicate Enabled(s: State, e: Event) {
    match e
    case Claim(d, id, _, now) => d !in s.flights && id in s.queue.rows && Q.Eligible(s.queue.rows[id], now)
    case Enqueue(_, payloads, _) =>
      forall i :: 0 <= i < |payloads| ==> KEY !in payloads[i] || payloads[i][KEY] != s.cfg.job
    case StaleSweep(_, _) => true
    case MarkerCleanup(_) => true
    case AdminRetry(_) => true
    case Cleanup(_, _) => true
    case OtherCredit(_) => true
    case TimeOut(item) => item in s.books.items
    case _ => InFlight(s, e.flight, e)
  }

  /** An event that is not enabled changes nothing, so every event sequence is a run. */
  function Step(s: State, e: Event): State {
    if Enabled(s, e)
    then State(s.cfg, QueueAfter(s, e), FlightsAfter(s, e), BooksAfter(s, e), FundsAfter(s, e), PastAfter(s, e))
    else s
  }

  predicate Granting(s: State, e: Event) {
    e.Check? && Q.Grants(s.queue.rows, KEY, s.cfg.job)
  }

  function ChunkStart(stage: Stage): nat {
    if stage.Fanning? then stage.next else 0
  }

  function ChunkEnd(cfg: Config, stage: Stage): nat {
    Max(ChunkStart(stage), Min(ChunkStart(stage) + B.CHUNK, |cfg.order|))
  }

  function QueueAfter(s: State, e: Event): Queue
    requires Enabled(s, e)
  {
    var Queue(rows, nextId) := s.queue;
    match e
    case Claim(_, id, worker, now) => Queue(Q.AfterClaim(rows, id, worker, now), nextId)
    case FanChunk(d, now) =>
      var (from, to) := (ChunkStart(s.flights[d].stage), ChunkEnd(s.cfg, s.flights[d].stage));
      Queue(Q.AfterEnqueue(rows, nextId, "bulk_item", ChunkOf(s.cfg, from, to), now), nextId + (to - from))
    case Check(_, now) =>
      Queue(Q.AfterCheck(rows, nextId, KEY, s.cfg.job, now), nextId + if Granting(s, e) then 1 else 0)
    case Complete(d, now) => Queue(Q.AfterComplete(rows, s.flights[d].task, now), nextId)
    case Crash(d, error, now) => Queue(Q.AfterFail(rows, s.flights[d].task, error, now), nextId)
    case StaleSweep(minutes, now) => Queue(Q.AfterRequeueStale(rows, minutes, now), nextId)
    case MarkerCleanup(now) => Queue(Q.AfterMarkerCleanup(rows, now), nextId)
    case AdminRetry(id) => Queue(Q.AfterRetry(rows, id), nextId)
    case Cleanup(days, now) => Queue(Q.AfterCleanup(rows, days, now), nextId)
    case Enqueue(name, payloads, now) => Queue(Q.AfterEnqueue(rows, nextId, name, payloads, now), nextId + |payloads|)
    case _ => s.queue
  }

  function FlightsAfter(s: State, e: Event): map<int, Flight>
    requires Enabled(s, e)
  {
    match e
    case Claim(d, id, _, _) => s.flights[d := Flight(id, KindOf(s.queue.rows[id], s.cfg.job), Claimed)]
    case Complete(d, _) => Without(s.flights, d)
    case Crash(d, _, _) => Without(s.flights, d)
    case StaleSweep(_, _) => s.flights
    case MarkerCleanup(_) => s.flights
    case AdminRetry(_) => s.flights
    case Cleanup(_, _) => s.flights
    case Enqueue(_, _, _) => s.flights
    case OtherCredit(_) => s.flights
    case TimeOut(_) => s.flights
    case _ => s.flights[e.flight := s.flights[e.flight].(stage := NextStage(s, s.flights[e.flight].stage, e))]
  }

  /** Where a dispatch goes: _fan_out for a parent, run_bulk_item for a child. */
  function NextStage(s: State, stage: Stage, e: Event): Stage {
    match e
    case FanChunk(_, _) => if ChunkEnd(s.cfg, stage) >= |s.cfg.order| then Finished else Fanning(ChunkEnd(s.cfg, stage))
    case Begin(_) => Working
    case Mark(_, _) => Marked
    case Check(_, _) => if Granting(s, e) then Granted else Finished
    case Finalize(_) => Finalized(s.books.failed)
    case _ => Finished
  }

  /** A step on an item row: a child begins its item or ends it, or a reader of the job times the item out. */
  predicate WritesItem(e: Event) {
    e.Begin? || e.Mark? || e.TimeOut?
  }

  function ItemOf(s: State, e: Event): (item: int)
    requires Enabled(s, e) && WritesItem(e)
    ensures item in s.books.items
  {
    if e.TimeOut? then e.item else s.flights[e.flight].kind.item
  }

  function BooksAfter(s: State, e: Event): Books
    requires Enabled(s, e)
  {
    var Books(items, completed, failed) := s.books;
    match e
    case Begin(d) => Books(items[s.flights[d].kind.item := B.Processing], completed, failed)
    case Mark(d, true) => Books(items[s.flights[d].kind.item := B.Completed], completed + 1, failed)
    case Mark(d, false) => Books(items[s.flights[d].kind.item := B.Failed], completed, failed + 1)
    case TimeOut(item) => Books(items[item := B.Failed], completed, failed + 1)
    case _ => s.books
  }

  function ItemRows(cfg: Config, books: Books): B.Items {
    map item | item in books.items :: B.Item(cfg.job, books.items[item])
  }

  function JobRows(cfg: Config, books: Books): B.Jobs {
    map[cfg.job := B.Job(|cfg.order|, books.completed, books.failed, Reserved(cfg), B.JobProcessing)]
  }

  /** The database call of a step on an item row. */
  function BookStep(s: State, e: Event): (B.Items, B.Jobs)
    requires Enabled(s, e)
  {
    var (items, jobs) := (ItemRows(s.cfg, s.books), JobRows(s.cfg, s.books));
    match e
    case Begin(d) => B.AfterUpdate(items, jobs, s.flights[d].kind.item, B.Processing)
    case Mark(d, ok) => B.AfterUpdate(items, jobs, s.flights[d].kind.item, if ok then B.Completed else B.Failed)
    case TimeOut(item) => B.AfterUpdate(items, jobs, item, B.Failed)
    case _ => (items, jobs)
  }

  /** The protocol changes the rows of the job exactly as update_bulk_job_item does. */
  lemma BooksFollowTables(s: State, e: Event)
    requires Enabled(s, e)
    ensures (ItemRows(s.cfg, BooksAfter(s, e)), JobRows(s.cfg, BooksAfter(s, e))) == BookStep(s, e)
  {
    assert ItemRows(s.cfg, BooksAfter(s, e)) == BookStep(s, e).0;
    assert JobRows(s.cfg, BooksAfter(s, e)) == BookStep(s, e).1;
  }

  /** The call of a step on the shared queue, as an event of the queue's own runs. */
  function QueueCall(s: State, e: Event): Option<Q.Event>
    requires Enabled(s, e)
  {
    match e
    case Claim(_, id, worker, now) => Some(Q.ClaimEvent(id, worker, now))
    case FanChunk(d, now) =>
      var (from, to) := (ChunkStart(s.flights[d].stage), ChunkEnd(s.cfg, s.flights[d].stage));
      Some(Q.EnqueueEvent("bulk_item", ChunkOf(s.cfg, from, to), now))
    case Check(_, now) => Some(Q.CheckEvent("bulk_job_id", s.cfg.job, now))
    case Complete(d, now) => Some(Q.CompleteEvent(s.flights[d].task, now))
    case Crash(d, error, now) => Some(Q.FailEvent(s.flights[d].task, error, now))
    case StaleSweep(minutes, now) => Some(Q.StaleEvent(minutes, now))
    case MarkerCleanup(now) => Some(Q.MarkerCleanupEvent(now))
    case AdminRetry(id) => Some(Q.RetryEvent(id, 0))
    case Cleanup(days, now) => Some(Q.CleanupEvent(days, now))
    case Enqueue(name, payloads, now) => Some(Q.EnqueueEvent(name, payloads, now))
    case _ => None
  }

  /** The protocol changes the queue exactly as the queue's own events do, and a claim takes a row that is due. */
  lemma QueueFollows(s: State, e: Event, flights: multiset<int>, clock: int)
    requires Enabled(s, e)
    ensures var w := Q.World(s.queue.rows, s.queue.nextId, flights, clock);
            match QueueCall(s, e)
            case None => Step(s, e).queue == s.queue
            case Some(call) =>
              && Step(s, e).queue.rows == Q.Apply(w, call).rows && Step(s, e).queue.nextId == Q.Apply(w, call).nextId
              && (call.ClaimEvent? ==> Q.CanClaim(w, call.id, call.at))
  {
  }

  function RefundOf(cfg: Config, failed: int): int {
    if cfg.admin then 0 else failed * B.CREDIT
  }

  function FundsAfter(s: State, e: Event): Funds
    requires Enabled(s, e)
  {
    var Funds(balance, outside, refunded) := s.funds;
    match e
    case Refund(d) =>
      var cents := RefundOf(s.cfg, s.flights[d].stage.failed);
      Funds(balance + cents, outside, refunded + cents)
    case OtherCredit(cents) => Funds(balance + cents, outside + cents, refunded)
    case _ => s.funds
  }

  function PastAfter(s: State, e: Event): Past
    requires Enabled(s, e)
  {
    var past := s.past;
    match e
    case FanChunk(d, _) =>
      var stage := s.flights[d].stage;
      past.(enqueued := past.enqueued + set i | ChunkStart(stage) <= i < ChunkEnd(s.cfg, stage) :: s.cfg.order[i])
    case Begin(_) => past.(reworked := past.reworked || s.books.items[ItemOf(s, e)].Terminal())
    case Mark(_, _) => past.(reworked := past.reworked || s.books.items[ItemOf(s, e)].Terminal())
    case TimeOut(_) => past.(reworked := past.reworked || s.books.items[ItemOf(s, e)].Terminal())
    case Check(_, _) => if Granting(s, e) then past.(grants := past.grants + 1) else past
    case Finalize(_) => past.(finals := past.finals + [Final(s.books.failed, Count(s.books.items, IsOpen))])
    case Refund(d) => past.(settled := past.settled + 1, returned := past.returned + s.flights[d].stage.failed)
    case StaleSweep(minutes, now) =>
      past.(staled := past.staled || exists id :: id in s.queue.rows && Q.Stale(s.queue.rows[id], minutes, now)
                                                  && KindOf(s.queue.rows[id], s.cfg.job).Child?)
    case MarkerCleanup(now) =>
      past.(dropped := past.dropped || exists id :: id in s.queue.rows && Q.OldMarker(s.queue.rows[id], now)
                                                    && s.queue.rows[id].taskType == Q.Marker(KEY, s.cfg.job))
    case _ => past
  }

  function Run(s: State, es: seq<Event>): State
    decreases |es|
  {
    if es == [] then s else Run(Step(s, es[0]), es[1..])
  }

  function Reserved(cfg: Config): int {
    if cfg.admin then 0 else |cfg.order| * B.CREDIT
  }

  const Nothing := Past({}, 0, [], 0, 0, false, false, false)

  /** Just after the request handler: credits reserved, items inserted, the parent task enqueued. */
  ghost predicate Start(s: State) {
    && (forall id :: id in s.queue.rows ==> id < s.queue.nextId && Q.RowOk(s.queue.rows[id]))
    && (forall id :: id in s.queue.rows ==> !KindOf(s.queue.rows[id], s.cfg.job).Child?)
    && (forall id :: id in s.queue.rows && KindOf(s.queue.rows[id], s.cfg.job).Parent? ==>
          s.queue.rows[id].status.Pending?)
    && !Q.HasMarker(s.queue.rows, KEY, s.cfg.job)
    && s.flights == map[]
    && (forall i, j :: 0 <= i < j < |s.cfg.order| ==> s.cfg.order[i] != s.cfg.order[j])
    && (forall item :: item in s.books.items <==> item in s.cfg.order)
    && (forall item :: item in s.books.items ==> s.books.items[item].Waiting?)
    && s.books.completed == 0 && s.books.failed == 0
    && s.funds == Funds(s.cfg.start - Reserved(s.cfg), 0, 0)
    && s.past == Nothing
  }

  // ---- rows and dispatches ----------------------------------------------------

  ghost predicate RowsInv(s: State) {
    && (forall item :: item in s.books.items <==> item in s.cfg.order)
    && (forall id :: id in s.queue.rows ==> RowFits(s, id, s.queue.rows[id]))
    && (forall d :: d in s.flights ==> FlightOk(s, s.flights[d]))
  }

  ghost predicate RowFits(s: State, id: int, t: Q.Task) {
    id < s.queue.nextId && Q.RowOk(t)
    && (KindOf(t, s.cfg.job).Child? ==> KindOf(t, s.cfg.job).item in s.books.items)
  }

  ghost predicate FlightOk(s: State, f: Flight) {
    && f.task < s.queue.nextId
    && (f.task in s.queue.rows ==>
          s.queue.rows[f.task].taskType.Work? && KindOf(s.queue.rows[f.task], s.cfg.job) == f.kind)
    && (f.kind.Child? ==> f.kind.item in s.books.items)
    && StageOk(f.kind, f.stage, |s.cfg.order|)
  }

  ghost predicate StageOk(kind: Kind, stage: Stage, children: nat) {
    match stage
    case Claimed => true
    case Finished => true
    case Fanning(next) => kind.Parent? && next <= children
    case _ => kind.Child?
  }

  /** A row that a step keeps has its type and payload, and stays a legal queue row. */
  lemma RowKept(s: State, e: Event, id: int)
    requires RowsInv(s) && Enabled(s, e) && id in s.queue.rows && id in QueueAfter(s, e).rows
    ensures var (t, t') := (s.queue.rows[id], QueueAfter(s, e).rows[id]);
            && t'.taskType == t.taskType && t'.payload == t.payload && Q.RowOk(t')
            && KindOf(t', s.cfg.job) == KindOf(t, s.cfg.job)
  {
    InsertedRow(s, e, id);
  }

  /** A row that a step inserts is a pending job of another parent, a child of an item, or this job's marker. */
  lemma RowNew(s: State, e: Event, id: int)
    requires RowsInv(s) && Enabled(s, e) && id !in s.queue.rows && id in QueueAfter(s, e).rows
    ensures var t' := QueueAfter(s, e).rows[id];
            && s.queue.nextId <= id < QueueAfter(s, e).nextId
            && Q.RowOk(t')
            && (t'.status.Pending? || (Granting(s, e) && t'.taskType == Q.Marker(KEY, s.cfg.job)))
            && !KindOf(t', s.cfg.job).Parent?
            && (KindOf(t', s.cfg.job).Child? ==> e.FanChunk? && KindOf(t', s.cfg.job).item in s.cfg.order)
  {
    InsertedRow(s, e, id);
  }

  /** What the two inserting steps leave under id. */
  lemma InsertedRow(s: State, e: Event, id: int)
    requires RowsInv(s) && Enabled(s, e)
    ensures e.FanChunk? || e.Enqueue? ==>
      var rows' := QueueAfter(s, e).rows;
      && (id in s.queue.rows ==> id in rows' && rows'[id] == s.queue.rows[id])
      && (id in rows' && id !in s.queue.rows ==>
            && s.queue.nextId <= id < QueueAfter(s, e).nextId
            && rows'[id].status.Pending? && rows'[id].taskType.Work? && Q.RowOk(rows'[id])
            && !KindOf(rows'[id], s.cfg.job).Parent?
            && (KindOf(rows'[id], s.cfg.job).Child? ==>
                  e.FanChunk? && KindOf(rows'[id], s.cfg.job).item in s.cfg.order))
  {
    if e.Enqueue? {
      OtherInserted(s, e, id);
    } else if e.FanChunk? {
      ChildInserted(s, e, id);
    }
  }

  /** Other activity enqueues no row of this job. */
  lemma OtherInserted(s: State, e: Event, id: int)
    requires RowsInv(s) && Enabled(s, e) && e.Enqueue?
    ensures var rows' := QueueAfter(s, e).rows;
      && (id in s.queue.rows ==> id in rows' && rows'[id] == s.queue.rows[id])
      && (id in rows' && id !in s.queue.rows ==>
            && s.queue.nextId <= id < QueueAfter(s, e).nextId
            && rows'[id].status.Pending? && rows'[id].taskType.Work? && Q.RowOk(rows'[id])
            && KindOf(rows'[id], s.cfg.job) == Other)
  {
    Q.AfterEnqueueRow(s.queue.rows, s.queue.nextId, e.name, e.payloads, e.at, id);
  }

  /** A chunk enqueues children of items of this job. */
  lemma ChildInserted(s: State, e: Event, id: int)
    requires RowsInv(s) && Enabled(s, e) && e.FanChunk?
    ensures var rows' := QueueAfter(s, e).rows;
      && (id in s.queue.rows ==> id in rows' && rows'[id] == s.queue.rows[id])
      && (id in rows' && id !in s.queue.rows ==>
            && s.queue.nextId <= id < QueueAfter(s, e).nextId
            && rows'[id].status.Pending? && rows'[id].taskType.Work? && Q.RowOk(rows'[id])
            && KindOf(rows'[id], s.cfg.job).Child? && KindOf(rows'[id], s.cfg.job).item in s.cfg.order)
  {
    var Queue(rows, nextId) := s.queue;
    var (from, to) := (ChunkStart(s.flights[e.flight].stage), ChunkEnd(s.cfg, s.flights[e.flight].stage));
    Q.AfterEnqueueRow(rows, nextId, "bulk_item", ChunkOf(s.cfg, from, to), e.at, id);
    if nextId <= id < nextId + (to - from) {
      PayloadFields(s.cfg, from + id - nextId);
      assert Q.Work("bulk_item") != Q.Work("bulk");
    }
  }

  /** Where a step may take the dispatch that takes it. */
  ghost predicate StageMove(kind: Kind, from: Stage, to: Stage, children: nat) {
    match from
    case Claimed =>
      (kind.Child? && to.Working?)
      || (!kind.Child? && (to.Finished? || (kind.Parent? && to.Fanning? && to.next <= children)))
    case Fanning(_) => kind.Parent? && (to.Finished? || (to.Fanning? && to.next <= children))
    case Working => kind.Child? && to.Marked?
    case Marked => kind.Child? && (to.Granted? || to.Finished?)
    case Granted => to.Finalized?
    case Finalized(_) => to.Finished?
    case Finished => false
  }

  /** A dispatch after a step is freshly claimed, or the one it was, or that one a stage further. */
  lemma FlightStep(s: State, e: Event, d: int)
    requires Enabled(s, e) && d in FlightsAfter(s, e)
    ensures d !in s.flights ==>
              && e.Claim? && e.flight == d
              && FlightsAfter(s, e)[d] == Flight(e.id, KindOf(s.queue.rows[e.id], s.cfg.job), Claimed)
    ensures d in s.flights && FlightsAfter(s, e)[d] != s.flights[d] ==>
              && FlightsAfter(s, e)[d] == s.flights[d].(stage := FlightsAfter(s, e)[d].stage)
              && StageMove(s.flights[d].kind, s.flights[d].stage, FlightsAfter(s, e)[d].stage, |s.cfg.order|)
  {
  }

  lemma StepKeepsRows(s: State, e: Event)
    requires RowsInv(s)
    ensures RowsInv(Step(s, e))
  {
    if Enabled(s, e) {
      var s' := Step(s, e);
      forall id | id in s'.queue.rows
        ensures RowFits(s', id, s'.queue.rows[id])
      {
        if id in s.queue.rows {
          RowKept(s, e, id);
        } else {
          RowNew(s, e, id);
        }
      }
      forall d | d in s'.flights
        ensures FlightOk(s', s'.flights[d])
      {
        FlightKept(s, e, d);
      }
    }
  }

  lemma FlightKept(s: State, e: Event, d: int)
    requires RowsInv(s) && Enabled(s, e) && d in FlightsAfter(s, e)
    ensures FlightOk(Step(s, e), FlightsAfter(s, e)[d])
  {
    FlightStep(s, e, d);
    var task := FlightsAfter(s, e)[d].task;
    if task in QueueAfter(s, e).rows {
      if task in s.queue.rows {
        RowKept(s, e, task);
      } else {
        RowNew(s, e, task);
      }
    }
  }

  // ---- credits ----------------------------------------------------------------

  ghost predicate BalanceInv(s: State) {
    && s.funds.balance == s.cfg.start + s.funds.outside - Reserved(s.cfg) + s.funds.refunded
    && s.funds.refunded == RefundOf(s.cfg, s.past.returned)
  }

  lemma StepKeepsBalance(s: State, e: Event)
    requires BalanceInv(s)
    ensures BalanceInv(Step(s, e))
  {
  }

  /** The failure counter never falls below what a finalization read. */
  ghost predicate TalliesBelow(s: State) {
    forall i :: 0 <= i < |s.past.finals| ==> s.past.finals[i].failed <= s.books.failed
  }

  lemma StepKeepsTallies(s: State, e: Event)
    requires TalliesBelow(s)
    ensures TalliesBelow(Step(s, e))
  {
  }

  // ---- one finalization while the marker lives --------------------------------

  predicate Closing(stage: Stage) {
    stage.Granted? || stage.Finalized?
  }

  /** Grants, tallies and refunds follow one another once, as long as its marker is not cleaned up. */
  ghost predicate OnceInv(s: State) {
    && s.past.settled <= |s.past.finals| <= s.past.grants <= 1
    && (s.past.grants == 1 <==> Q.HasMarker(s.queue.rows, KEY, s.cfg.job))
    && (forall d :: d in s.flights && Closing(s.flights[d].stage) ==> ClosingOk(s, s.flights[d].stage))
    && (forall d, d' ::
          (d in s.flights && d' in s.flights && Closing(s.flights[d].stage) && Closing(s.flights[d'].stage)) ==>
            d == d')
    && s.past.returned == if s.past.settled == 1 then s.past.finals[0].failed else 0
  }

  ghost predicate ClosingOk(s: State, stage: Stage) {
    && s.past.grants == 1 && s.past.settled == 0
    && (stage.Granted? ==> s.past.finals == [])
    && (stage.Finalized? ==> |s.past.finals| == 1 && stage.failed == s.past.finals[0].failed)
  }

  lemma MarkerKept(s: State, e: Event)
    requires RowsInv(s) && Enabled(s, e) && !PastAfter(s, e).dropped
    ensures Q.HasMarker(QueueAfter(s, e).rows, KEY, s.cfg.job)
            <==> Q.HasMarker(s.queue.rows, KEY, s.cfg.job) || Granting(s, e)
  {
    var rows' := QueueAfter(s, e).rows;
    if Q.HasMarker(s.queue.rows, KEY, s.cfg.job) {
      var id :| id in s.queue.rows && s.queue.rows[id].taskType == Q.Marker(KEY, s.cfg.job);
      InsertedRow(s, e, id);
      RowKept(s, e, id);
    } else if Granting(s, e) {
      assert rows'[s.queue.nextId].taskType == Q.Marker(KEY, s.cfg.job);
    } else if Q.HasMarker(rows', KEY, s.cfg.job) {
      var id :| id in rows' && rows'[id].taskType == Q.Marker(KEY, s.cfg.job);
      if id in s.queue.rows {
        RowKept(s, e, id);
      } else {
        InsertedRow(s, e, id);
      }
    }
  }

  lemma ClosingKept(s: State, e: Event, d: int)
    requires RowsInv(s) && OnceInv(s) && Enabled(s, e) && !PastAfter(s, e).dropped
    requires d in FlightsAfter(s, e) && Closing(FlightsAfter(s, e)[d].stage)
    ensures ClosingOk(Step(s, e), FlightsAfter(s, e)[d].stage)
    ensures d in s.flights && (Closing(s.flights[d].stage) || (Granting(s, e) && d == e.flight))
  {
    MarkerKept(s, e);
    FlightStep(s, e, d);
  }

  lemma StepKeepsOnce(s: State, e: Event)
    requires RowsInv(s) && !Step(s, e).past.dropped && OnceInv(s)
    ensures OnceInv(Step(s, e))
  {
    if Enabled(s, e) {
      MarkerKept(s, e);
      forall d | d in FlightsAfter(s, e) && Closing(FlightsAfter(s, e)[d].stage)
        ensures ClosingOk(Step(s, e), FlightsAfter(s, e)[d].stage)
        ensures d in s.flights && (Closing(s.flights[d].stage) || (Granting(s, e) && d == e.flight))
      {
        ClosingKept(s, e, d);
      }
    }
  }

  // ---- every item made terminal once ------------------------------------------

  predicate Judged(stage: Stage) {
    !stage.Claimed? && !stage.Fanning? && !stage.Working?
  }

  ghost predicate ItemInv(s: State) {
    && s.books.completed == Count(s.books.items, IsCompleted)
    && s.books.failed == Count(s.books.items, IsFailed)
    && (forall d :: d in s.flights ==> WorkerOk(s.books.items, s.flights[d]))
    && (forall id :: id in s.queue.rows && s.queue.rows[id].status.Completed? ==>
          RowFinished(s.books.items, KindOf(s.queue.rows[id], s.cfg.job)))
  }

  ghost predicate RowFinished(items: map<int, B.ItemStatus>, kind: Kind) {
    kind.Child? && kind.item in items ==> items[kind.item].Terminal()
  }

  /** A worker past its verdict leaves its item terminal; while it works, the item may be anything. */
  ghost predicate WorkerOk(items: map<int, B.ItemStatus>, f: Flight) {
    f.kind.Child? && f.kind.item in items && Judged(f.stage) ==> items[f.kind.item].Terminal()
  }

  lemma CountsKept(s: State, e: Event)
    requires RowsInv(s) && Enabled(s, e) && !PastAfter(s, e).reworked
    requires s.books.completed == Count(s.books.items, IsCompleted) && s.books.failed == Count(s.books.items, IsFailed)
    ensures BooksAfter(s, e).completed == Count(BooksAfter(s, e).items, IsCompleted)
    ensures BooksAfter(s, e).failed == Count(BooksAfter(s, e).items, IsFailed)
  {
    if WritesItem(e) {
      var item := ItemOf(s, e);
      var status := BooksAfter(s, e).items[item];
      CountUpdate(s.books.items, IsCompleted, item, status);
      CountUpdate(s.books.items, IsFailed, item, status);
    }
  }

  /** A row becomes completed only through a worker that finished a dispatch of it. */
  lemma RowCompletes(s: State, e: Event, id: int)
    requires RowsInv(s) && Enabled(s, e) && id in s.queue.rows && id in QueueAfter(s, e).rows
    requires QueueAfter(s, e).rows[id].status.Completed? && !s.queue.rows[id].status.Completed?
    ensures e.Complete? && s.flights[e.flight].task == id && s.flights[e.flight].stage.Finished?
  {
    InsertedRow(s, e, id);
  }

  /** An item that is terminal stays so, whoever else is at work on it. */
  lemma OthersKept(s: State, e: Event, d: int)
    requires RowsInv(s) && ItemInv(s) && Enabled(s, e) && !PastAfter(s, e).reworked && d in FlightsAfter(s, e)
    ensures WorkerOk(BooksAfter(s, e).items, FlightsAfter(s, e)[d])
  {
    FlightStep(s, e, d);
  }

  lemma StepKeepsItems(s: State, e: Event)
    requires RowsInv(s) && !Step(s, e).past.reworked && ItemInv(s)
    ensures ItemInv(Step(s, e))
  {
    if Enabled(s, e) {
      var s' := Step(s, e);
      CountsKept(s, e);
      forall d | d in s'.flights
        ensures WorkerOk(s'.books.items, s'.flights[d])
      {
        OthersKept(s, e, d);
      }
      forall id | id in s'.queue.rows && s'.queue.rows[id].status.Completed?
        ensures RowFinished(s'.books.items, KindOf(s'.queue.rows[id], s.cfg.job))
      {
        FinishedKept(s, e, id);
      }
    }
  }

  lemma FinishedKept(s: State, e: Event, id: int)
    requires RowsInv(s) && ItemInv(s) && Enabled(s, e) && !PastAfter(s, e).reworked
    requires id in QueueAfter(s, e).rows && QueueAfter(s, e).rows[id].status.Completed?
    ensures RowFinished(BooksAfter(s, e).items, KindOf(QueueAfter(s, e).rows[id], s.cfg.job))
  {
    if id in s.queue.rows {
      RowKept(s, e, id);
      if s.queue.rows[id].status.Completed? {
        assert RowFinished(s.books.items, KindOf(s.queue.rows[id], s.cfg.job));
      } else {
        RowCompletes(s, e, id);
        assert WorkerOk(s.books.items, s.flights[e.flight]);
      }
    } else {
      RowNew(s, e, id);
    }
  }

  /** Items that were all terminal at the first finalization stay as they were counted. */
  ghost predicate FinalInv(s: State) {
    s.past.finals != [] && s.past.finals[0].unfinished == 0 ==>
      s.books.failed == s.past.finals[0].failed && Count(s.books.items, IsOpen) == 0
  }

  lemma StepKeepsFinal(s: State, e: Event)
    requires RowsInv(s) && ItemInv(s) && FinalInv(s) && !Step(s, e).past.reworked
    ensures FinalInv(Step(s, e))
  {
    CountNone(s.books.items, IsOpen);
    if Enabled(s, e) && WritesItem(e) {
      CountUpdate(s.books.items, IsOpen, ItemOf(s, e), BooksAfter(s, e).items[ItemOf(s, e)]);
      assert !s.books.items[ItemOf(s, e)].Terminal();
    }
  }

  // ---- verdicts on items that were terminal already ---------------------------

  /** A step writes an item that is in state p. */
  predicate Writes(s: State, e: Event, p: B.ItemStatus -> bool) {
    WritesItem(e) && Enabled(s, e) && p(s.books.items[ItemOf(s, e)])
  }

  /** How often a run writes an item that is in state p. */
  function Written(s: State, es: seq<Event>, p: B.ItemStatus -> bool): nat
    decreases |es|
  {
    if es == [] then 0
    else (if Writes(s, es[0], p) then 1 else 0) + Written(Step(s, es[0]), es[1..], p)
  }

  /** How far the counters are ahead of the rows. */
  function Ahead(books: Books): int {
    books.completed + books.failed - Count(books.items, IsDone)
  }

  function FailuresAhead(books: Books): int {
    books.failed - Count(books.items, IsFailed)
  }

  lemma StepWrites(s: State, e: Event)
    ensures Ahead(Step(s, e).books) == Ahead(s.books) + if Writes(s, e, IsDone) then 1 else 0
    ensures FailuresAhead(Step(s, e).books) == FailuresAhead(s.books) + if Writes(s, e, IsFailed) then 1 else 0
    ensures Step(s, e).past.reworked <==> s.past.reworked || Writes(s, e, IsDone)
  {
    if Enabled(s, e) && WritesItem(e) {
      var item := ItemOf(s, e);
      var status := BooksAfter(s, e).items[item];
      CountUpdate(s.books.items, IsDone, item, status);
      CountUpdate(s.books.items, IsFailed, item, status);
    }
  }

  lemma {:induction false} RunWrites(s: State, es: seq<Event>)
    ensures Ahead(Run(s, es).books) == Ahead(s.books) + Written(s, es, IsDone)
    ensures FailuresAhead(Run(s, es).books) == FailuresAhead(s.books) + Written(s, es, IsFailed)
    ensures Run(s, es).past.reworked <==> s.past.reworked || Written(s, es, IsDone) > 0
    decreases |es|
  {
    if es != [] {
      StepWrites(s, es[0]);
      RunWrites(Step(s, es[0]), es[1..]);
    }
  }

  // ---- fan-out ----------------------------------------------------------------

  ghost predicate AllEnqueued(s: State, count: nat)
    requires count <= |s.cfg.order|
  {
    forall i :: 0 <= i < count ==> s.cfg.order[i] in s.past.enqueued
  }

  ghost predicate FanOutInv(s: State) {
    && (forall d :: d in s.flights && s.flights[d].stage.Fanning? ==>
          s.flights[d].stage.next <= |s.cfg.order| && AllEnqueued(s, s.flights[d].stage.next))
    && (forall d :: d in s.flights && s.flights[d].kind.Parent? && s.flights[d].stage.Finished? ==>
          AllEnqueued(s, |s.cfg.order|))
    && (forall id ::
          id in s.queue.rows && s.queue.rows[id].status.Completed? && KindOf(s.queue.rows[id], s.cfg.job).Parent? ==>
          AllEnqueued(s, |s.cfg.order|))
  }

  lemma EnqueuedGrows(s: State, e: Event)
    requires Enabled(s, e)
    ensures s.past.enqueued <= PastAfter(s, e).enqueued
    ensures e.FanChunk? ==>
      forall i :: ChunkStart(s.flights[e.flight].stage) <= i < ChunkEnd(s.cfg, s.flights[e.flight].stage) ==>
              s.cfg.order[i] in PastAfter(s, e).enqueued
  {
  }

  lemma StepKeepsFanOut(s: State, e: Event)
    requires RowsInv(s) && FanOutInv(s)
    ensures FanOutInv(Step(s, e))
  {
    if Enabled(s, e) {
      var s' := Step(s, e);
      EnqueuedGrows(s, e);
      forall d | d in s'.flights
        ensures s'.flights[d].stage.Fanning? ==>
          s'.flights[d].stage.next <= |s.cfg.order| && AllEnqueued(s', s'.flights[d].stage.next)
        ensures s'.flights[d].kind.Parent? && s'.flights[d].stage.Finished? ==> AllEnqueued(s', |s.cfg.order|)
      {
        FlightStep(s, e, d);
      }
      forall id | id in s'.queue.rows && s'.queue.rows[id].status.Completed?
                  && KindOf(s'.queue.rows[id], s.cfg.job).Parent?
        ensures AllEnqueued(s', |s.cfg.order|)
      {
        if id in s.queue.rows {
          RowKept(s, e, id);
          if !s.queue.rows[id].status.Completed? {
            RowCompletes(s, e, id);
          }
        } else {
          RowNew(s, e, id);
        }
      }
    }
  }

  /** A job of one chunk has a child only after the one insert of all its children. */
  ghost predicate OneChunkInv(s: State) {
    |s.cfg.order| <= B.CHUNK ==>
      && (forall d :: d in s.flights ==> !s.flights[d].stage.Fanning?)
      && (forall d :: d in s.flights && s.flights[d].kind.Child? ==> AllEnqueued(s, |s.cfg.order|))
      && (forall id :: id in s.queue.rows && KindOf(s.queue.rows[id], s.cfg.job).Child? ==>
            AllEnqueued(s, |s.cfg.order|))
  }

  /** The only chunk of a small job is the whole job. */
  lemma WholeChunk(s: State, e: Event)
    requires OneChunkInv(s) && Enabled(s, e) && e.FanChunk? && |s.cfg.order| <= B.CHUNK
    ensures NextStage(s, s.flights[e.flight].stage, e).Finished? && AllEnqueued(Step(s, e), |s.cfg.order|)
  {
    EnqueuedGrows(s, e);
  }

  lemma StepKeepsOneChunk(s: State, e: Event)
    requires RowsInv(s) && OneChunkInv(s)
    ensures OneChunkInv(Step(s, e))
  {
    if Enabled(s, e) && |s.cfg.order| <= B.CHUNK {
      var s' := Step(s, e);
      EnqueuedGrows(s, e);
      if e.FanChunk? {
        WholeChunk(s, e);
      }
      forall d | d in s'.flights
        ensures !s'.flights[d].stage.Fanning?
        ensures s'.flights[d].kind.Child? ==> AllEnqueued(s', |s.cfg.order|)
      {
        FlightStep(s, e, d);
      }
      forall id | id in s'.queue.rows && KindOf(s'.queue.rows[id], s.cfg.job).Child?
        ensures AllEnqueued(s', |s.cfg.order|)
      {
        if id in s.queue.rows {
          RowKept(s, e, id);
        } else {
          RowNew(s, e, id);
        }
      }
    }
  }

  // ---- runs in which no child row is swept ------------------------------------

  /** Each dispatch of a child is the only one of a row that is still running, so nothing is ever finalized. */
  ghost predicate UnsweptInv(s: State) {
    && (forall d :: d in s.flights && s.flights[d].kind.Child? ==> OwnRowRunning(s, s.flights[d]))
    && (forall d, d' :: d in s.flights && d' in s.flights && d != d' && s.flights[d].kind.Child? ==>
          s.flights[d].task != s.flights[d'].task)
    && (forall d :: d in s.flights ==> !Closing(s.flights[d].stage))
    && s.past.grants == 0 && s.past.finals == [] && s.past.settled == 0 && s.past.returned == 0
  }

  ghost predicate OwnRowRunning(s: State, f: Flight) {
    f.task in s.queue.rows && s.queue.rows[f.task].status.Running?
  }

  lemma NoGrantWhileRunning(s: State, e: Event)
    requires RowsInv(s) && UnsweptInv(s) && Enabled(s, e)
    ensures !Granting(s, e)
  {
    if e.Check? {
      var f := s.flights[e.flight];
      assert OwnRowRunning(s, f) && KindOf(s.queue.rows[f.task], s.cfg.job).Child?;
      assert Q.Carries(s.queue.rows[f.task], KEY, s.cfg.job);
    }
  }

  /** Only its own worker or a sweep takes a child's row out of running. */
  lemma RunningKept(s: State, e: Event, id: int)
    requires RowsInv(s) && UnsweptInv(s) && Enabled(s, e) && !PastAfter(s, e).staled
    requires id in s.queue.rows && s.queue.rows[id].status.Running? && KindOf(s.queue.rows[id], s.cfg.job).Child?
    ensures ((e.Complete? || e.Crash?) && s.flights[e.flight].task == id)
         || (id in QueueAfter(s, e).rows && QueueAfter(s, e).rows[id].status.Running?)
  {
    InsertedRow(s, e, id);
    NoGrantWhileRunning(s, e);
  }

  lemma StepKeepsUnswept(s: State, e: Event)
    requires RowsInv(s) && UnsweptInv(s) && !Step(s, e).past.staled
    ensures UnsweptInv(Step(s, e))
  {
    if Enabled(s, e) {
      var s' := Step(s, e);
      NoGrantWhileRunning(s, e);
      forall d | d in s'.flights
        ensures !Closing(s'.flights[d].stage) && (s'.flights[d].kind.Child? ==> OwnRowRunning(s', s'.flights[d]))
      {
        FlightStep(s, e, d);
        if d in s.flights && s.flights[d].kind.Child? {
          RunningKept(s, e, s.flights[d].task);
        }
      }
      forall d, d' | d in s'.flights && d' in s'.flights && d != d' && s'.flights[d].kind.Child?
        ensures s'.flights[d].task != s'.flights[d'].task
      {
        FlightStep(s, e, d);
        FlightStep(s, e, d');
      }
    }
  }

  // ---- every run --------------------------------------------------------------

  ghost predicate Inv(s: State) {
    && RowsInv(s) && BalanceInv(s) && FanOutInv(s) && OneChunkInv(s) && TalliesBelow(s)
    && (!s.past.dropped ==> OnceInv(s))
    && (!s.past.reworked ==> ItemInv(s) && FinalInv(s))
    && (!s.past.staled ==> UnsweptInv(s))
  }

  lemma StartInv(s: State)
    requires Start(s)
    ensures Inv(s)
  {
    CountNone(s.books.items, IsCompleted);
    CountNone(s.books.items, IsFailed);
  }

  lemma FlagsStay(s: State, e: Event)
    ensures var (past, past') := (s.past, Step(s, e).past);
            && (past.reworked ==> past'.reworked) && (past.staled ==> past'.staled) && (past.dropped ==> past'.dropped)
    ensures Step(s, e).cfg == s.cfg
  {
  }

  lemma StepKeepsInv(s: State, e: Event)
    requires Inv(s)
    ensures Inv(Step(s, e))
  {
    FlagsStay(s, e);
    StepKeepsRows(s, e);
    StepKeepsBalance(s, e);
    StepKeepsFanOut(s, e);
    StepKeepsOneChunk(s, e);
    StepKeepsTallies(s, e);
    if !Step(s, e).past.dropped {
      StepKeepsOnce(s, e);
    }
    if !Step(s, e).past.reworked {
      StepKeepsItems(s, e);
      StepKeepsFinal(s, e);
    }
    if !Step(s, e).past.staled {
      StepKeepsUnswept(s, e);
    }
  }

  lemma {:induction false} RunKeepsInv(s: State, es: seq<Event>)
    requires Inv(s)
    ensures Inv(Run(s, es)) && Run(s, es).cfg == s.cfg
    decreases |es|
  {
    if es != [] {
      StepKeepsInv(s, es[0]);
      FlagsStay(s, es[0]);
      RunKeepsInv(Step(s, es[0]), es[1..]);
    }
  }

  /** A sweep takes a row of a child of this job, which has been running for longer than it allows. */
  predicate SweepsChild(s: State, e: Event) {
    e.StaleSweep? && exists id :: id in s.queue.rows && IsLateChild(s.queue.rows[id], s.cfg.job, e.minutes, e.at)
  }

  predicate IsLateChild(t: Q.Task, job: int, minutes: int, now: int) {
    && t.status.Running? && t.startedAt.Some? && t.startedAt.value < now - 60 * minutes
    && t.taskType == Q.Work("bulk_item") && "item_id" in t.payload
    && "bulk_job_id" in t.payload && t.payload["bulk_job_id"] == job
  }

  /** A cleanup deletes a finalization marker of this job that is over a day old. */
  predicate DropsMarker(s: State, e: Event) {
    e.MarkerCleanup? && exists id :: id in s.queue.rows && IsOldMarker(s.queue.rows[id], s.cfg.job, e.at)
  }

  predicate IsOldMarker(t: Q.Task, job: int, now: int) {
    t.taskType == Q.Marker("bulk_job_id", job) && t.completedAt.Some? && t.completedAt.value < now - 86400
  }

  /** Some step of the run sweeps a child of the job. */
  predicate EverSwept(s: State, es: seq<Event>)
    decreases |es|
  {
    es != [] && (SweepsChild(s, es[0]) || EverSwept(Step(s, es[0]), es[1..]))
  }

  /** Some step of the run drops the job's marker. */
  predicate EverDropped(s: State, es: seq<Event>)
    decreases |es|
  {
    es != [] && (DropsMarker(s, es[0]) || EverDropped(Step(s, es[0]), es[1..]))
  }

  lemma StepFlags(s: State, e: Event)
    ensures Step(s, e).past.staled <==> s.past.staled || SweepsChild(s, e)
    ensures Step(s, e).past.dropped <==> s.past.dropped || DropsMarker(s, e)
  {
    assert Q.Work("bulk_item") != Q.Work("bulk");
    if e.StaleSweep? {
      forall id | id in s.queue.rows
        ensures IsLateChild(s.queue.rows[id], s.cfg.job, e.minutes, e.at)
                <==> Q.Stale(s.queue.rows[id], e.minutes, e.at) && KindOf(s.queue.rows[id], s.cfg.job).Child?
      {
      }
    }
    if e.MarkerCleanup? {
      forall id | id in s.queue.rows
        ensures IsOldMarker(s.queue.rows[id], s.cfg.job, e.at)
                <==> Q.OldMarker(s.queue.rows[id], e.at) && s.queue.rows[id].taskType == Q.Marker(KEY, s.cfg.job)
      {
      }
    }
  }

  /** What the two flags that theorems exclude say of a run. */
  lemma {:induction false} FlagsMean(s: State, es: seq<Event>)
    ensures Run(s, es).past.staled <==> s.past.staled || EverSwept(s, es)
    ensures Run(s, es).past.dropped <==> s.past.dropped || EverDropped(s, es)
    decreases |es|
  {
    if es != [] {
      StepFlags(s, es[0]);
      FlagsMean(Step(s, es[0]), es[1..]);
    }
  }

  predicate IsAny(status: B.ItemStatus) { true }

  lemma ItemsDivide(items: map<int, B.ItemStatus>)
    ensures |items| == Count(items, IsCompleted) + Count(items, IsFailed) + Count(items, IsOpen)
  {
    CountAll(items, IsAny);
    CountSplit(items, IsAny, IsDone, IsOpen);
    CountSplit(items, IsDone, IsCompleted, IsFailed);
  }

  /** Claims of the finalization, tallies and refunds: once each, in every interleaving, while the marker lives. */
  lemma RefundedOnce(start: State, es: seq<Event>)
    requires Start(start) && !Run(start, es).past.dropped
    ensures var past := Run(start, es).past; past.settled <= |past.finals| <= past.grants <= 1
  {
    StartInv(start);
    RunKeepsInv(start, es);
  }

  /**
   The counters of the job row are ahead of its item rows by exactly the number of times a step
   wrote an item that was already terminal; so they equal the numbers of completed and failed
   items if and only if that never happened.
  */
  lemma CountersAgreeExactly(start: State, es: seq<Event>)
    requires Start(start)
    ensures var s := Run(start, es);
            var (completed, failed) := (Count(s.books.items, IsCompleted), Count(s.books.items, IsFailed));
            && s.books.completed + s.books.failed == completed + failed + Written(start, es, IsDone)
            && s.books.failed == failed + Written(start, es, IsFailed)
            && (s.books.completed == completed && s.books.failed == failed <==> Written(start, es, IsDone) == 0)
            && (Written(start, es, IsDone) == 0 <==> !s.past.reworked)
  {
    StartInv(start);
    RunKeepsInv(start, es);
    RunWrites(start, es);
    CountNone(start.books.items, IsDone);
    CountNone(start.books.items, IsFailed);
    CountSplit(Run(start, es).books.items, IsDone, IsCompleted, IsFailed);
  }

  /** The failures counted so far beyond those that were refunded. */
  function Unreturned(s: State): int {
    s.books.failed - s.past.returned
  }

  /** A grant needs the job's marker to be absent, so while it lives one tally at most is refunded. */
  lemma ReturnedOnce(start: State, es: seq<Event>)
    requires Start(start) && !Run(start, es).past.dropped
    ensures var s := Run(start, es);
            && (s.past.settled == 0 ==> s.past.returned == 0)
            && (s.past.settled != 0 ==> |s.past.finals| == 1 && s.past.returned == s.past.finals[0].failed)
            && Unreturned(s) >= 0
  {
    StartInv(start);
    RunKeepsInv(start, es);
    CountersAgreeExactly(start, es);
  }

  /**
   What a bulk job has cost, exactly, in every state of every run: 100 for each completed item,
   each open one and each failure counted but not refunded, less 100 for each time a step wrote
   an item that was failed, since such an item is counted again.
  */
  lemma NetDebit(start: State, es: seq<Event>)
    requires Start(start) && !start.cfg.admin
    ensures var s := Run(start, es);
            start.cfg.start + s.funds.outside - s.funds.balance
            == B.CREDIT * (Count(s.books.items, IsCompleted) + Count(s.books.items, IsOpen) + Unreturned(s)
                           - Written(start, es, IsFailed))
  {
    StartInv(start);
    RunKeepsInv(start, es);
    CountersAgreeExactly(start, es);
    var s := Run(start, es);
    ItemsDivide(s.books.items);
    DistinctSize(s.cfg.order, s.books.items.Keys);
    assert |s.books.items.Keys| == |s.books.items|;
  }

  /**
   Credit conservation, in every run: the net debit is 100 per completed item if and only if the
   items still open and the failures counted but not refunded are as many as the failed items
   that were written again; and the job has been refunded too much if and only if they are fewer.
   Where every item became terminal once and the marker lives, that is if and only if no item is
   open and no failure was counted but not refunded; and when every item was terminal at the
   tally it holds from the refund on.
  */
  lemma CreditsConserved(start: State, es: seq<Event>)
    requires Start(start) && !start.cfg.admin
    ensures var s := Run(start, es);
            var (open, again) := (Count(s.books.items, IsOpen), Written(start, es, IsFailed));
            var owed := start.cfg.start + s.funds.outside - B.CREDIT * Count(s.books.items, IsCompleted);
            && (s.funds.balance == owed <==> open + Unreturned(s) == again)
            && (s.funds.balance > owed <==> open + Unreturned(s) < again)
            && (!s.past.reworked ==> again == 0)
            && (!s.past.reworked && !s.past.dropped ==>
                  && (s.funds.balance == owed <==> open == 0 && Unreturned(s) == 0)
                  && (s.past.settled > 0 && s.past.finals != [] && s.past.finals[0].unfinished == 0 ==>
                        s.funds.balance == owed))
  {
    NetDebit(start, es);
    StartInv(start);
    RunKeepsInv(start, es);
    CountersAgreeExactly(start, es);
    if !Run(start, es).past.dropped {
      ReturnedOnce(start, es);
    }
  }

  /** The job of an admin costs nothing and gives nothing back. */
  lemma AdminsPayNothing(start: State, es: seq<Event>)
    requires Start(start) && start.cfg.admin
    ensures var s := Run(start, es); s.funds.balance == start.cfg.start + s.funds.outside && s.funds.refunded == 0
  {
    StartInv(start);
    RunKeepsInv(start, es);
  }

  /**
   The status that finalize_bulk_job sets says whether all, some or none of the items failed, as
   long as no step wrote an item that was already terminal.
  */
  lemma FinalStatusAgrees(start: State, es: seq<Event>)
    requires Start(start) && !Run(start, es).past.reworked
    ensures var s := Run(start, es);
            var items := s.books.items;
            var final := B.FinalStatus(|s.cfg.order|, s.books.failed);
            && (final == B.JobFailed <==> forall i | i in items :: items[i].Failed?)
            && (final == B.JobCompleted <==> items != map[] && forall i | i in items :: !items[i].Failed?)
            && (final == B.JobPartialFailure
                <==> (exists i :: i in items && items[i].Failed?) && (exists i :: i in items && !items[i].Failed?))
  {
    StartInv(start);
    RunKeepsInv(start, es);
    var s := Run(start, es);
    DistinctSize(s.cfg.order, s.books.items.Keys);
    StatusSays(s.books.items, |s.cfg.order|, s.books.failed);
  }

  lemma StatusSays(items: map<int, B.ItemStatus>, total: nat, failed: int)
    requires failed == Count(items, IsFailed) && total == |items.Keys|
    ensures var final := B.FinalStatus(total, failed);
            && (final == B.JobFailed <==> forall i | i in items :: items[i].Failed?)
            && (final == B.JobCompleted <==> items != map[] && forall i | i in items :: !items[i].Failed?)
            && (final == B.JobPartialFailure
                <==> (exists i :: i in items && items[i].Failed?) && (exists i :: i in items && !items[i].Failed?))
  {
    assert |items.Keys| == |items|;
    CountAll(items, IsFailed);
    CountNone(items, IsFailed);
  }

  /** The next step of a worker, whatever the state of the rest. */
  function NextOf(s: State, d: int, ok: bool, at: int): Event
    requires d in s.flights
  {
    var Flight(_, kind, stage) := s.flights[d];
    match stage
    case Claimed => if kind.Parent? then FanChunk(d, at) else if kind.Child? then Begin(d) else Work(d)
    case Fanning(_) => FanChunk(d, at)
    case Working => Mark(d, ok)
    case Marked => Check(d, at)
    case Granted => Finalize(d)
    case Finalized(_) => Refund(d)
    case Finished => Complete(d, at)
  }

  /** No worker is ever stuck: it can take its next step, or crash; and every row that is due can be claimed. */
  lemma WorkersMove(start: State, es: seq<Event>, d: int, ok: bool, at: int, error: string)
    requires Start(start)
    ensures var s := Run(start, es);
            && (d in s.flights ==> Enabled(s, NextOf(s, d, ok, at)) && Enabled(s, Crash(d, error, at)))
            && (d !in s.flights ==>
                  forall id, worker :: id in s.queue.rows && Q.Eligible(s.queue.rows[id], at) ==>
                    Enabled(s, Claim(d, id, worker, at)))
  {
    StartInv(start);
    RunKeepsInv(start, es);
    var s := Run(start, es);
    if d in s.flights {
      assert FlightOk(s, s.flights[d]);
    }
  }

  predicate IsParent(s: State, id: int)
    requires id in s.queue.rows
  {
    KindOf(s.queue.rows[id], s.cfg.job).Parent?
  }

  /** A child row of an item that is not terminal. */
  predicate OfOpenItem(s: State, t: Q.Task) {
    var kind := KindOf(t, s.cfg.job);
    kind.Child? && kind.item in s.books.items && IsOpen(s.books.items[kind.item])
  }

  /** A fan-out task that a worker has still to run to its end. */
  ghost predicate ParentOpen(s: State) {
    exists id :: id in s.queue.rows && IsParent(s, id) && !s.queue.rows[id].status.Terminal()
  }

  ghost predicate ParentFailed(s: State) {
    exists id :: id in s.queue.rows && IsParent(s, id) && s.queue.rows[id].status.Failed?
  }

  /** Some state of the run has a fan-out task that failed for good. */
  ghost predicate EverParentFailed(s: State, es: seq<Event>)
    decreases |es|
  {
    ParentFailed(s) || (es != [] && EverParentFailed(Step(s, es[0]), es[1..]))
  }

  /** A fan-out task that ends without failing has enqueued every child. */
  lemma ParentEnds(s: State, e: Event, id: int)
    requires RowsInv(s) && FanOutInv(s) && Enabled(s, e) && !ParentFailed(Step(s, e))
    requires id in s.queue.rows && IsParent(s, id) && !s.queue.rows[id].status.Terminal()
    ensures ParentOpen(Step(s, e)) || AllEnqueued(Step(s, e), |s.cfg.order|)
  {
    InsertedRow(s, e, id);
    EnqueuedGrows(s, e);
    var s' := Step(s, e);
    assert id in s'.queue.rows;
    RowKept(s, e, id);
    assert IsParent(s', id);
    if s'.queue.rows[id].status.Completed? {
      RowCompletes(s, e, id);
      assert FlightOk(s, s.flights[e.flight]);
    }
  }

  lemma {:induction false} FanOutEnds(s: State, es: seq<Event>)
    requires Inv(s) && (ParentOpen(s) || AllEnqueued(s, |s.cfg.order|)) && !EverParentFailed(s, es)
    ensures var s' := Run(s, es); s'.cfg == s.cfg && (ParentOpen(s') || AllEnqueued(s', |s.cfg.order|))
    decreases |es|
  {
    if es != [] {
      var (s', e) := (Step(s, es[0]), es[0]);
      StepKeepsInv(s, e);
      FlagsStay(s, e);
      if Enabled(s, e) {
        EnqueuedGrows(s, e);
        if ParentOpen(s) {
          var id :| id in s.queue.rows && IsParent(s, id) && !s.queue.rows[id].status.Terminal();
          assert !ParentFailed(s');
          ParentEnds(s, e, id);
        }
      }
      FanOutEnds(s', es[1..]);
    }
  }

  /** At a grant every row of the job is terminal, and a child row is for an item of the job. */
  lemma SiblingsDone(s: State, id: int)
    requires RowsInv(s) && Q.Grants(s.queue.rows, KEY, s.cfg.job)
    requires id in s.queue.rows && KindOf(s.queue.rows[id], s.cfg.job) != Other
    ensures s.queue.rows[id].status.Terminal()
  {
    assert Q.Carries(s.queue.rows[id], KEY, s.cfg.job) && RowFits(s, id, s.queue.rows[id]);
  }

  /** What a granting state looks like. */
  lemma GrantState(s: State, e: Event)
    requires Inv(s) && Enabled(s, e) && Granting(s, e)
    ensures !ParentOpen(s)
    ensures forall id :: id in s.queue.rows && KindOf(s.queue.rows[id], s.cfg.job) != Other ==>
              s.queue.rows[id].status.Terminal()
    ensures forall id :: id in s.queue.rows && IsParent(s, id) && !s.queue.rows[id].status.Failed? ==>
              AllEnqueued(s, |s.cfg.order|)
    ensures !s.past.reworked ==>
              forall id :: id in s.queue.rows && OfOpenItem(s, s.queue.rows[id]) ==> s.queue.rows[id].status.Failed?
  {
    forall id | id in s.queue.rows && KindOf(s.queue.rows[id], s.cfg.job) != Other
      ensures s.queue.rows[id].status.Terminal()
    {
      SiblingsDone(s, id);
    }
  }

  /**
   A grant is safe: every child of a job of one chunk has been enqueued, whatever became of its
   fan-out tasks; every child of a longer job has, unless a fan-out task failed for good at some
   time, and even then if one is left that has not failed; no row of the job is pending or
   running, the asking worker's own row included; and an item that is still open has only
   failed rows.
  */
  lemma GrantSafe(start: State, es: seq<Event>, e: Event)
    requires Start(start)
    requires Enabled(Run(start, es), e) && Granting(Run(start, es), e)
    ensures var s := Run(start, es);
            && s.cfg == start.cfg
            && (|start.cfg.order| <= 500 ==> AllEnqueued(s, |s.cfg.order|))
            && (ParentOpen(start) && !EverParentFailed(start, es) ==> AllEnqueued(s, |s.cfg.order|))
            && (forall id :: id in s.queue.rows && IsParent(s, id) && !s.queue.rows[id].status.Failed? ==>
                  AllEnqueued(s, |s.cfg.order|))
            && (forall id :: id in s.queue.rows && KindOf(s.queue.rows[id], s.cfg.job) != Other ==>
                  s.queue.rows[id].status.Terminal())
            && (s.flights[e.flight].task in s.queue.rows ==> !s.queue.rows[s.flights[e.flight].task].status.Running?)
            && (!s.past.reworked ==>
                  forall id :: id in s.queue.rows && OfOpenItem(s, s.queue.rows[id]) ==>
                    s.queue.rows[id].status.Failed?)
  {
    StartInv(start);
    RunKeepsInv(start, es);
    var s := Run(start, es);
    GrantState(s, e);
    assert FlightOk(s, s.flights[e.flight]);
    if ParentOpen(start) && !EverParentFailed(start, es) {
      FanOutEnds(start, es);
    }
  }

  /**
   Unless one of the job's own child rows is swept, nobody is ever granted the finalization:
   each child asks while its own row is still running and counts itself. The job is never
   finalized and its failed items are never refunded, however the run goes.
  */
  lemma NeverFinalizedUnswept(start: State, es: seq<Event>)
    requires Start(start) && !Run(start, es).past.staled
    ensures var s := Run(start, es);
            && s.past.grants == 0 && s.past.finals == [] && s.past.settled == 0
            && s.funds.balance == start.cfg.start + s.funds.outside - Reserved(start.cfg)
            && (forall e :: Enabled(s, e) ==> !Granting(s, e))
  {
    StartInv(start);
    RunKeepsInv(start, es);
    var s := Run(start, es);
    forall e | Enabled(s, e)
      ensures !Granting(s, e)
    {
      NoGrantWhileRunning(s, e);
    }
  }

  lemma RunOne(s: State, e: Event, es: seq<Event>)
    ensures Run(s, [e] + es) == Run(Step(s, e), es)
  {
    assert ([e] + es)[1..] == es;
  }

  // ---- a run that does settle -------------------------------------------------

  function Solo(rows: Q.Table, nextId: int, flights: map<int, Flight>, books: Books, funds: Funds, past: Past): State {
    State(Config(5, false, map[], [7], 1000), Queue(rows, nextId), flights, books, funds, past)
  }

  const SoloFunds := Funds(900, 0, 0)
  const SoloParent := Q.NewTask("bulk", map[KEY := 5], 0)
  const SoloChild := Q.NewTask("bulk_item", Payload(Config(5, false, map[], [7], 1000), 0), 0)
  const SoloStart := Solo(map[1 := SoloParent], 2, map[], Books(map[7 := B.Waiting], 0, 0), SoloFunds, Nothing)

  const SoloBooks := Books(map[7 := B.Waiting], 0, 0)
  const SoloFlying := map[1 := Flight(1, Parent, Finished)]

  lemma SoloParentClaimed()
    ensures Start(SoloStart)
    ensures Step(SoloStart, Claim(1, 1, "", 0))
         == Solo(map[1 := Q.Claimed(SoloParent, "", 0)], 2, map[1 := Flight(1, Parent, Claimed)], SoloBooks, SoloFunds,
                 Nothing)
  {
  }

  lemma SoloChunkEnqueued(rows: Q.Table, flights: map<int, Flight>)
    requires rows == map[1 := Q.Claimed(SoloParent, "", 0)] && flights == map[1 := Flight(1, Parent, Claimed)]
    ensures Step(Solo(rows, 2, flights, SoloBooks, SoloFunds, Nothing), FanChunk(1, 0))
         == Solo(rows[2 := SoloChild], 3, SoloFlying, SoloBooks, SoloFunds, Nothing.(enqueued := {7}))
  {
    var s := Solo(rows, 2, flights, SoloBooks, SoloFunds, Nothing);
    var chunk := ChunkOf(s.cfg, 0, 1);
    assert chunk == [Payload(s.cfg, 0)];
    assert Q.AfterEnqueue(rows, 2, "bulk_item", chunk, 0) == rows[2 := SoloChild];
    assert FlightsAfter(s, FanChunk(1, 0)) == SoloFlying;
  }

  lemma SoloParentDone(rows: Q.Table, past: Past)
    requires rows == map[1 := Q.Claimed(SoloParent, "", 0), 2 := SoloChild] && past == Nothing.(enqueued := {7})
    ensures Step(Solo(rows, 3, SoloFlying, SoloBooks, SoloFunds, past), Complete(1, 0))
         == SoloWaiting(SoloChild, map[], past)
  {
    var s := Solo(rows, 3, SoloFlying, SoloBooks, SoloFunds, past);
    assert FlightsAfter(s, Complete(1, 0)) == map[];
    assert Step(s, Complete(1, 0)).queue.rows == map[1 := SoloDone, 2 := SoloChild];
  }

  lemma SoloFansOut()
    ensures Start(SoloStart)
    ensures Run(SoloStart, [Claim(1, 1, "", 0), FanChunk(1, 0), Complete(1, 0)])
         == SoloWaiting(SoloChild, map[], Nothing.(enqueued := {7}))
  {
    var rows: Q.Table := map[1 := Q.Claimed(SoloParent, "", 0)];
    SoloParentClaimed();
    SoloChunkEnqueued(rows, map[1 := Flight(1, Parent, Claimed)]);
    SoloParentDone(rows[2 := SoloChild], Nothing.(enqueued := {7}));
    RunOne(SoloStart, Claim(1, 1, "", 0), [FanChunk(1, 0), Complete(1, 0)]);
    RunOne(Step(SoloStart, Claim(1, 1, "", 0)), FanChunk(1, 0), [Complete(1, 0)]);
    RunOne(Solo(rows[2 := SoloChild], 3, SoloFlying, SoloBooks, SoloFunds, Nothing.(enqueued := {7})),
           Complete(1, 0), []);
  }

  const SoloDone := Q.Done(Q.Claimed(SoloParent, "", 0), 0)
  const SoloSwept := Nothing.(enqueued := {7}, staled := true)

  function SoloWaiting(child: Q.Task, flights: map<int, Flight>, past: Past): State {
    Solo(map[1 := SoloDone, 2 := child], 3, flights, Books(map[7 := B.Waiting], 0, 0), SoloFunds, past)
  }

  ghost predicate SoloRow(child: Q.Task) {
    child.taskType == Q.Work("bulk_item") && Q.Carries(child, KEY, 5)
    && "item_id" in child.payload && child.payload["item_id"] == 7 && child.maxAttempts == 3
  }

  /** A claim of the child, and a sweep while the claiming worker is slow. */
  lemma SoloClaimAndSweep(child: Q.Task, flights: map<int, Flight>, past: Past, d: int, now: int, later: int)
    requires SoloRow(child) && Q.Eligible(child, now) && d !in flights && now + 900 < later
    ensures Run(SoloWaiting(child, flights, past), [Claim(d, 2, "", now), StaleSweep(15, later)])
         == SoloWaiting(Q.Requeued(Q.Claimed(child, "", now), later), flights[d := Flight(2, Child(7), Claimed)],
                        past.(staled := true))
  {
    assert Q.Work("bulk_item") != Q.Work("bulk");
    var c := Q.Claimed(child, "", now);
    var flights' := flights[d := Flight(2, Child(7), Claimed)];
    var (s, s1) := (SoloWaiting(child, flights, past), SoloWaiting(c, flights', past));
    var s2 := SoloWaiting(Q.Requeued(c, later), flights', past.(staled := true));
    assert Step(s, Claim(d, 2, "", now)) == s1;
    assert Q.Stale(s1.queue.rows[2], 15, later);
    assert Q.AfterRequeueStale(s1.queue.rows, 15, later) == s2.queue.rows;
    assert Step(s1, StaleSweep(15, later)) == s2;
    RunOne(s, Claim(d, 2, "", now), [StaleSweep(15, later)]);
    RunOne(s1, StaleSweep(15, later), []);
  }

  /** Both workers of the child begin its item. */
  lemma SoloBegins(child: Q.Task, flights: map<int, Flight>, both: map<int, Flight>)
    requires flights == map[1 := SoloAt(Claimed), 2 := SoloAt(Claimed)]
    requires both == map[1 := SoloAt(Working), 2 := SoloAt(Working)]
    ensures Run(SoloWaiting(child, flights, SoloSwept), [Begin(1), Begin(2)])
         == SoloJudged(child, both, B.Processing, 0, SoloSwept)
  {
    var s0 := SoloWaiting(child, flights, SoloSwept);
    var s1 := SoloJudged(child, flights[1 := SoloAt(Working)], B.Processing, 0, SoloSwept);
    assert map[7 := B.Waiting][7 := B.Processing] == map[7 := B.Processing];
    assert Step(s0, Begin(1)) == s1;
    assert map[7 := B.Processing][7 := B.Processing] == map[7 := B.Processing];
    assert FlightsAfter(s1, Begin(2)) == both;
    assert Step(s1, Begin(2)) == SoloJudged(child, both, B.Processing, 0, SoloSwept);
    RunOne(s0, Begin(1), [Begin(2)]);
    RunOne(s1, Begin(2), []);
  }

  function SoloAt(stage: Stage): Flight {
    Flight(2, Child(7), stage)
  }

  function SoloJudged(child: Q.Task, flights: map<int, Flight>, status: B.ItemStatus, failed: int, past: Past): State {
    Solo(map[1 := SoloDone, 2 := child], 3, flights, Books(map[7 := status], 0, failed), SoloFunds, past)
  }

  /** A worker fails the item; a second one does so again. */
  lemma SoloFails(child: Q.Task, flights: map<int, Flight>, status: B.ItemStatus, failed: int, past: Past, d: int)
    requires d in flights && flights[d] == SoloAt(Working)
    ensures Run(SoloJudged(child, flights, status, failed, past), [Mark(d, false)])
         == SoloJudged(child, flights[d := SoloAt(Marked)], B.Failed, failed + 1,
                       past.(reworked := past.reworked || status.Terminal()))
  {
    var s := SoloJudged(child, flights, status, failed, past);
    assert map[7 := status][7 := B.Failed] == map[7 := B.Failed];
    RunOne(s, Mark(d, false), []);
  }

  /** A worker is granted the finalization. */
  lemma SoloGranted(s: State, child: Q.Task, flights: map<int, Flight>, failed: int, past: Past, d: int)
    requires s == SoloJudged(child, flights, B.Failed, failed, past)
    requires child.status.Failed? && child.taskType.Work? && d in flights && flights[d] == SoloAt(Marked)
    ensures var s' := Step(s, Check(d, 2000));
            && s'.cfg == s.cfg && s'.books == s.books && s'.funds == s.funds
            && s'.past == s.past.(grants := s.past.grants + 1)
            && d in s'.flights && s'.flights[d] == SoloAt(Granted)
  {
    assert Granting(s, Check(d, 2000));
  }

  lemma SoloRefunded(s: State, failed: int, d: int)
    requires s.cfg == SoloStart.cfg && s.books == Books(map[7 := B.Failed], 0, failed) && s.funds == SoloFunds
    requires d in s.flights && s.flights[d] == SoloAt(Granted)
    ensures var s' := Step(Step(s, Finalize(d)), Refund(d));
            && s'.past == s.past.(finals := s.past.finals + [Final(failed, 0)], settled := s.past.settled + 1,
                                  returned := s.past.returned + failed)
            && s'.funds.balance == 900 + failed * B.CREDIT
            && s'.books == s.books
  {
    CountNone(s.books.items, IsOpen);
    var t := Step(s, Finalize(d));
    assert t.flights[d].stage == Finalized(failed);
  }

  /** It wins the finalization and gives back a credit for each failure counted. */
  lemma SoloSettles(child: Q.Task, flights: map<int, Flight>, failed: int, past: Past, d: int)
    requires child.status.Failed? && child.taskType.Work? && d in flights && flights[d] == SoloAt(Marked)
    ensures var s := Run(SoloJudged(child, flights, B.Failed, failed, past), [Check(d, 2000), Finalize(d), Refund(d)]);
            && s.past == past.(grants := past.grants + 1, finals := past.finals + [Final(failed, 0)],
                               settled := past.settled + 1, returned := past.returned + failed)
            && s.funds.balance == 900 + failed * B.CREDIT
            && s.books == Books(map[7 := B.Failed], 0, failed)
  {
    var s2 := SoloJudged(child, flights, B.Failed, failed, past);
    var s3 := Step(s2, Check(d, 2000));
    SoloGranted(s2, child, flights, failed, past, d);
    SoloRefunded(s3, failed, d);
    RunOne(s2, Check(d, 2000), [Finalize(d), Refund(d)]);
    RunOne(s3, Finalize(d), [Refund(d)]);
    RunOne(Step(s3, Finalize(d)), Refund(d), []);
  }

  lemma {:induction false} RunAppend(s: State, es: seq<Event>, es': seq<Event>)
    ensures Run(s, es + es') == Run(Run(s, es), es')
    decreases |es|
  {
    if es == [] {
      assert es + es' == es';
    } else {
      assert (es + es')[0] == es[0] && (es + es')[1..] == es[1..] + es';
      RunAppend(Step(s, es[0]), es[1..], es');
    }
  }

  lemma Extend(s: State, es: seq<Event>, es': seq<Event>, s': State, s'': State) returns (all: seq<Event>)
    requires Run(s, es) == s' && Run(s', es') == s''
    ensures Run(s, all) == s''
  {
    RunAppend(s, es, es');
    all := es + es';
  }

  lemma SoloRows(once: Q.Task, twice: Q.Task)
    requires once == Q.Requeued(Q.Claimed(SoloChild, "", 0), 1000)
    requires twice == Q.Requeued(Q.Claimed(once, "", 1000), 2000)
    ensures SoloRow(SoloChild) && Q.Eligible(SoloChild, 0)
    ensures SoloRow(once) && Q.Eligible(once, 1000)
    ensures twice.status.Failed? && twice.taskType.Work?
  {
    PayloadFields(SoloStart.cfg, 0);
  }

  /** Two claims of the child and two sweeps, then both workers begin. */
  lemma SoloMiddle(child: Q.Task, once: Q.Task, twice: Q.Task, past: Past, f0: map<int, Flight>, f1: map<int, Flight>)
    returns (es: seq<Event>)
    requires SoloRow(child) && Q.Eligible(child, 0) && SoloRow(once) && Q.Eligible(once, 1000)
    requires once == Q.Requeued(Q.Claimed(child, "", 0), 1000) && twice == Q.Requeued(Q.Claimed(once, "", 1000), 2000)
    requires f0 == map[] && f1 == map[1 := SoloAt(Claimed)]
    requires past.(staled := true) == SoloSwept
    ensures Run(SoloWaiting(child, f0, past), es)
         == SoloJudged(twice, map[1 := SoloAt(Working), 2 := SoloAt(Working)], B.Processing, 0, SoloSwept)
  {
    var f2 := map[1 := SoloAt(Claimed), 2 := SoloAt(Claimed)];
    assert f0[1 := SoloAt(Claimed)] == f1 && f1[2 := SoloAt(Claimed)] == f2;
    SoloClaimAndSweep(child, f0, past, 1, 0, 1000);
    SoloClaimAndSweep(once, f1, SoloSwept, 2, 1000, 2000);
    SoloBegins(twice, f2, map[1 := SoloAt(Working), 2 := SoloAt(Working)]);
    var (start, swept) := (SoloWaiting(child, f0, past), SoloWaiting(once, f1, SoloSwept));
    var swept' := SoloWaiting(twice, f2, SoloSwept);
    es := [Claim(1, 2, "", 0), StaleSweep(15, 1000)];
    es := Extend(start, es, [Claim(2, 2, "", 1000), StaleSweep(15, 2000)], swept, swept');
    es := Extend(start, es, [Begin(1), Begin(2)], swept', Run(swept', [Begin(1), Begin(2)]));
  }

  /** The job's child is claimed and swept twice, and both of its workers are at work. */
  lemma SoloBothWork() returns (es: seq<Event>, twice: Q.Task)
    ensures Start(SoloStart) && twice.status.Failed? && twice.taskType.Work?
    ensures Run(SoloStart, es)
         == SoloJudged(twice, map[1 := SoloAt(Working), 2 := SoloAt(Working)], B.Processing, 0, SoloSwept)
  {
    var once := Q.Requeued(Q.Claimed(SoloChild, "", 0), 1000);
    twice := Q.Requeued(Q.Claimed(once, "", 1000), 2000);
    SoloFansOut();
    SoloRows(once, twice);
    var middle := SoloMiddle(SoloChild, once, twice, Nothing.(enqueued := {7}), map[], map[1 := SoloAt(Claimed)]);
    var waiting := SoloWaiting(SoloChild, map[], Nothing.(enqueued := {7}));
    es := [Claim(1, 1, "", 0), FanChunk(1, 0), Complete(1, 0)];
    es := Extend(SoloStart, es, middle, waiting, Run(waiting, middle));
  }

  /**
   A job recovers from a lost worker: one of two dispatches of its swept child fails the item
   and settles the job, and the credits are conserved.
  */
  lemma SomeRunSettles() returns (es: seq<Event>)
    ensures Start(SoloStart)
    ensures var s := Run(SoloStart, es);
            && !s.past.dropped && !s.past.reworked && s.past.settled == 1 && s.past.finals == [Final(1, 0)]
            && s.funds.balance == SoloStart.cfg.start && s.books == Books(map[7 := B.Failed], 0, 1)
  {
    var twice: Q.Task;
    es, twice := SoloBothWork();
    var (working, verdict) := (map[1 := SoloAt(Working), 2 := SoloAt(Working)], [Mark(2, false)]);
    var settle := [Check(2, 2000), Finalize(2), Refund(2)];
    var judged := SoloJudged(twice, working[2 := SoloAt(Marked)], B.Failed, 1, SoloSwept);
    SoloFails(twice, working, B.Processing, 0, SoloSwept, 2);
    SoloSettles(twice, working[2 := SoloAt(Marked)], 1, SoloSwept, 2);
    es := Extend(SoloStart, es, verdict, SoloJudged(twice, working, B.Processing, 0, SoloSwept), judged);
    es := Extend(SoloStart, es, settle, judged, Run(judged, settle));
  }

  /** If both dispatches fail it, the one failed item is counted twice and the job gets back more than it paid. */
  lemma DoubleVerdictOverRefunds() returns (es: seq<Event>)
    ensures Start(SoloStart)
    ensures var s := Run(SoloStart, es);
            && !s.past.dropped && s.past.settled == 1 && s.past.finals == [Final(2, 0)]
            && s.books == Books(map[7 := B.Failed], 0, 2)
            && s.funds.balance == SoloStart.cfg.start + B.CREDIT
  {
    var twice: Q.Task;
    es, twice := SoloBothWork();
    var (working, one) := (map[1 := SoloAt(Working), 2 := SoloAt(Working)], SoloAt(Marked));
    var (half, full) := (working[1 := one], working[1 := one][2 := one]);
    var past := SoloSwept.(reworked := true);
    var settle := [Check(1, 2000), Finalize(1), Refund(1)];
    SoloFails(twice, working, B.Processing, 0, SoloSwept, 1);
    SoloFails(twice, half, B.Failed, 1, SoloSwept, 2);
    SoloSettles(twice, full, 2, past, 1);
    var (s1, s2) := (SoloJudged(twice, half, B.Failed, 1, SoloSwept), SoloJudged(twice, full, B.Failed, 2, past));
    es := Extend(SoloStart, es, [Mark(1, false)], SoloJudged(twice, working, B.Processing, 0, SoloSwept), s1);
    es := Extend(SoloStart, es, [Mark(2, false)], s1, s2);
    es := Extend(SoloStart, es, settle, s2, Run(s2, settle));
  }
}
