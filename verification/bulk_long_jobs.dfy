/**
 Bulk jobs of more than one chunk. Their fan-out task may fail for good after its first
 chunk, and the finalization is then granted before every child has been enqueued.
*/
module BulkLongJobs {
  import opened BulkProtocol
  import opened Common
  import Q = TaskQueue
  import B = BulkJobs

  ghost predicate Distinct(order: seq<int>) {
    forall i, j :: 0 <= i < j < |order| ==> order[i] != order[j]
  }

  ghost predicate Long(cfg: Config) {
    |cfg.order| > B.CHUNK && Distinct(cfg.order)
  }

  /** At the end of a run, e is told to finalize the job while some child has not been enqueued. */
  ghost predicate GrantedEarly(cfg: Config, start: State, es: seq<Event>, e: Event) {
    && Start(start) && start.cfg == cfg
    && Enabled(Run(start, es), e) && Granting(Run(start, es), e)
    && exists i :: 0 <= i < |cfg.order| && cfg.order[i] !in Run(start, es).past.enqueued
  }

  // ---- the job, and its first chunk -------------------------------------------

  function Books0(cfg: Config): Books {
    Books(map item | item in cfg.order :: B.Waiting, 0, 0)
  }

  function ParentRow(cfg: Config): Q.Task {
    Q.NewTask("bulk", map[KEY := cfg.job], 0)
  }

  function LongStart(cfg: Config): State {
    State(cfg, Queue(map[1 := ParentRow(cfg)], 2), map[], Books0(cfg), Funds(cfg.start - Reserved(cfg), 0, 0), Nothing)
  }

  lemma LongStarts(cfg: Config)
    requires Long(cfg)
    ensures Start(LongStart(cfg)) && LongStart(cfg).cfg == cfg
  {
  }

  const Chunked := B.CHUNK + 1

  /** A row of the job after some claims and sweeps: pending, running since a time, or failed. */
  predicate RowIs(t: Q.Task, status: Q.Status, attempts: int, started: Option<int>) {
    && t.status == status && t.attempts == attempts && t.startedAt == started
    && t.maxAttempts == 3 && t.runAt == Some(0) && t.taskType.Work?
  }

  /** Only the first chunk is enqueued and no item is begun; dispatch 2 has the first item. */
  ghost predicate FirstChunkOnly(s: State, cfg: Config) {
    && s.cfg == cfg && s.books == Books0(cfg)
    && (forall i :: B.CHUNK <= i < |cfg.order| ==> cfg.order[i] !in s.past.enqueued)
    && (forall id :: id in s.queue.rows <==> 1 <= id <= Chunked)
  }

  ghost predicate FirstWorker(s: State, cfg: Config)
    requires |cfg.order| > 0
  {
    2 in s.flights && s.flights[2] == Flight(2, Child(cfg.order[0]), Claimed)
  }

  /** The rows before next have been claimed at a time, by dispatches numbered from base; the others are due. */
  ghost predicate ClaimedBefore(s: State, next: int, attempts: int, after: int, at: int, base: int) {
    && (forall id :: id in s.queue.rows && id < next ==> RowIs(s.queue.rows[id], Q.Running, after, Some(at)))
    && (forall id :: id in s.queue.rows && id >= next ==> RowIs(s.queue.rows[id], Q.Pending, attempts, None))
    && (forall d :: d in s.flights ==> d < base + next)
  }

  /** The parent task is running and its worker has it; nothing else has happened. */
  predicate ParentRunning(s: State, cfg: Config) {
    && s.cfg == cfg && s.books == Books0(cfg) && s.past == Nothing
    && s.queue == Queue(map[1 := Q.Claimed(ParentRow(cfg), "", 0)], 2)
    && s.flights == map[1 := Flight(1, Parent, Claimed)]
  }

  lemma ParentClaimed(cfg: Config)
    requires Long(cfg)
    ensures ParentRunning(Step(LongStart(cfg), Claim(1, 1, "", 0)), cfg)
  {
  }

  /** The rows after the first chunk: the running parent, and a fresh child for each of the first 500 items. */
  ghost predicate ChunkRows(rows: Q.Table, cfg: Config)
    requires Long(cfg)
  {
    && (forall id :: id in rows <==> 1 <= id <= Chunked)
    && rows[1] == Q.Claimed(ParentRow(cfg), "", 0)
    && (forall id :: 2 <= id <= Chunked ==> rows[id] == Q.NewTask("bulk_item", Payload(cfg, id - 2), 0))
  }

  lemma ChunkInserted(cfg: Config, rows: Q.Table)
    requires Long(cfg) && rows == map[1 := Q.Claimed(ParentRow(cfg), "", 0)]
    ensures ChunkRows(Q.AfterEnqueue(rows, 2, "bulk_item", ChunkOf(cfg, 0, B.CHUNK), 0), cfg)
  {
    var rows' := Q.AfterEnqueue(rows, 2, "bulk_item", ChunkOf(cfg, 0, B.CHUNK), 0);
    Q.AfterEnqueueRow(rows, 2, "bulk_item", ChunkOf(cfg, 0, B.CHUNK), 0, 1);
    forall id
      ensures id in rows' <==> 1 <= id <= Chunked
      ensures 2 <= id <= Chunked ==> rows'[id] == Q.NewTask("bulk_item", Payload(cfg, id - 2), 0)
    {
      Q.AfterEnqueueRow(rows, 2, "bulk_item", ChunkOf(cfg, 0, B.CHUNK), 0, id);
    }
  }

  lemma ChunkStep(cfg: Config, s: State, s': State)
    requires Long(cfg) && ParentRunning(s, cfg) && s' == Step(s, FanChunk(1, 0))
    ensures s'.cfg == cfg && s'.books == Books0(cfg)
    ensures s'.queue.rows == Q.AfterEnqueue(s.queue.rows, 2, "bulk_item", ChunkOf(cfg, 0, B.CHUNK), 0)
    ensures s'.past.enqueued == set i | 0 <= i < B.CHUNK :: cfg.order[i]
  {
    assert ChunkEnd(cfg, Claimed) == B.CHUNK;
  }

  lemma ChunkFlight(cfg: Config, s: State)
    requires Long(cfg) && ParentRunning(s, cfg)
    ensures Step(s, FanChunk(1, 0)).flights == map[1 := Flight(1, Parent, Fanning(B.CHUNK))]
  {
    assert ChunkEnd(cfg, Claimed) == B.CHUNK;
  }

  lemma ChunkEnqueued(cfg: Config, s: State, s': State)
    requires Long(cfg) && ParentRunning(s, cfg) && s' == Step(s, FanChunk(1, 0))
    ensures FirstChunkOnly(s', cfg) && ChunkRows(s'.queue.rows, cfg)
  {
    ChunkStep(cfg, s, s');
    ChunkInserted(cfg, s.queue.rows);
  }

  lemma FirstChildKind(cfg: Config, t: Q.Task)
    requires Long(cfg) && t == Q.NewTask("bulk_item", Payload(cfg, 0), 0)
    ensures KindOf(t, cfg.job) == Child(cfg.order[0])
  {
    PayloadFields(cfg, 0);
    assert Q.Work("bulk_item") != Q.Work("bulk");
  }

  lemma FreshRow(cfg: Config, rows: Q.Table, id: int)
    requires Long(cfg) && ChunkRows(rows, cfg) && 2 <= id <= Chunked
    ensures id in rows && RowIs(rows[id], Q.Pending, 0, None) && Q.Eligible(rows[id], 0)
  {
  }

  lemma FirstChildClaim(cfg: Config, s: State, s': State)
    requires Long(cfg) && ChunkRows(s.queue.rows, cfg) && s.cfg == cfg
    requires s.flights == map[1 := Flight(1, Parent, Fanning(B.CHUNK))] && s' == Step(s, Claim(2, 2, "", 0))
    ensures s'.flights == s.flights[2 := Flight(2, Child(cfg.order[0]), Claimed)]
    ensures s'.queue.rows == s.queue.rows[2 := Q.Claimed(s.queue.rows[2], "", 0)]
    ensures s'.cfg == s.cfg && s'.books == s.books && s'.past == s.past
  {
    FreshRow(cfg, s.queue.rows, 2);
    FirstChildKind(cfg, s.queue.rows[2]);
  }

  /** The first child is claimed, by dispatch 2. */
  lemma FirstChildClaimed(cfg: Config, s: State, s': State)
    requires Long(cfg) && FirstChunkOnly(s, cfg) && ChunkRows(s.queue.rows, cfg)
    requires s.flights == map[1 := Flight(1, Parent, Fanning(B.CHUNK))] && s' == Step(s, Claim(2, 2, "", 0))
    ensures FirstChunkOnly(s', cfg) && FirstWorker(s', cfg) && ClaimedBefore(s', 3, 0, 1, 0, 0)
  {
    FirstChildClaim(cfg, s, s');
    FirstWorkerRows(cfg, s.queue.rows, s'.queue.rows);
  }

  lemma FirstWorkerRows(cfg: Config, rows: Q.Table, rows': Q.Table)
    requires Long(cfg) && ChunkRows(rows, cfg) && rows' == rows[2 := Q.Claimed(rows[2], "", 0)]
    ensures forall id :: id in rows' && id < 3 ==> RowIs(rows'[id], Q.Running, 1, Some(0))
    ensures forall id :: id in rows' && id >= 3 ==> RowIs(rows'[id], Q.Pending, 0, None)
  {
    forall id | id in rows' && id >= 2
      ensures RowIs(rows[id], Q.Pending, 0, None)
    {
      FreshRow(cfg, rows, id);
    }
  }

  // ---- claims and sweeps of every row -----------------------------------------

  lemma NextClaimed(s: State, cfg: Config, id: int, next: int, attempts: int, after: int, at: int, base: int, d: int)
    requires Long(cfg) && FirstChunkOnly(s, cfg) && FirstWorker(s, cfg) && id <= Chunked && next == id + 1
    requires 1 <= id && 0 <= attempts < 3 && after == attempts + 1 && 0 <= at && d == base + id
    requires ClaimedBefore(s, id, attempts, after, at, base)
    ensures var s' := Step(s, Claim(d, id, "", at));
            && FirstChunkOnly(s', cfg) && FirstWorker(s', cfg)
            && ClaimedBefore(s', next, attempts, after, at, base)
  {
    assert RowIs(s.queue.rows[id], Q.Pending, attempts, None);
    assert Enabled(s, Claim(d, id, "", at));
  }

  /** Claims of every row from next on. */
  lemma {:induction false} ClaimAll(s: State, cfg: Config, next: int, attempts: int, after: int, at: int, base: int)
    returns (es: seq<Event>)
    requires Long(cfg) && FirstChunkOnly(s, cfg) && FirstWorker(s, cfg) && 1 <= next <= Chunked + 1
    requires 0 <= attempts < 3 && after == attempts + 1 && 0 <= at
    requires ClaimedBefore(s, next, attempts, after, at, base)
    ensures var s' := Run(s, es);
            && FirstChunkOnly(s', cfg) && FirstWorker(s', cfg)
            && ClaimedBefore(s', Chunked + 1, attempts, after, at, base)
    decreases Chunked + 1 - next
  {
    es := [];
    if next <= Chunked {
      var (d, next') := (base + next, next + 1);
      NextClaimed(s, cfg, next, next', attempts, after, at, base, d);
      es := ClaimAll(Step(s, Claim(d, next, "", at)), cfg, next', attempts, after, at, base);
      RunOne(s, Claim(d, next, "", at), es);
      es := [Claim(d, next, "", at)] + es;
    }
  }

  /** A sweep of rows that have all been running for more than 15 minutes. */
  lemma AllSwept(s: State, cfg: Config, attempts: int, after: int, swept: int, at: int, base: int, later: int)
    requires Long(cfg) && FirstChunkOnly(s, cfg) && FirstWorker(s, cfg) && at + 900 < later && swept == after + 1
    requires ClaimedBefore(s, Chunked + 1, attempts, after, at, base)
    ensures var s' := Step(s, StaleSweep(15, later));
            && FirstChunkOnly(s', cfg) && FirstWorker(s', cfg) && s'.flights == s.flights
            && (forall id :: id in s'.queue.rows ==>
                  RowIs(s'.queue.rows[id], if swept >= 3 then Q.Failed else Q.Pending, swept, None))
  {
    forall id | id in s.queue.rows
      ensures Q.Stale(s.queue.rows[id], 15, later)
    {
      assert RowIs(s.queue.rows[id], Q.Running, after, Some(at));
    }
  }

  /** Every row of the job has failed. */
  ghost predicate AllFailed(s: State) {
    forall id :: id in s.queue.rows ==> RowIs(s.queue.rows[id], Q.Failed, 4, None)
  }

  /** Every row is claimed and swept twice. */
  lemma AllFail(s: State, cfg: Config) returns (es: seq<Event>)
    requires Long(cfg) && FirstChunkOnly(s, cfg) && FirstWorker(s, cfg) && ClaimedBefore(s, 3, 0, 1, 0, 0)
    ensures var s' := Run(s, es); FirstChunkOnly(s', cfg) && FirstWorker(s', cfg) && AllFailed(s')
  {
    es := ClaimAll(s, cfg, 3, 0, 1, 0, 0);
    var s1 := Run(s, es);
    AllSwept(s1, cfg, 0, 1, 2, 0, 0, 1000);
    var s2 := Step(s1, StaleSweep(15, 1000));
    assert ClaimedBefore(s2, 1, 2, 3, 1000, Chunked + 1);
    var more := ClaimAll(s2, cfg, 1, 2, 3, 1000, Chunked + 1);
    var s3 := Run(s2, more);
    AllSwept(s3, cfg, 2, 3, 4, 1000, Chunked + 1, 2000);
    RunOne(s1, StaleSweep(15, 1000), []);
    RunOne(s3, StaleSweep(15, 2000), []);
    es := Extend(s, es, [StaleSweep(15, 1000)], s1, s2);
    es := Extend(s, es, more, s2, s3);
    es := Extend(s, es, [StaleSweep(15, 2000)], s3, Step(s3, StaleSweep(15, 2000)));
  }

  // ---- the early grant --------------------------------------------------------

  /** The slow first worker fails its item and then asks. */
  lemma FirstWorkerAsks(s: State, cfg: Config)
    requires Long(cfg) && FirstChunkOnly(s, cfg) && FirstWorker(s, cfg) && AllFailed(s)
    ensures var s' := Run(s, [Begin(2), Mark(2, false)]);
            && FirstNotEnqueued(s', cfg)
            && Enabled(s', Check(2, 2000)) && Granting(s', Check(2, 2000))
  {
    var s1 := Step(s, Begin(2));
    assert s1.flights[2] == Flight(2, Child(cfg.order[0]), Working) && s1.queue == s.queue;
    var s2 := Step(s1, Mark(2, false));
    assert s2.flights[2] == Flight(2, Child(cfg.order[0]), Marked) && s2.queue == s.queue;
    RunOne(s, Begin(2), [Mark(2, false)]);
    RunOne(s1, Mark(2, false), []);
    forall id | id in s2.queue.rows
      ensures s2.queue.rows[id].status.Terminal() && s2.queue.rows[id].taskType.Work?
    {
      assert RowIs(s.queue.rows[id], Q.Failed, 4, None);
    }
  }

  ghost predicate FirstNotEnqueued(s: State, cfg: Config)
    requires Long(cfg)
  {
    s.cfg == cfg && cfg.order[B.CHUNK] !in s.past.enqueued
  }

  /** The first chunk is enqueued and the first child claimed. */
  lemma LongBegins(cfg: Config, es: seq<Event>)
    requires Long(cfg) && es == [Claim(1, 1, "", 0), FanChunk(1, 0), Claim(2, 2, "", 0)]
    ensures var s := Run(LongStart(cfg), es);
            FirstChunkOnly(s, cfg) && FirstWorker(s, cfg) && ClaimedBefore(s, 3, 0, 1, 0, 0)
  {
    var s1 := Step(LongStart(cfg), Claim(1, 1, "", 0));
    var s2 := Step(s1, FanChunk(1, 0));
    ParentClaimed(cfg);
    ChunkEnqueued(cfg, s1, s2);
    ChunkFlight(cfg, s1);
    FirstChildClaimed(cfg, s2, Step(s2, Claim(2, 2, "", 0)));
    RunOne(LongStart(cfg), Claim(1, 1, "", 0), [FanChunk(1, 0), Claim(2, 2, "", 0)]);
    RunOne(s1, FanChunk(1, 0), [Claim(2, 2, "", 0)]);
    RunOne(s2, Claim(2, 2, "", 0), []);
  }

  /** Whatever the job, if it is longer than a chunk: a run in which it is granted early. */
  lemma LongJobGrantedEarly(cfg: Config) returns (es: seq<Event>)
    requires Long(cfg)
    ensures GrantedEarly(cfg, LongStart(cfg), es, Check(2, 2000))
  {
    es := [Claim(1, 1, "", 0), FanChunk(1, 0), Claim(2, 2, "", 0)];
    LongStarts(cfg);
    LongBegins(cfg, es);
    var (s, begun, last) := (LongStart(cfg), Run(LongStart(cfg), es), [Begin(2), Mark(2, false)]);
    var fails := AllFail(begun, cfg);
    FirstWorkerAsks(Run(begun, fails), cfg);
    es := Extend(s, es, fails, begun, Run(begun, fails));
    es := Extend(s, es, last, Run(begun, fails), Run(Run(begun, fails), last));
  }

  /**
   A run of a job that is told to finalize before every child is enqueued exists if and only if
   the job has more items than one chunk holds.
  */
  lemma EnqueuedFirstExactly(cfg: Config)
    requires Distinct(cfg.order)
    ensures (exists start, es, e :: GrantedEarly(cfg, start, es, e)) <==> |cfg.order| > 500
  {
    if |cfg.order| > B.CHUNK {
      var es := LongJobGrantedEarly(cfg);
    } else {
      forall start, es, e
        ensures !GrantedEarly(cfg, start, es, e)
      {
        if GrantedEarly(cfg, start, es, e) {
          GrantSafe(start, es, e);
        }
      }
    }
  }
}
