/**
 Bulk job tables (db/bulk.py) and the fan-out of a parent task into one child task per
 item (api/jobs.py). The organization's balance is kept in cents beside the tables.
*/
module BulkJobs {
  import opened Common
  import Q = TaskQueue

  const CREDIT := 100
  const CHUNK := 500

  datatype ItemStatus = Waiting | Processing | Completed | Failed {
    predicate Terminal() {
      Completed? || Failed?
    }
  }

  datatype JobStatus = JobProcessing | JobCompleted | JobPartialFailure | JobFailed

  datatype Job = Job(total: int, completed: int, failed: int, reserved: int, status: JobStatus)

  datatype Item = Item(job: int, status: ItemStatus)

  function FinalStatus(total: int, failed: int): JobStatus {
    if failed == total then JobFailed
    else if failed > 0 then JobPartialFailure
    else JobCompleted
  }

  /** The counter update that goes with an item's new status. */
  function Counted(job: Job, status: ItemStatus): Job {
    match status
    case Completed => job.(completed := job.completed + 1)
    case Failed => job.(failed := job.failed + 1)
    case _ => job
  }

  type Items = map<int, Item>
  type Jobs = map<int, Job>

  /** An item and its parent's counter change in one transaction. */
  function AfterUpdate(items: Items, jobs: Jobs, id: int, status: ItemStatus): (Items, Jobs) {
    if id in items && items[id].job in jobs then
      (items[id := items[id].(status := status)],
       jobs[items[id].job := Counted(jobs[items[id].job], status)])
    else (items, jobs)
  }

  /** The items of a job after an id: WHERE bulk_job_id = job AND id > after. */
  function ItemsAfter(items: Items, job: int, after: int): (ids: set<int>)
    ensures forall id :: id in ids <==> id in items && items[id].job == job && id > after
  {
    set id | id in items && items[id].job == job && id > after
  }

  lemma FewerAfter(items: Items, job: int, after: int, last: int)
    requires last in ItemsAfter(items, job, after)
    ensures |ItemsAfter(items, job, last)| < |ItemsAfter(items, job, after)|
  {
    SubsetSize(ItemsAfter(items, job, last), ItemsAfter(items, job, after) - {last});
  }

  /** ids are the items of the job up to last, in order. */
  ghost predicate UpTo(items: Items, job: int, ids: seq<int>, last: int) {
    && (forall i, j :: 0 <= i < j < |ids| ==> ids[i] < ids[j])
    && (forall id :: id in ids <==> id in items && items[id].job == job && id <= last)
  }

  /** A page is the next items of the job: in order, none before or between them left out. */
  ghost predicate IsPage(items: Items, job: int, after: int, page: seq<int>) {
    && (forall i, j :: 0 <= i < j < |page| ==> page[i] < page[j])
    && (forall id :: id in page ==> id in ItemsAfter(items, job, after))
    && (page != [] ==> forall id :: id in ItemsAfter(items, job, after) && id <= page[|page| - 1] ==> id in page)
  }

  lemma PageJoins(items: Items, job: int, ids: seq<int>, after: int, page: seq<int>, last: int)
    requires UpTo(items, job, ids, after) && IsPage(items, job, after, page)
    requires page != [] && last == page[|page| - 1]
    ensures UpTo(items, job, ids + page, last) && last in ItemsAfter(items, job, after)
  {
    assert last in page;
    forall i, j | 0 <= i < j < |ids + page|
      ensures (ids + page)[i] < (ids + page)[j]
    {
      if i < |ids| {
        assert ids[i] in ids;
      }
      if j >= |ids| {
        assert page[j - |ids|] in page;
      }
    }
    forall id
      ensures id in ids + page <==> id in items && items[id].job == job && id <= last
    {
      if id in page {
        var i :| 0 <= i < |page| && page[i] == id;
      }
    }
  }

  class BulkTables {
    var balance: int
    var jobs: map<int, Job>
    var items: map<int, Item>
    var nextJob: int
    var nextItem: int

    ghost predicate Valid()
      reads this
    {
      && (forall id :: id in jobs ==> id < nextJob)
      && (forall id :: id in items ==> 0 < id < nextItem && items[id].job in jobs)
      && nextItem > 0
    }

    constructor (balance: int)
      ensures Valid() && this.balance == balance && jobs == map[] && items == map[]
    {
      this.balance := balance;
      jobs, items, nextJob, nextItem := map[], map[], 1, 1;
    }

    /** One transaction: the debit and the job row happen together or not at all. */
    method CreateBulkJobWithCredit(total: int, cents: int) returns (job: Option<int>)
      requires Valid()
      modifies this
      ensures Valid() && items == old(items)
      ensures job.Some? <==> old(balance) >= cents
      ensures job.None? ==> balance == old(balance) && jobs == old(jobs)
      ensures job.Some? ==>
        && job.value !in old(jobs)
        && balance == old(balance) - cents
        && jobs == old(jobs)[job.value := Job(total, 0, 0, cents, JobProcessing)]
    {
      if balance < cents {
        return None;
      }
      balance := balance - cents;
      jobs := jobs[nextJob := Job(total, 0, 0, cents, JobProcessing)];
      job := Some(nextJob);
      nextJob := nextJob + 1;
    }

    method UpdateBulkJobItem(id: int, status: ItemStatus)
      requires Valid()
      modifies this
      ensures Valid() && balance == old(balance)
      ensures (items, jobs) == AfterUpdate(old(items), old(jobs), id, status)
      ensures id !in old(items) ==> items == old(items) && jobs == old(jobs)
      ensures id in old(items) ==>
        var (item, job) := (old(items)[id], old(jobs)[old(items)[id].job]);
        && items == old(items)[id := Item(item.job, status)]
        && jobs == old(jobs)[item.job := Job(job.total,
                                             if status == Completed then job.completed + 1 else job.completed,
                                             if status == Failed then job.failed + 1 else job.failed,
                                             job.reserved, job.status)]
    {
      if id in items {
        var parent := items[id].job;
        items := items[id := items[id].(status := status)];
        if status.Completed? {
          jobs := jobs[parent := jobs[parent].(completed := jobs[parent].completed + 1)];
        } else if status.Failed? {
          jobs := jobs[parent := jobs[parent].(failed := jobs[parent].failed + 1)];
        } else {
          assert jobs == jobs[parent := jobs[parent]];
        }
      }
    }

    /** Sets the final status; None stands for the exception on a missing job. */
    method FinalizeBulkJob(id: int) returns (final: Option<Job>)
      requires Valid()
      modifies this
      ensures Valid() && balance == old(balance) && items == old(items)
      ensures final.None? <==> id !in old(jobs)
      ensures final.None? ==> jobs == old(jobs)
      ensures final.Some? ==>
        && final.value == old(jobs)[id].(status := FinalStatus(old(jobs)[id].total, old(jobs)[id].failed))
        && final.value.status == (if final.value.failed == final.value.total then JobFailed
                                  else if final.value.failed > 0 then JobPartialFailure
                                  else JobCompleted)
        && jobs == old(jobs)[id := final.value]
    {
      if id !in jobs {
        return None;
      }
      var job := jobs[id];
      var status := JobCompleted;
      if job.failed == job.total {
        status := JobFailed;
      } else if job.failed > 0 {
        status := JobPartialFailure;
      }
      jobs := jobs[id := job.(status := status)];
      final := Some(jobs[id]);
    }

    /** The pages of iter_bulk_job_items, put end to end: every item of the job once, in id order. */
    method GetBulkJobItems(job: int, pageSize: nat) returns (ids: seq<int>)
      requires Valid() && pageSize > 0
      ensures forall i, j :: 0 <= i < j < |ids| ==> ids[i] < ids[j]
      ensures forall id :: id in ids <==> id in items && items[id].job == job
    {
      ids := [];
      var lastId := 0;
      while true
        invariant UpTo(items, job, ids, lastId)
        decreases |ItemsAfter(items, job, lastId)|
      {
        var page := Page(job, lastId, pageSize);
        if page == [] {
          break;
        }
        var last := page[|page| - 1];
        PageJoins(items, job, ids, lastId, page, last);
        FewerAfter(items, job, lastId, last);
        ids := ids + page;
        lastId := last;
      }
    }

    /** SELECT ... WHERE bulk_job_id = job AND id > after ORDER BY id LIMIT limit. */
    method Page(job: int, after: int, limit: nat) returns (page: seq<int>)
      ensures |page| <= limit && IsPage(items, job, after, page)
      ensures |page| < limit ==> forall id :: id in ItemsAfter(items, job, after) ==> id in page
    {
      page := [];
      var all := ItemsAfter(items, job, after);
      var rest := all;
      while rest != {} && |page| < limit
        invariant |page| <= limit
        invariant forall i, j :: 0 <= i < j < |page| ==> page[i] < page[j]
        invariant rest <= all && forall id :: id in page ==> id in all
        invariant forall id :: id in all ==> id in page || id in rest
        invariant forall i, id :: 0 <= i < |page| && id in rest ==> page[i] < id
      {
        LeastExists(rest);
        var least :| least in rest && forall other :: other in rest ==> least <= other;
        page := page + [least];
        rest := rest - {least};
      }
    }
  }

  lemma LeastExists(s: set<int>)
    requires s != {}
    ensures exists least :: least in s && forall other :: other in s ==> least <= other
  {
    Inhabited(s);
    var some :| some in s;
    var rest := s - {some};
    assert s == rest + {some};
    if rest != {} {
      LeastExists(rest);
      var least :| least in rest && forall other :: other in rest ==> least <= other;
      var first := Min(least, some);
      assert first in s && forall other :: other in s ==> first <= other;
    }
  }

  // ---- fan-out ----------------------------------------------------------------

  function ChildPayload(shared: Q.Payload, item: Q.Payload, index: int): Q.Payload {
    shared + item + map["account_index" := index]
  }

  /** A child has the shared fields, those of its item before them, and its index before all. */
  lemma ChildFields(shared: Q.Payload, item: Q.Payload, index: int, field: string)
    ensures var payload := ChildPayload(shared, item, index);
            && (field in payload <==> field == "account_index" || field in item || field in shared)
            && (field == "account_index" ==> payload[field] == index)
            && (field != "account_index" && field in item ==> payload[field] == item[field])
            && (field != "account_index" && field !in item && field in shared ==> payload[field] == shared[field])
  {
  }

  /** The payloads of all children, in item order. */
  function ChildPayloads(shared: Q.Payload, items: seq<Q.Payload>): (payloads: seq<Q.Payload>)
    ensures |payloads| == |items|
  {
    if items == [] then [] else
    var last := |items| - 1;
    ChildPayloads(shared, items[..last]) + [ChildPayload(shared, items[last], last)]
  }

  lemma {:induction false} ChildPayloadAt(shared: Q.Payload, items: seq<Q.Payload>, i: nat)
    requires i < |items|
    ensures ChildPayloads(shared, items)[i] == ChildPayload(shared, items[i], i)
  {
    var last := |items| - 1;
    if i < last {
      ChildPayloadAt(shared, items[..last], i);
    }
  }

  /** Enqueuing a chunk after the ones before it is enqueuing them all at once. */
  lemma {:induction false} EnqueueAppends(rows: Q.Table, nextId: int, name: string, all: seq<Q.Payload>, start: nat,
                                          end: nat, now: int, from: int)
    requires start <= end <= |all| && from == nextId + start
    ensures Q.AfterEnqueue(Q.AfterEnqueue(rows, nextId, name, all[..start], now), from, name, all[start..end], now)
         == Q.AfterEnqueue(rows, nextId, name, all[..end], now)
    decreases end
  {
    if start < end {
      EnqueueAppends(rows, nextId, name, all, start, end - 1, now, from);
      assert all[start..end][..end - 1 - start] == all[start..end - 1];
      assert all[..end][..end - 1] == all[..end - 1];
    }
  }

  method ChunkPayloads(shared: Q.Payload, items: seq<Q.Payload>, start: nat, end: nat)
    returns (payloads: seq<Q.Payload>)
    requires start <= end <= |items|
    ensures payloads == ChildPayloads(shared, items)[start..end]
  {
    payloads := [];
    for i := start to end
      invariant |payloads| == i - start
      invariant forall k :: 0 <= k < i - start ==> payloads[k] == ChildPayloads(shared, items)[start + k]
    {
      ChildPayloadAt(shared, items, i);
      payloads := payloads + [ChildPayload(shared, items[i], i)];
    }
  }

  /** A pending row of the item at a position, with no attempt made. */
  predicate IsChild(rows: Q.Table, id: int, name: string, shared: Q.Payload, item: Q.Payload, index: int) {
    && id in rows && rows[id].taskType == Q.Work(name) && rows[id].status == Q.Pending && rows[id].attempts == 0
    && rows[id].payload == shared + item + map["account_index" := index]
  }

  /** The loop over the chunks. */
  method EnqueueChunks(queue: Q.TaskTable, name: string, items: seq<Q.Payload>, shared: Q.Payload, now: int)
    modifies queue
    ensures queue.rows == Q.AfterEnqueue(old(queue.rows), old(queue.nextId), name, ChildPayloads(shared, items), now)
    ensures queue.nextId == old(queue.nextId) + |items|
  {
    ghost var all := ChildPayloads(shared, items);
    ghost var (rows, nextId) := (queue.rows, queue.nextId);
    var start := 0;
    assert Q.AfterEnqueue(rows, nextId, name, all[..0], now) == rows;
    while start < |items|
      invariant 0 <= start <= |items|
      invariant queue.nextId == nextId + start
      invariant queue.rows == Q.AfterEnqueue(rows, nextId, name, all[..start], now)
    {
      var end := Min(start + CHUNK, |items|);
      EnqueueAppends(rows, nextId, name, all, start, end, now, queue.nextId);
      var payloads := ChunkPayloads(shared, items, start, end);
      var _ := queue.EnqueueMany(name, payloads, now);
      start := end;
    }
    assert all[..start] == all;
  }

  lemma ChildrenEnqueued(rows: Q.Table, nextId: int, name: string, shared: Q.Payload, items: seq<Q.Payload>, now: int)
    ensures forall i :: 0 <= i < |items| ==>
              IsChild(Q.AfterEnqueue(rows, nextId, name, ChildPayloads(shared, items), now), nextId + i, name, shared,
                      items[i], i)
  {
    var all := ChildPayloads(shared, items);
    forall i | 0 <= i < |items|
      ensures IsChild(Q.AfterEnqueue(rows, nextId, name, all, now), nextId + i, name, shared, items[i], i)
    {
      Q.AfterEnqueueRow(rows, nextId, name, all, now, nextId + i);
      ChildPayloadAt(shared, items, i);
    }
  }

  /** Chunks of 500 leave the queue as one insert of every child would, indexed by position. */
  method FanOut(queue: Q.TaskTable, name: string, items: seq<Q.Payload>, shared: Q.Payload, now: int)
    modifies queue
    ensures queue.rows == Q.AfterEnqueue(old(queue.rows), old(queue.nextId), name, ChildPayloads(shared, items), now)
    ensures queue.nextId == old(queue.nextId) + |items|
    ensures forall i :: 0 <= i < |items| ==> IsChild(queue.rows, old(queue.nextId) + i, name, shared, items[i], i)
  {
    ChildrenEnqueued(queue.rows, queue.nextId, name, shared, items, now);
    EnqueueChunks(queue, name, items, shared, now);
  }

  const LIST_KEY := "list_id"

  /** A list_item row of a fan-out carries its list, so its worker asks under a key that counts the row. */
  lemma ListChildCounted(shared: Q.Payload, list: int, account: int, index: int, now: int)
    ensures var payload := ChildPayload(shared, map[LIST_KEY := list, "account_id" := account], index);
            Q.Carries(Q.NewTask("list_item", payload, now), LIST_KEY, list)
  {
    assert LIST_KEY[0] == 'l' && "account_id"[0] == 'a' && "account_index"[0] == 'a';
  }

  /**
   A list item that was enqueued at some point of a run, whose row was never swept since, is not
   granted the finalization of its list: its own row is still there, running, and counted.
  */
  lemma ListNeverGrantedUnswept(start: int, es: seq<Q.Event>, payloads: seq<Q.Payload>, now: int, later: seq<Q.Event>,
                                i: nat, shared: Q.Payload, list: int, account: int, index: int)
    requires Q.Run(Q.Empty(start), es).clock <= now && i < |payloads|
    requires payloads[i] == ChildPayload(shared, map[LIST_KEY := list, "account_id" := account], index)
    requires var w := Q.Run(Q.Empty(start), es);
             var queued := Q.Step(w, Q.EnqueueEvent("list_item", payloads, now));
             var task := w.nextId + i;
             Q.NeverSwept(queued, later, task) && task in Q.Run(queued, later).flights
    ensures var w := Q.Run(Q.Empty(start), es);
            var queued := Q.Step(w, Q.EnqueueEvent("list_item", payloads, now));
            var rows := Q.Run(queued, later).rows;
            && w.nextId + i in rows && rows[w.nextId + i].status.Running?
            && Q.Carries(rows[w.nextId + i], LIST_KEY, list) && !Q.Grants(rows, LIST_KEY, list)
  {
    var w := Q.Run(Q.Empty(start), es);
    var e := Q.EnqueueEvent("list_item", payloads, now);
    var (queued, task) := (Q.Step(w, e), w.nextId + i);
    Q.RowInvariant(start, es);
    Q.StepKeepsInv(w, e);
    Q.AfterEnqueueRow(w.rows, w.nextId, "list_item", payloads, now, task);
    ListChildCounted(shared, list, account, index, now);
    Q.UnsweptDispatch(queued, later, task);
    Q.RunKeepsJob(queued, later, task, Q.NewTask("list_item", payloads[i], now));
  }
}
