/** List accounts and the counters of their parent list (db/lists.py). */
module ListTables {
  import opened Common

  datatype Status = Pending | Processing | Completed | Failed

  datatype ListStatus = Created | Analyzing | ListCompleted | ListPartialFailure | ListFailed

  datatype Account = Account(list: int, status: Status)

  datatype List = List(total: int, analyzed: int, failed: int, status: ListStatus)

  function FinalStatus(total: int, failed: int): ListStatus {
    if failed == total then ListFailed
    else if failed > 0 then ListPartialFailure
    else ListCompleted
  }

  type Accounts = map<int, Account>
  type Lists = map<int, List>

  /** An account and its list's counter change in one transaction. */
  function AfterUpdate(accounts: Accounts, lists: Lists, id: int, status: Status): (Accounts, Lists) {
    if id in accounts && accounts[id].list in lists then
      var parent := lists[accounts[id].list];
      (accounts[id := accounts[id].(status := status)],
       lists[accounts[id].list := parent.(
         analyzed := parent.analyzed + (if status.Completed? then 1 else 0),
         failed := parent.failed + (if status.Failed? then 1 else 0))])
    else (accounts, lists)
  }

  /** A reset does not check that the account is failed, and clips the counter at zero. */
  function AfterReset(accounts: Accounts, lists: Lists, id: int): (Accounts, Lists) {
    if id in accounts && accounts[id].list in lists then
      var parent := lists[accounts[id].list];
      (accounts[id := accounts[id].(status := Pending)],
       lists[accounts[id].list := parent.(failed := Max(parent.failed - 1, 0))])
    else (accounts, lists)
  }

  class Tables {
    var accounts: map<int, Account>
    var lists: map<int, List>

    ghost predicate Valid()
      reads this
    {
      forall id :: id in accounts ==> accounts[id].list in lists
    }

    constructor ()
      ensures Valid() && accounts == map[] && lists == map[]
    {
      accounts, lists := map[], map[];
    }

    method UpdateListAccount(id: int, status: Status)
      requires Valid()
      modifies this
      ensures Valid()
      ensures (accounts, lists) == AfterUpdate(old(accounts), old(lists), id, status)
      ensures id !in old(accounts) ==> accounts == old(accounts) && lists == old(lists)
      ensures id in old(accounts) ==>
        var (account, list) := (old(accounts)[id], old(lists)[old(accounts)[id].list]);
        && accounts == old(accounts)[id := Account(account.list, status)]
        && lists == old(lists)[account.list := List(list.total,
                                                    if status == Completed then list.analyzed + 1 else list.analyzed,
                                                    if status == Failed then list.failed + 1 else list.failed,
                                                    list.status)]
    {
      if id in accounts {
        var list := accounts[id].list;
        accounts := accounts[id := accounts[id].(status := status)];
        if status.Completed? {
          lists := lists[list := lists[list].(analyzed := lists[list].analyzed + 1)];
        } else if status.Failed? {
          lists := lists[list := lists[list].(failed := lists[list].failed + 1)];
        } else {
          assert lists == lists[list := lists[list]];
        }
      }
    }

    method ResetListAccount(id: int)
      requires Valid()
      modifies this
      ensures Valid()
      ensures (accounts, lists) == AfterReset(old(accounts), old(lists), id)
      ensures id !in old(accounts) ==> accounts == old(accounts) && lists == old(lists)
      ensures id in old(accounts) ==>
        var (account, list) := (old(accounts)[id], old(lists)[old(accounts)[id].list]);
        && accounts == old(accounts)[id := Account(account.list, Pending)]
        && lists == old(lists)[account.list := list.(failed := if list.failed > 1 then list.failed - 1 else 0)]
    {
      if id in accounts {
        var list := accounts[id].list;
        accounts := accounts[id := accounts[id].(status := Pending)];
        lists := lists[list := lists[list].(failed := Max(lists[list].failed - 1, 0))];
      }
    }

    method FinalizeList(id: int) returns (final: Option<List>)
      requires Valid()
      modifies this
      ensures Valid() && accounts == old(accounts)
      ensures final.None? <==> id !in old(lists)
      ensures final.None? ==> lists == old(lists)
      ensures final.Some? ==>
        && final.value == old(lists)[id].(status := FinalStatus(old(lists)[id].total, old(lists)[id].failed))
        && final.value.status == (if final.value.failed == final.value.total then ListFailed
                                  else if final.value.failed > 0 then ListPartialFailure
                                  else ListCompleted)
        && lists == old(lists)[id := final.value]
    {
      if id !in lists {
        return None;
      }
      var status := ListCompleted;
      if lists[id].failed == lists[id].total {
        status := ListFailed;
      } else if lists[id].failed > 0 {
        status := ListPartialFailure;
      }
      lists := lists[id := lists[id].(status := status)];
      final := Some(lists[id]);
    }

    /** Moves a list to analyzing; of any callers until it leaves that status, one is told True. */
    method TryStartListAnalysis(id: int) returns (started: bool)
      requires Valid()
      modifies this
      ensures Valid() && accounts == old(accounts)
      ensures started <==> id in old(lists) && !old(lists)[id].status.Analyzing?
      ensures lists == if started then old(lists)[id := old(lists)[id].(status := Analyzing)] else old(lists)
      ensures id in lists ==> lists[id].status.Analyzing?
    {
      started := id in lists && !lists[id].status.Analyzing?;
      if started {
        lists := lists[id := lists[id].(status := Analyzing)];
      }
    }
  }
}

/**
 The credits of one list from the reservation on: any number of runs of the first analysis of
 each account (api/jobs.py run_list_item), of finalizations (_finalize_list_parent), of retry
 requests (routes/lists.py) and of runs of the retry tasks they start (api/jobs.py
 run_retry_account). A stale requeue makes a task run again while its slow worker
 is still at it. Each database call is one step and all requests and workers interleave freely.
*/
module ListProtocol {
  import opened Common
  import L = ListTables

  const CREDIT := 100

  /** One retry request for one account, from its check of the status to the first outcome of its task. */
  datatype RetryStage = Checked | Rejected | Paid | WasReset | Started | Settled

  datatype Retry = Retry(account: int, stage: RetryStage)

  /** A worker's run of a task. A retry that fails is refunded first and marks its account after that. */
  datatype Dispatch = Analysis(account: int) | RetryTask(retry: int, refunded: bool)

  /**
   The account rows and the counters of the list. clash: an update found its account finished, or
   a reset found its account not failed; clipped: GREATEST(failed - 1, 0) was 0 for a negative value.
  */
  datatype Rows = Rows(accounts: map<int, L.Status>, analyzed: int, failed: int, clash: bool, clipped: bool)

  /**
   The balance, what other activity added to it, the failures that finalizations have read and not
   refunded yet, how many were refunded by finalizations, and the retries paid for and refunded.
  */
  datatype Money = Money(balance: int, outside: int, tallies: map<int, int>, tallied: int, payments: int, refunds: int)

  datatype State = State(rows: Rows, retries: map<int, Retry>, runs: map<int, Dispatch>, money: Money)

  datatype Event =
    | FirstBegin(run: int, account: int)
    | FirstEnd(run: int, ok: bool)
    | Tally(final: int)
    | CloseRefund(final: int)
    | RetryCheck(retry: int, account: int)
    | RetryPay(retry: int)
    | RetryReject(retry: int)
    | RetryReset(retry: int)
    | RetryStart(retry: int)
    | RetryRun(run: int, retry: int)
    | RetrySucceed(run: int)
    | RetryRefund(run: int)
    | RetryFail(run: int)
    | OtherActivity(cents: int)

  predicate IsCompleted(status: L.Status) { status.Completed? }
  predicate IsFailed(status: L.Status) { status.Failed? }
  predicate Finished(status: L.Status) { status.Completed? || status.Failed? }

  /** Paid for, and its task has neither succeeded nor been refunded. */
  predicate Outstanding(r: Retry) { r.stage.Paid? || r.stage.WasReset? || r.stage.Started? }

  predicate RetryAt(s: State, retry: int, stage: RetryStage) {
    retry in s.retries && s.retries[retry].stage == stage && s.retries[retry].account in s.rows.accounts
  }

  /** The task of the retry has been enqueued. */
  predicate Tasked(s: State, retry: int) {
    RetryAt(s, retry, Started) || RetryAt(s, retry, Settled)
  }

  predicate AnalysisAt(s: State, run: int) {
    run in s.runs && s.runs[run].Analysis? && s.runs[run].account in s.rows.accounts
  }

  predicate RetryTaskAt(s: State, run: int, refunded: bool) {
    run in s.runs && s.runs[run].RetryTask? && s.runs[run].refunded == refunded && Tasked(s, s.runs[run].retry)
  }

  predicate Enabled(s: State, e: Event) {
    match e
    case FirstBegin(d, a) => d !in s.runs && a in s.rows.accounts
    case FirstEnd(d, _) => AnalysisAt(s, d)
    case Tally(f) => f !in s.money.tallies
    case CloseRefund(f) => f in s.money.tallies
    case RetryCheck(r, a) => r !in s.retries && a in s.rows.accounts && s.rows.accounts[a].Failed?
    case RetryPay(r) => RetryAt(s, r, Checked) && s.money.balance >= CREDIT
    case RetryReject(r) => RetryAt(s, r, Checked)
    case RetryReset(r) => RetryAt(s, r, Paid)
    case RetryStart(r) => RetryAt(s, r, WasReset)
    case RetryRun(d, r) => d !in s.runs && Tasked(s, r)
    case RetrySucceed(d) => RetryTaskAt(s, d, false)
    case RetryRefund(d) => RetryTaskAt(s, d, false)
    case RetryFail(d) => RetryTaskAt(s, d, true)
    case OtherActivity(cents) => s.money.balance + cents >= 0
  }

  /** What a step does to an account row. */
  datatype Write = NoWrite | Update(account: int, status: L.Status) | Reset(account: int)

  function WriteOf(s: State, e: Event): (w: Write)
    requires Enabled(s, e)
    ensures !w.NoWrite? ==> w.account in s.rows.accounts
  {
    match e
    case FirstBegin(_, a) => Update(a, L.Processing)
    case FirstEnd(d, ok) => Update(s.runs[d].account, if ok then L.Completed else L.Failed)
    case RetryReset(r) => Reset(s.retries[r].account)
    case RetryStart(r) => Update(s.retries[r].account, L.Processing)
    case RetrySucceed(d) => Update(s.retries[s.runs[d].retry].account, L.Completed)
    case RetryFail(d) => Update(s.retries[s.runs[d].retry].account, L.Failed)
    case _ => NoWrite
  }

  function RowsAfter(rows: Rows, w: Write): Rows
    requires !w.NoWrite? ==> w.account in rows.accounts
  {
    match w
    case NoWrite => rows
    case Update(a, status) =>
      Rows(rows.accounts[a := status],
           rows.analyzed + (if status.Completed? then 1 else 0),
           rows.failed + (if status.Failed? then 1 else 0),
           rows.clash || Finished(rows.accounts[a]),
           rows.clipped)
    case Reset(a) =>
      Rows(rows.accounts[a := L.Pending], rows.analyzed, Max(rows.failed - 1, 0),
           rows.clash || !rows.accounts[a].Failed?,
           rows.clipped || rows.failed - 1 < 0)
  }

  function WithStage(retries: map<int, Retry>, r: int, stage: RetryStage): map<int, Retry>
    requires r in retries
  {
    retries[r := retries[r].(stage := stage)]
  }

  function RetriesAfter(s: State, e: Event): map<int, Retry>
    requires Enabled(s, e)
  {
    match e
    case RetryCheck(r, a) => s.retries[r := Retry(a, Checked)]
    case RetryPay(r) => WithStage(s.retries, r, Paid)
    case RetryReject(r) => WithStage(s.retries, r, Rejected)
    case RetryReset(r) => WithStage(s.retries, r, WasReset)
    case RetryStart(r) => WithStage(s.retries, r, Started)
    case RetrySucceed(d) => WithStage(s.retries, s.runs[d].retry, Settled)
    case RetryRefund(d) => WithStage(s.retries, s.runs[d].retry, Settled)
    case _ => s.retries
  }

  function Without<T>(rows: map<int, T>, d: int): map<int, T> {
    map f | f in rows && f != d :: rows[f]
  }

  function RunsAfter(s: State, e: Event): map<int, Dispatch>
    requires Enabled(s, e)
  {
    match e
    case FirstBegin(d, a) => s.runs[d := Analysis(a)]
    case FirstEnd(d, _) => Without(s.runs, d)
    case RetryRun(d, r) => s.runs[d := RetryTask(r, false)]
    case RetryRefund(d) => s.runs[d := RetryTask(s.runs[d].retry, true)]
    case RetrySucceed(d) => Without(s.runs, d)
    case RetryFail(d) => Without(s.runs, d)
    case _ => s.runs
  }

  function MoneyAfter(s: State, e: Event): Money
    requires Enabled(s, e)
  {
    var m := s.money;
    match e
    case Tally(f) => m.(tallies := m.tallies[f := s.rows.failed])
    case CloseRefund(f) =>
      m.(balance := m.balance + m.tallies[f] * CREDIT, tallies := Without(m.tallies, f),
         tallied := m.tallied + m.tallies[f])
    case RetryPay(_) => m.(balance := m.balance - CREDIT, payments := m.payments + 1)
    case RetryRefund(_) => m.(balance := m.balance + CREDIT, refunds := m.refunds + 1)
    case OtherActivity(cents) => m.(balance := m.balance + cents, outside := m.outside + cents)
    case _ => m
  }

  function Step(s: State, e: Event): State {
    if Enabled(s, e)
    then State(RowsAfter(s.rows, WriteOf(s, e)), RetriesAfter(s, e), RunsAfter(s, e), MoneyAfter(s, e))
    else s
  }

  function Run(s: State, es: seq<Event>): State
    decreases |es|
  {
    if es == [] then s else Run(Step(s, es[0]), es[1..])
  }

  /** Credits for every account just reserved, nothing analyzed yet. */
  ghost predicate Start(s: State, before: int) {
    && (forall a :: a in s.rows.accounts ==> s.rows.accounts[a].Pending?)
    && s.rows == Rows(s.rows.accounts, 0, 0, false, false)
    && s.retries == map[] && s.runs == map[]
    && before - |s.rows.accounts| * CREDIT >= 0
    && s.money == Money(before - |s.rows.accounts| * CREDIT, 0, map[], 0, 0, 0)
  }

  // ---- the tables behind the state --------------------------------------------

  const LIST := 1

  function AccountRows(rows: Rows): L.Accounts {
    map a | a in rows.accounts :: L.Account(LIST, rows.accounts[a])
  }

  function ListRows(rows: Rows): L.Lists {
    map[LIST := L.List(|rows.accounts|, rows.analyzed, rows.failed, L.ListStatus.Analyzing)]
  }

  /** The database call of a step on an account row. */
  function TableStep(s: State, e: Event): (L.Accounts, L.Lists)
    requires Enabled(s, e)
  {
    var (accounts, lists) := (AccountRows(s.rows), ListRows(s.rows));
    match e
    case FirstBegin(_, a) => L.AfterUpdate(accounts, lists, a, L.Processing)
    case FirstEnd(d, ok) => L.AfterUpdate(accounts, lists, s.runs[d].account, if ok then L.Completed else L.Failed)
    case RetryReset(r) => L.AfterReset(accounts, lists, s.retries[r].account)
    case RetryStart(r) => L.AfterUpdate(accounts, lists, s.retries[r].account, L.Processing)
    case RetrySucceed(d) => L.AfterUpdate(accounts, lists, s.retries[s.runs[d].retry].account, L.Completed)
    case RetryFail(d) => L.AfterUpdate(accounts, lists, s.retries[s.runs[d].retry].account, L.Failed)
    case _ => (accounts, lists)
  }

  lemma SameSize(accounts: map<int, L.Status>, a: int, status: L.Status)
    requires a in accounts
    ensures |accounts[a := status]| == |accounts|
  {
    assert accounts[a := status].Keys == accounts.Keys;
    assert |accounts.Keys| == |accounts| && |accounts[a := status].Keys| == |accounts[a := status]|;
  }

  lemma UpdateFollows(rows: Rows, a: int, status: L.Status)
    requires a in rows.accounts
    ensures (AccountRows(RowsAfter(rows, Update(a, status))), ListRows(RowsAfter(rows, Update(a, status))))
         == L.AfterUpdate(AccountRows(rows), ListRows(rows), a, status)
  {
    var after := L.AfterUpdate(AccountRows(rows), ListRows(rows), a, status);
    SameSize(rows.accounts, a, status);
    assert AccountRows(RowsAfter(rows, Update(a, status))) == after.0;
    assert ListRows(RowsAfter(rows, Update(a, status))) == after.1;
  }

  lemma ResetFollows(rows: Rows, a: int)
    requires a in rows.accounts
    ensures (AccountRows(RowsAfter(rows, Reset(a))), ListRows(RowsAfter(rows, Reset(a))))
         == L.AfterReset(AccountRows(rows), ListRows(rows), a)
  {
    var after := L.AfterReset(AccountRows(rows), ListRows(rows), a);
    SameSize(rows.accounts, a, L.Pending);
    assert AccountRows(RowsAfter(rows, Reset(a))) == after.0;
    assert ListRows(RowsAfter(rows, Reset(a))) == after.1;
  }

  /** The protocol changes the rows of the list exactly as the table functions do. */
  lemma StepFollowsTables(s: State, e: Event)
    requires Enabled(s, e)
    ensures (AccountRows(Step(s, e).rows), ListRows(Step(s, e).rows)) == TableStep(s, e)
  {
    match WriteOf(s, e)
    case NoWrite =>
    case Update(a, status) => UpdateFollows(s.rows, a, status);
    case Reset(a) => ResetFollows(s.rows, a);
  }

  // ---- the counters -----------------------------------------------------------

  /** The counters are the actual numbers of completed and failed accounts, and GREATEST has never clipped. */
  ghost predicate Agrees(rows: Rows) {
    && rows.analyzed == Count(rows.accounts, IsCompleted)
    && rows.failed == Count(rows.accounts, IsFailed)
    && !rows.clipped
  }

  /** A write leaves counters that agreed in agreement unless it clashes, and never if it does. */
  lemma WriteAgrees(rows: Rows, w: Write)
    requires Agrees(rows) && !rows.clash && (!w.NoWrite? ==> w.account in rows.accounts)
    ensures Agrees(RowsAfter(rows, w)) <==> !RowsAfter(rows, w).clash
  {
    if !w.NoWrite? {
      var status := RowsAfter(rows, w).accounts[w.account];
      CountUpdate(rows.accounts, IsCompleted, w.account, status);
      CountUpdate(rows.accounts, IsFailed, w.account, status);
      CountNone(rows.accounts, IsFailed);
    }
  }

  /** The counters agree with the rows in every state of the run. */
  ghost predicate AgreesThroughout(s: State, es: seq<Event>)
    decreases |es|
  {
    Agrees(s.rows) && (es == [] || AgreesThroughout(Step(s, es[0]), es[1..]))
  }

  lemma StepKeepsAgreement(s: State, e: Event)
    requires Agrees(s.rows) && !s.rows.clash
    ensures Agrees(Step(s, e).rows) <==> !Step(s, e).rows.clash
  {
    if Enabled(s, e) {
      WriteAgrees(s.rows, WriteOf(s, e));
    }
  }

  lemma {:induction false} ClashStays(s: State, es: seq<Event>)
    requires s.rows.clash
    ensures Run(s, es).rows.clash
    decreases |es|
  {
    if es != [] {
      ClashStays(Step(s, es[0]), es[1..]);
    }
  }

  lemma {:induction false} AgreesUntilClash(s: State, es: seq<Event>)
    requires Agrees(s.rows) && !s.rows.clash
    ensures AgreesThroughout(s, es) <==> !Run(s, es).rows.clash
    ensures !Run(s, es).rows.clash ==> Agrees(Run(s, es).rows)
    decreases |es|
  {
    if es != [] {
      var s' := Step(s, es[0]);
      StepKeepsAgreement(s, es[0]);
      if s'.rows.clash {
        ClashStays(s', es[1..]);
      } else {
        AgreesUntilClash(s', es[1..]);
      }
    }
  }

  lemma StartAgrees(s: State, before: int)
    requires Start(s, before)
    ensures Agrees(s.rows) && Count(s.rows.accounts, IsCompleted) == 0 && Count(s.retries, Outstanding) == 0
  {
    CountNone(s.rows.accounts, IsCompleted);
    CountNone(s.rows.accounts, IsFailed);
    CountNone(s.retries, Outstanding);
  }

  /**
   The list's counters equal the actual numbers of completed and failed accounts throughout a
   run, and GREATEST never clips, if and only if no update finds its account finished and every
   reset finds its account failed.
  */
  lemma CountersAgreeExactly(start: State, before: int, es: seq<Event>)
    requires Start(start, before)
    ensures AgreesThroughout(start, es) <==> !Run(start, es).rows.clash
  {
    StartAgrees(start, before);
    AgreesUntilClash(start, es);
  }

  /** Then the status that finalize_list would set says whether all, some or none of the accounts failed. */
  lemma CountersAgree(start: State, before: int, es: seq<Event>)
    requires Start(start, before) && !Run(start, es).rows.clash
    ensures var rows := Run(start, es).rows;
            var final := L.FinalStatus(|rows.accounts|, rows.failed);
            && Agrees(rows)
            && (final == L.ListFailed <==> forall a | a in rows.accounts :: IsFailed(rows.accounts[a]))
            && (final == L.ListCompleted <==>
                  rows.accounts != map[] && forall a | a in rows.accounts :: !IsFailed(rows.accounts[a]))
            && (final == L.ListPartialFailure <==>
                  && (exists a :: a in rows.accounts && IsFailed(rows.accounts[a]))
                  && (exists a :: a in rows.accounts && !IsFailed(rows.accounts[a])))
  {
    StartAgrees(start, before);
    AgreesUntilClash(start, es);
    var accounts := Run(start, es).rows.accounts;
    CountAll(accounts, IsFailed);
    CountNone(accounts, IsFailed);
  }

  // ---- what every step keeps --------------------------------------------------

  ghost predicate FundsInv(s: State, before: int, accounts: nat) {
    var m := s.money;
    && |s.rows.accounts| == accounts
    && m.balance >= 0 && s.rows.failed >= 0 && (forall f :: f in m.tallies ==> m.tallies[f] >= 0)
    && m.balance == before + m.outside - (accounts + m.payments - m.refunds - m.tallied) * CREDIT
  }

  lemma SizeKept(s: State, e: Event)
    ensures |Step(s, e).rows.accounts| == |s.rows.accounts|
    ensures s.rows.failed >= 0 ==> Step(s, e).rows.failed >= 0
  {
    if Enabled(s, e) && !WriteOf(s, e).NoWrite? {
      var a := WriteOf(s, e).account;
      SameSize(s.rows.accounts, a, Step(s, e).rows.accounts[a]);
    }
  }

  lemma StepKeepsFunds(s: State, e: Event, before: int, accounts: nat)
    requires FundsInv(s, before, accounts)
    ensures FundsInv(Step(s, e), before, accounts)
  {
    SizeKept(s, e);
  }

  /** Until somebody pays for a retry no task of one is enqueued, and nothing is refunded. */
  ghost predicate UnpaidInv(s: State) {
    && s.money.payments >= 0
    && (s.money.payments == 0 ==>
          && s.money.refunds == 0
          && forall r :: r in s.retries ==> s.retries[r].stage.Checked? || s.retries[r].stage.Rejected?)
  }

  lemma StepKeepsUnpaid(s: State, e: Event)
    requires UnpaidInv(s)
    ensures UnpaidInv(Step(s, e))
  {
  }

  lemma {:induction false} RunKeepsFunds(s: State, es: seq<Event>, before: int, accounts: nat)
    requires FundsInv(s, before, accounts) && UnpaidInv(s)
    ensures FundsInv(Run(s, es), before, accounts) && UnpaidInv(Run(s, es))
    decreases |es|
  {
    if es != [] {
      StepKeepsFunds(s, es[0], before, accounts);
      StepKeepsUnpaid(s, es[0]);
      RunKeepsFunds(Step(s, es[0]), es[1..], before, accounts);
    }
  }

  // ---- nobody is ever stuck ---------------------------------------------------

  ghost predicate LinksInv(s: State) {
    && (forall r :: r in s.retries ==> s.retries[r].account in s.rows.accounts)
    && (forall d :: d in s.runs ==> RunLinked(s, s.runs[d]))
  }

  ghost predicate RunLinked(s: State, run: Dispatch) {
    match run
    case Analysis(account) => account in s.rows.accounts
    case RetryTask(retry, _) => Tasked(s, retry)
  }

  lemma AccountsKept(s: State, e: Event)
    ensures Step(s, e).rows.accounts.Keys == s.rows.accounts.Keys
  {
  }

  /** The task of a retry stays enqueued. */
  lemma TaskStays(s: State, e: Event, r: int)
    requires Tasked(s, r)
    ensures Tasked(Step(s, e), r)
  {
    AccountsKept(s, e);
  }

  lemma StepKeepsLinks(s: State, e: Event)
    requires LinksInv(s)
    ensures LinksInv(Step(s, e))
  {
    AccountsKept(s, e);
    forall d | d in Step(s, e).runs
      ensures RunLinked(Step(s, e), Step(s, e).runs[d])
    {
      var run := Step(s, e).runs[d];
      if run.RetryTask? {
        TaskStays(s, e, run.retry);
      }
    }
  }

  lemma {:induction false} RunKeepsLinks(s: State, es: seq<Event>)
    requires LinksInv(s)
    ensures LinksInv(Run(s, es))
    decreases |es|
  {
    if es != [] {
      StepKeepsLinks(s, es[0]);
      RunKeepsLinks(Step(s, es[0]), es[1..]);
    }
  }

  /** The next step of a retry request, which pays if the balance suffices; the last one runs its task. */
  function NextOfRetry(s: State, r: int, run: int): Event
    requires r in s.retries
  {
    match s.retries[r].stage
    case Checked => if s.money.balance >= 100 then RetryPay(r) else RetryReject(r)
    case Paid => RetryReset(r)
    case WasReset => RetryStart(r)
    case _ => RetryRun(run, r)
  }

  /** The next step of a worker, by how its task goes. */
  function NextOfRun(s: State, d: int, ok: bool): Event
    requires d in s.runs
  {
    match s.runs[d]
    case Analysis(_) => FirstEnd(d, ok)
    case RetryTask(_, refunded) => if refunded then RetryFail(d) else if ok then RetrySucceed(d) else RetryRefund(d)
  }

  /** In every run each request and each worker can take its next step, and new ones can begin. */
  lemma NobodyStuck(start: State, before: int, es: seq<Event>, r: int, d: int, ok: bool)
    requires Start(start, before)
    ensures var s := Run(start, es);
            && (d in s.runs ==> Enabled(s, NextOfRun(s, d, ok)))
            && (d !in s.runs ==> forall a :: a in s.rows.accounts ==> Enabled(s, FirstBegin(d, a)))
            && (r in s.retries && !s.retries[r].stage.Rejected? && d !in s.runs ==> Enabled(s, NextOfRetry(s, r, d)))
            && (r !in s.retries ==>
                  forall a :: a in s.rows.accounts && s.rows.accounts[a].Failed? ==> Enabled(s, RetryCheck(r, a)))
            && (forall f :: f in s.money.tallies ==> Enabled(s, CloseRefund(f)))
            && (forall f :: f !in s.money.tallies ==> Enabled(s, Tally(f)))
  {
    RunKeepsLinks(start, es);
    RunMoves(Run(start, es), d, ok);
    RetryMoves(Run(start, es), r, d);
  }

  lemma RunMoves(s: State, d: int, ok: bool)
    requires LinksInv(s)
    ensures d in s.runs ==> Enabled(s, NextOfRun(s, d, ok))
  {
    if d in s.runs {
      assert RunLinked(s, s.runs[d]);
    }
  }

  lemma RetryMoves(s: State, r: int, d: int)
    requires LinksInv(s)
    ensures r in s.retries && !s.retries[r].stage.Rejected? && d !in s.runs ==> Enabled(s, NextOfRetry(s, r, d))
  {
  }

  /** Some state of the run has the account failed. */
  predicate EverFailed(s: State, es: seq<Event>, account: int)
    decreases |es|
  {
    (account in s.rows.accounts && s.rows.accounts[account].Failed?)
    || (es != [] && EverFailed(Step(s, es[0]), es[1..], account))
  }

  /** Only accounts that failed at some time are ever retried. */
  lemma {:induction false} RetriedHadFailed(s: State, es: seq<Event>, r: int)
    requires r !in s.retries && r in Run(s, es).retries
    ensures EverFailed(s, es, Run(s, es).retries[r].account)
    decreases |es|
  {
    if es != [] {
      var s' := Step(s, es[0]);
      if r in s'.retries {
        SameAccount(s', es[1..], r);
      } else {
        RetriedHadFailed(s', es[1..], r);
      }
    }
  }

  lemma {:induction false} SameAccount(s: State, es: seq<Event>, r: int)
    requires r in s.retries
    ensures r in Run(s, es).retries && Run(s, es).retries[r].account == s.retries[r].account
    decreases |es|
  {
    if es != [] {
      SameAccount(Step(s, es[0]), es[1..], r);
    }
  }

  // ---- what a list costs ------------------------------------------------------

  /** A step writes over an account that was completed. */
  predicate Overwrites(s: State, e: Event) {
    Enabled(s, e) && var w := WriteOf(s, e); !w.NoWrite? && s.rows.accounts[w.account].Completed?
  }

  /** A run of a first analysis completes its account. */
  predicate Analyzes(s: State, e: Event) {
    Enabled(s, e) && e.FirstEnd? && e.ok
  }

  /** A run of a retry task succeeds, or is refunded, after one of that task had done so. */
  predicate SettlesAgain(s: State, e: Event) {
    Enabled(s, e) && (e.RetrySucceed? || e.RetryRefund?) && s.retries[s.runs[e.run].retry].stage.Settled?
  }

  function Overwritten(s: State, es: seq<Event>): nat
    decreases |es|
  {
    if es == [] then 0
    else (if Overwrites(s, es[0]) then 1 else 0) + Overwritten(Step(s, es[0]), es[1..])
  }

  function Analyzed(s: State, es: seq<Event>): nat
    decreases |es|
  {
    if es == [] then 0
    else (if Analyzes(s, es[0]) then 1 else 0) + Analyzed(Step(s, es[0]), es[1..])
  }

  function SettledAgain(s: State, es: seq<Event>): nat
    decreases |es|
  {
    if es == [] then 0
    else (if SettlesAgain(s, es[0]) then 1 else 0) + SettledAgain(Step(s, es[0]), es[1..])
  }

  /** Reserved and paid for, and neither refunded to a retry, nor with one under way, nor a completed account. */
  function Excess(s: State): int {
    |s.rows.accounts| + s.money.payments - s.money.refunds
    - Count(s.retries, Outstanding) - Count(s.rows.accounts, IsCompleted)
  }

  lemma CompletedCount(s: State, e: Event)
    ensures Count(Step(s, e).rows.accounts, IsCompleted)
         == Count(s.rows.accounts, IsCompleted) - (if Overwrites(s, e) then 1 else 0)
            + if Enabled(s, e) && (Analyzes(s, e) || e.RetrySucceed?) then 1 else 0
  {
    if Enabled(s, e) && !WriteOf(s, e).NoWrite? {
      var a := WriteOf(s, e).account;
      CountUpdate(s.rows.accounts, IsCompleted, a, Step(s, e).rows.accounts[a]);
    }
  }

  /** Paying makes a retry outstanding; its first result or refund settles it. */
  lemma OutstandingCount(s: State, e: Event)
    requires Enabled(s, e)
    ensures Count(Step(s, e).retries, Outstanding)
         == Count(s.retries, Outstanding) + (if e.RetryPay? then 1 else 0)
            - if (e.RetrySucceed? || e.RetryRefund?) && !SettlesAgain(s, e) then 1 else 0
  {
    match e
    case RetryCheck(r, a) => CountInsert(s.retries, Outstanding, r, Retry(a, Checked));
    case RetryPay(r) => CountUpdate(s.retries, Outstanding, r, Step(s, e).retries[r]);
    case RetryReject(r) => CountUpdate(s.retries, Outstanding, r, Step(s, e).retries[r]);
    case RetryReset(r) => CountUpdate(s.retries, Outstanding, r, Step(s, e).retries[r]);
    case RetryStart(r) => CountUpdate(s.retries, Outstanding, r, Step(s, e).retries[r]);
    case RetrySucceed(d) => CountUpdate(s.retries, Outstanding, s.runs[d].retry, Step(s, e).retries[s.runs[d].retry]);
    case RetryRefund(d) => CountUpdate(s.retries, Outstanding, s.runs[d].retry, Step(s, e).retries[s.runs[d].retry]);
    case _ =>
  }

  lemma PaymentsMove(s: State, e: Event)
    requires Enabled(s, e)
    ensures Step(s, e).money.payments - Step(s, e).money.refunds
         == s.money.payments - s.money.refunds + if e.RetryPay? then 1 else if e.RetryRefund? then -1 else 0
  {
  }

  lemma StepExcess(s: State, e: Event)
    ensures Excess(Step(s, e))
         == Excess(s) + (if Overwrites(s, e) then 1 else 0) - (if Analyzes(s, e) then 1 else 0)
            - (if SettlesAgain(s, e) then 1 else 0)
  {
    if Enabled(s, e) {
      SizeKept(s, e);
      CompletedCount(s, e);
      OutstandingCount(s, e);
      PaymentsMove(s, e);
    }
  }

  /**
   In every run: what is paid for and not accounted for grows by each completed account that is
   written over, and shrinks by each first analysis that completes one and by each result or
   refund of a retry that had one.
  */
  lemma {:induction false} RunExcess(s: State, es: seq<Event>)
    ensures Excess(Run(s, es)) == Excess(s) + Overwritten(s, es) - Analyzed(s, es) - SettledAgain(s, es)
    decreases |es|
  {
    if es != [] {
      StepExcess(s, es[0]);
      RunExcess(Step(s, es[0]), es[1..]);
    }
  }

  /** An update that finds a completed account clashes, and so does a reset that does. */
  lemma {:induction false} NoClashNoneOverwritten(s: State, es: seq<Event>)
    requires !Run(s, es).rows.clash
    ensures Overwritten(s, es) == 0
    decreases |es|
  {
    if es != [] {
      if Step(s, es[0]).rows.clash {
        ClashStays(Step(s, es[0]), es[1..]);
      }
      NoClashNoneOverwritten(Step(s, es[0]), es[1..]);
    }
  }

  /** The reservations that were neither used by a first analysis nor refunded by a finalization. */
  function Unused(start: State, es: seq<Event>): int {
    |start.rows.accounts| - Analyzed(start, es) - Run(start, es).money.tallied
  }

  /**
   What a list has cost, exactly, in every state of every run, tasks that run again, retries that
   overlap and lists finalized again included: 100 for each completed account, each retry under way, each reservation
   neither used nor refunded, and each time a step wrote over a completed account; less 100 for
   each result or refund of a retry that had one already.
  */
  lemma NetDebit(start: State, before: int, es: seq<Event>)
    requires Start(start, before)
    ensures var s := Run(start, es);
            && s.money.balance >= 0
            && before + s.money.outside - s.money.balance
            == CREDIT * (Count(s.rows.accounts, IsCompleted) + Count(s.retries, Outstanding)
                         + Unused(start, es) + Overwritten(start, es) - SettledAgain(start, es))
  {
    StartAgrees(start, before);
    RunKeepsFunds(start, es, before, |start.rows.accounts|);
    RunExcess(start, es);
  }

  /**
   With no retry under way, the debit is 100 per completed account if and only if the reservations
   neither used nor refunded and the completed accounts written over are together as many as the
   second results and refunds of retries. Nothing is written over while no step clashes.
  */
  lemma ConservedExactly(start: State, before: int, es: seq<Event>)
    requires Start(start, before) && Count(Run(start, es).retries, Outstanding) == 0
    ensures var s := Run(start, es);
            var owed := before + s.money.outside - CREDIT * Count(s.rows.accounts, IsCompleted);
            && (s.money.balance == owed <==> Unused(start, es) + Overwritten(start, es) == SettledAgain(start, es))
            && (s.money.balance > owed <==> Unused(start, es) + Overwritten(start, es) < SettledAgain(start, es))
            && (!s.rows.clash ==> Overwritten(start, es) == 0)
  {
    NetDebit(start, before, es);
    if !Run(start, es).rows.clash {
      NoClashNoneOverwritten(start, es);
    }
  }

  ghost predicate AllFinished(rows: Rows) {
    forall a | a in rows.accounts :: Finished(rows.accounts[a])
  }

  predicate Any(status: L.Status) { true }

  lemma FinishedDivide(accounts: map<int, L.Status>)
    requires forall a | a in accounts :: Finished(accounts[a])
    ensures |accounts| == Count(accounts, IsCompleted) + Count(accounts, IsFailed)
  {
    CountAll(accounts, Any);
    CountSplit(accounts, Any, IsCompleted, IsFailed);
  }

  /** Before anybody pays for a retry, a tally of finished accounts whose counters agree leaves nothing over. */
  lemma TallyIsExact(s: State, f: int)
    requires UnpaidInv(s) && s.money.payments == 0 && Agrees(s.rows) && AllFinished(s.rows)
    ensures s.rows.failed == Excess(s)
    ensures Enabled(s, Tally(f)) ==> Step(s, Tally(f)).money.tallies == s.money.tallies[f := Excess(s)]
  {
    FinishedDivide(s.rows.accounts);
    CountNone(s.retries, Outstanding);
  }

  /**
   Once every account of a list is finished, with no clash so far and no retry paid for, its
   failures are what a finalization has to refund. After any later run it has been charged 100
   per completed account, 100 per retry under way and 100 for each completed account written over
   since, less 100 for each first analysis that completed an account since, each second result or
   refund of a retry, and each refund of a finalization beyond those failures. So it is charged
   100 per completed account and retry under way if and only if these balance; and if just those
   failures were refunded and still no step clashed, if and only if there are none of them.
  */
  lemma CreditsConserved(start: State, before: int, es: seq<Event>, later: seq<Event>)
    requires Start(start, before)
    requires var s := Run(start, es); s.money.payments == 0 && !s.rows.clash && AllFinished(s.rows)
    ensures var (s, t) := (Run(start, es), Run(Run(start, es), later));
            var owed := before + t.money.outside
                        - CREDIT * (Count(t.rows.accounts, IsCompleted) + Count(t.retries, Outstanding));
            var (over, late, again) := (Overwritten(s, later), Analyzed(s, later), SettledAgain(s, later));
            var extra := t.money.tallied - s.rows.failed;
            && s.rows.failed == Count(s.rows.accounts, IsFailed)
            && owed - t.money.balance == CREDIT * over - CREDIT * (late + again + extra)
            && (t.money.balance == owed <==> over == late + again + extra)
            && (extra == 0 && !t.rows.clash ==> over == 0 && (t.money.balance == owed <==> late == 0 && again == 0))
  {
    var accounts := |start.rows.accounts|;
    var s := Run(start, es);
    StartAgrees(start, before);
    AgreesUntilClash(start, es);
    RunKeepsFunds(start, es, before, accounts);
    TallyIsExact(s, 0);
    RunKeepsFunds(s, later, before, accounts);
    RunExcess(s, later);
    if !Run(s, later).rows.clash {
      NoClashNoneOverwritten(s, later);
    }
  }

  // ---- where the guarantees stop ----------------------------------------------

  lemma RunOne(s: State, e: Event, es: seq<Event>)
    ensures Run(s, [e] + es) == Run(Step(s, e), es)
  {
    assert ([e] + es)[1..] == es;
  }

  lemma {:induction false} RunAppend(s: State, es: seq<Event>, es': seq<Event>)
    ensures Run(s, es + es') == Run(Run(s, es), es')
    decreases |es|
  {
    if es == [] {
      assert es + es' == es';
    } else {
      assert (es + es')[0] == es[0] && (es + es')[1..] == es[1..] + es';
      RunAppend(Step(s, es[0]), es[1..], es');
    }
  }

  /** A run, and one step more. */
  lemma Then(start: State, es: seq<Event>, s: State, e: Event, s': State) returns (longer: seq<Event>)
    requires Run(start, es) == s && Step(s, e) == s'
    ensures longer == es + [e] && Run(start, longer) == s'
  {
    longer := es + [e];
    RunAppend(start, es, [e]);
    RunOne(s, e, []);
  }

  function At(status: L.Status, analyzed: int, failed: int): Rows {
    Rows(map[1 := status], analyzed, failed, false, false)
  }

  lemma Replaced(before: L.Status, after: L.Status)
    ensures map[1 := before][1 := after] == map[1 := after]
  {
  }

  const OpenFunds := Money(900, 0, map[], 0, 0, 0)
  const ClosedFunds := Money(1000, 0, map[], 1, 0, 0)
  const SingleStart := State(At(L.Pending, 0, 0), map[], map[], OpenFunds)
  const SingleFailed := State(At(L.Failed, 0, 1), map[], map[], OpenFunds)
  const SingleClosed := State(At(L.Failed, 0, 1), map[], map[], ClosedFunds)

  lemma SingleFails() returns (es: seq<Event>)
    ensures Start(SingleStart, 1000) && Run(SingleStart, es) == SingleFailed
  {
    var s1 := State(At(L.Processing, 0, 0), map[], map[1 := Analysis(1)], OpenFunds);
    es := Then(SingleStart, [], SingleStart, FirstBegin(1, 1), s1);
    assert Step(s1, FirstEnd(1, false)).runs == map[];
    es := Then(SingleStart, es, s1, FirstEnd(1, false), SingleFailed);
  }

  /** The list is finalized and its failures refunded. */
  lemma SingleCloses(s: State, m: Money) returns (es: seq<Event>)
    requires s.money == m && m.tallies == map[]
    ensures es == [Tally(1), CloseRefund(1)]
    ensures Run(s, es)
         == s.(money := m.(balance := m.balance + s.rows.failed * CREDIT, tallied := m.tallied + s.rows.failed))
  {
    var s1 := s.(money := m.(tallies := map[1 := s.rows.failed]));
    es := Then(s, [], s, Tally(1), s1);
    assert Without(s1.money.tallies, 1) == map[];
    es := Then(s, es, s1, CloseRefund(1),
               s.(money := m.(balance := m.balance + s.rows.failed * CREDIT, tallied := m.tallied + s.rows.failed)));
  }

  lemma BothBegin() returns (es: seq<Event>)
    ensures Run(SingleStart, es) == State(Rows(map[1 := L.Completed], 1, 1, true, false), map[], map[], OpenFunds)
  {
    var both := map[1 := Analysis(1), 2 := Analysis(1)];
    var s1 := State(At(L.Processing, 0, 0), map[], map[1 := Analysis(1)], OpenFunds);
    var s2 := State(At(L.Processing, 0, 0), map[], both, OpenFunds);
    var s3 := State(At(L.Failed, 0, 1), map[], map[2 := Analysis(1)], OpenFunds);
    es := Then(SingleStart, [], SingleStart, FirstBegin(1, 1), s1);
    Replaced(L.Processing, L.Processing);
    es := Then(SingleStart, es, s1, FirstBegin(2, 1), s2);
    assert Step(s2, FirstEnd(1, false)).runs == map[2 := Analysis(1)];
    es := Then(SingleStart, es, s2, FirstEnd(1, false), s3);
    assert Step(s3, FirstEnd(2, true)).runs == map[];
    Replaced(L.Failed, L.Completed);
    es := Then(SingleStart, es, s3, FirstEnd(2, true),
               State(Rows(map[1 := L.Completed], 1, 1, true, false), map[], map[], OpenFunds));
  }

  /**
   A first analysis that a stale requeue runs again while its slow worker fails: the list counts
   a failure that no account has, and gives back the credit of a completed account. Nobody retries.
  */
  lemma RerunCompletesFailed() returns (es: seq<Event>)
    ensures Start(SingleStart, 1000)
    ensures var s := Run(SingleStart, es);
            && s.rows.failed == 1 && Count(s.rows.accounts, IsFailed) == 0
            && Count(s.rows.accounts, IsCompleted) == 1 && s.retries == map[]
            && s.money.tallied == 1 && s.money.balance == 1000
  {
    es := BothBegin();
    var s := Run(SingleStart, es);
    var close := SingleCloses(s, OpenFunds);
    RunAppend(SingleStart, es, close);
    es := es + close;
    CountAll(s.rows.accounts, IsCompleted);
    CountNone(s.rows.accounts, IsFailed);
  }

  function Debited(m: Money, payments: int, cents: int): Money {
    m.(balance := m.balance - cents, payments := payments)
  }

  function Two(first: RetryStage, second: RetryStage): map<int, Retry> {
    map[1 := Retry(1, first), 2 := Retry(1, second)]
  }

  /** Two requests for one failed account may both see it failed, and both may pay. */
  lemma BothPay(s: State, m: Money) returns (es: seq<Event>)
    requires s == State(At(L.Failed, 0, 1), map[], map[], m) && m.balance >= 200 && m.payments == 0
    ensures Run(s, es) == State(At(L.Failed, 0, 1), Two(Paid, Paid), map[], Debited(m, 2, 200))
  {
    var s1 := s.(retries := map[1 := Retry(1, Checked)]);
    var s2 := s.(retries := Two(Checked, Checked));
    var s3 := s.(retries := Two(Paid, Checked), money := Debited(m, 1, 100));
    es := Then(s, [], s, RetryCheck(1, 1), s1);
    es := Then(s, es, s1, RetryCheck(2, 1), s2);
    es := Then(s, es, s2, RetryPay(1), s3);
    es := Then(s, es, s3, RetryPay(2), State(At(L.Failed, 0, 1), Two(Paid, Paid), map[], Debited(m, 2, 200)));
  }

  /** Overlapping retries of one account clip the counter: the second reset finds it pending. */
  lemma OverlappingRetriesClip() returns (es: seq<Event>)
    ensures Start(SingleStart, 1000)
    ensures var rows := Run(SingleStart, es).rows; rows.clash && rows.clipped && rows.failed == 0
  {
    es := SingleFails();
    var pays := BothPay(SingleFailed, OpenFunds);
    RunAppend(SingleStart, es, pays);
    es := es + pays;
    var s := State(At(L.Failed, 0, 1), Two(Paid, Paid), map[], Debited(OpenFunds, 2, 200));
    var s1 := s.(rows := At(L.Pending, 0, 0), retries := Two(WasReset, Paid));
    Replaced(L.Failed, L.Pending);
    es := Then(SingleStart, es, s, RetryReset(1), s1);
    es := Then(SingleStart, es, s1, RetryReset(2), Step(s1, RetryReset(2)));
  }

  const Owing := map[1 := Retry(1, Started)]

  /** One retry, up to the enqueuing of its task. */
  lemma RetryIsStarted(s: State, m: Money) returns (es: seq<Event>)
    requires s == State(At(L.Failed, 0, 1), map[], map[], m) && m.balance >= 100 && m.payments == 0
    ensures Run(s, es) == State(At(L.Processing, 0, 0), Owing, map[], Debited(m, 1, 100))
  {
    var s1 := s.(retries := map[1 := Retry(1, Checked)]);
    var s2 := s.(retries := map[1 := Retry(1, Paid)], money := Debited(m, 1, 100));
    es := Then(s, [], s, RetryCheck(1, 1), s1);
    es := Then(s, es, s1, RetryPay(1), s2);
    var more := PaidIsStarted(s2, Debited(m, 1, 100));
    RunAppend(s, es, more);
    es := es + more;
  }

  lemma PaidIsStarted(s: State, m: Money) returns (es: seq<Event>)
    requires s == State(At(L.Failed, 0, 1), map[1 := Retry(1, Paid)], map[], m)
    ensures Run(s, es) == State(At(L.Processing, 0, 0), Owing, map[], m)
  {
    var s1 := State(At(L.Pending, 0, 0), map[1 := Retry(1, WasReset)], map[], m);
    Replaced(L.Failed, L.Pending);
    es := Then(s, [], s, RetryReset(1), s1);
    Replaced(L.Pending, L.Processing);
    es := Then(s, es, s1, RetryStart(1), State(At(L.Processing, 0, 0), Owing, map[], m));
  }

  lemma RetrySucceeds(s: State, m: Money) returns (es: seq<Event>)
    requires s == State(At(L.Processing, 0, 0), Owing, map[], m)
    ensures Run(s, es) == State(At(L.Completed, 1, 0), map[1 := Retry(1, Settled)], map[], m)
  {
    var s1 := s.(runs := map[1 := RetryTask(1, false)]);
    es := Then(s, [], s, RetryRun(1, 1), s1);
    Replaced(L.Processing, L.Completed);
    assert Step(s1, RetrySucceed(1)).runs == map[];
    es := Then(s, es, s1, RetrySucceed(1), State(At(L.Completed, 1, 0), map[1 := Retry(1, Settled)], map[], m));
  }

  /** A retry that succeeds before the finalization is paid for twice: 200 for one completed account. */
  lemma EarlyRetryOvercharges() returns (es: seq<Event>)
    ensures Start(SingleStart, 1000)
    ensures |es| > 2 && es[|es| - 2..] == [Tally(1), CloseRefund(1)]
    ensures var s := Run(SingleStart, es);
            && !s.rows.clash && Count(s.retries, Outstanding) == 0
            && Count(s.rows.accounts, IsCompleted) == 1 && s.money.balance == 1000 - 2 * CREDIT
  {
    var m := Debited(OpenFunds, 1, 100);
    var settled := map[1 := Retry(1, Settled)];
    es := SingleFails();
    var retry := RetryIsStarted(SingleFailed, OpenFunds);
    RunAppend(SingleStart, es, retry);
    es := es + retry;
    retry := RetrySucceeds(State(At(L.Processing, 0, 0), Owing, map[], m), m);
    RunAppend(SingleStart, es, retry);
    es := es + retry;
    var s := State(At(L.Completed, 1, 0), settled, map[], m);
    var close := SingleCloses(s, m);
    RunAppend(SingleStart, es, close);
    es := es + close;
    CountNone(settled, Outstanding);
    CountAll(s.rows.accounts, IsCompleted);
  }

  // ---- after a finalization that was exact ------------------------------------

  /** SingleFailed meets the premises of CreditsConserved; its finalization refunds just its one failure. */
  lemma LateCloses() returns (later: seq<Event>)
    ensures SingleFailed.money.payments == 0 && !SingleFailed.rows.clash && AllFinished(SingleFailed.rows)
    ensures Run(SingleFailed, later) == SingleClosed
  {
    later := SingleCloses(SingleFailed, OpenFunds);
  }

  lemma LateFirstStarts(s: State, m: Money) returns (es: seq<Event>)
    requires s == State(At(L.Failed, 0, 1), Two(Paid, Paid), map[], m)
    ensures Run(s, es) == State(At(L.Processing, 0, 0), Two(Started, Paid), map[], m)
  {
    var s1 := State(At(L.Pending, 0, 0), Two(WasReset, Paid), map[], m);
    Replaced(L.Failed, L.Pending);
    es := Then(s, [], s, RetryReset(1), s1);
    Replaced(L.Pending, L.Processing);
    es := Then(s, es, s1, RetryStart(1), State(At(L.Processing, 0, 0), Two(Started, Paid), map[], m));
  }

  /** The first of two paid retries succeeds. */
  lemma LateFirst(s: State, m: Money) returns (es: seq<Event>)
    requires s == State(At(L.Processing, 0, 0), Two(Started, Paid), map[], m)
    ensures Run(s, es) == State(At(L.Completed, 1, 0), Two(Settled, Paid), map[], m)
  {
    var s1 := s.(runs := map[1 := RetryTask(1, false)]);
    es := Then(s, [], s, RetryRun(1, 1), s1);
    Replaced(L.Processing, L.Completed);
    assert Step(s1, RetrySucceed(1)).runs == map[];
    es := Then(s, es, s1, RetrySucceed(1), State(At(L.Completed, 1, 0), Two(Settled, Paid), map[], m));
  }

  function Clashed(status: L.Status, analyzed: int): Rows {
    Rows(map[1 := status], analyzed, 0, true, true)
  }

  /** The second one resets the completed account. */
  lemma LateSecondStarts(s: State, m: Money) returns (es: seq<Event>)
    requires s == State(At(L.Completed, 1, 0), Two(Settled, Paid), map[], m)
    ensures Run(s, es) == State(Clashed(L.Processing, 1), Two(Settled, Started), map[], m)
  {
    var s1 := State(Clashed(L.Pending, 1), Two(Settled, WasReset), map[], m);
    Replaced(L.Completed, L.Pending);
    es := Then(s, [], s, RetryReset(2), s1);
    Replaced(L.Pending, L.Processing);
    es := Then(s, es, s1, RetryStart(2), State(Clashed(L.Processing, 1), Two(Settled, Started), map[], m));
  }

  /** It completes the account again. */
  lemma LateSecond(s: State, m: Money) returns (es: seq<Event>)
    requires s == State(Clashed(L.Processing, 1), Two(Settled, Started), map[], m)
    ensures Run(s, es) == State(Clashed(L.Completed, 2), Two(Settled, Settled), map[], m)
  {
    var s1 := s.(runs := map[1 := RetryTask(2, false)]);
    es := Then(s, [], s, RetryRun(1, 2), s1);
    Replaced(L.Processing, L.Completed);
    assert Step(s1, RetrySucceed(1)).runs == map[];
    es := Then(s, es, s1, RetrySucceed(1), State(Clashed(L.Completed, 2), Two(Settled, Settled), map[], m));
  }

  lemma LateRetries(m: Money, s: State) returns (es: seq<Event>)
    requires s == State(At(L.Failed, 0, 1), Two(Paid, Paid), map[], m)
    ensures Run(s, es) == State(Clashed(L.Completed, 2), Two(Settled, Settled), map[], m)
  {
    es := LateFirstStarts(s, m);
    var more := LateFirst(Run(s, es), m);
    RunAppend(s, es, more);
    es := es + more;
    more := LateSecondStarts(Run(s, es), m);
    RunAppend(s, es, more);
    es := es + more;
    more := LateSecond(Run(s, es), m);
    RunAppend(s, es, more);
    es := es + more;
  }

  /**
   Two retries of one account that overlap after the finalization, which counted and refunded
   its failure: both are paid for and both succeed, 200 for one completed account.
  */
  lemma LateRetriesOvercharge() returns (es: seq<Event>, later: seq<Event>)
    ensures Start(SingleStart, 1000) && Run(SingleStart, es) == SingleFailed
    ensures var s := Run(SingleFailed, later);
            && s.money.tallied == 1 && Count(s.retries, Outstanding) == 0
            && Count(s.rows.accounts, IsCompleted) == 1 && s.money.balance == 1000 - 2 * CREDIT
  {
    var m := Debited(ClosedFunds, 2, 200);
    es := SingleFails();
    later := LateCloses();
    var more := BothPay(SingleClosed, ClosedFunds);
    RunAppend(SingleFailed, later, more);
    later := later + more;
    more := LateRetries(m, State(At(L.Failed, 0, 1), Two(Paid, Paid), map[], m));
    RunAppend(SingleFailed, later, more);
    later := later + more;
    CountNone(Two(Settled, Settled), Outstanding);
    CountAll(Clashed(L.Completed, 2).accounts, IsCompleted);
  }

  lemma BothRun(s: State, run: Dispatch) returns (es: seq<Event>)
    requires s.rows == At(L.Processing, 0, 0) && s.retries == Owing && s.runs == map[] && run == RetryTask(1, false)
    ensures Run(s, es) == s.(runs := map[1 := run, 2 := run])
  {
    es := Then(s, [], s, RetryRun(1, 1), s.(runs := map[1 := run]));
    es := Then(s, es, s.(runs := map[1 := run]), RetryRun(2, 1), s.(runs := map[1 := run, 2 := run]));
  }

  lemma BothRefund(s: State, m: Money) returns (es: seq<Event>)
    requires s == State(At(L.Processing, 0, 0), Owing, map[], m)
    ensures Run(s, es)
         == State(At(L.Processing, 0, 0), map[1 := Retry(1, Settled)],
                  map[1 := RetryTask(1, true), 2 := RetryTask(1, true)],
                  m.(balance := m.balance + 200, refunds := m.refunds + 2))
  {
    var (run, refunded) := (RetryTask(1, false), RetryTask(1, true));
    var s2 := s.(runs := map[1 := run, 2 := run]);
    var s3 := State(s.rows, map[1 := Retry(1, Settled)], map[1 := refunded, 2 := run],
                    m.(balance := m.balance + 100, refunds := m.refunds + 1));
    es := BothRun(s, run);
    es := Then(s, es, s2, RetryRefund(1), s3);
    assert map[1 := Retry(1, Settled)][1 := Retry(1, Settled)] == map[1 := Retry(1, Settled)];
    es := Then(s, es, s3, RetryRefund(2), State(s.rows, s3.retries, map[1 := refunded, 2 := refunded],
                                                m.(balance := m.balance + 200, refunds := m.refunds + 2)));
  }

  /** A retry task that a stale requeue runs again is refunded twice: the list has given back more than it took. */
  lemma RetryRefundedTwice() returns (es: seq<Event>, later: seq<Event>)
    ensures Start(SingleStart, 1000) && Run(SingleStart, es) == SingleFailed
    ensures var s := Run(SingleFailed, later);
            && !s.rows.clash && s.money.tallied == 1 && s.money.payments == 1 && s.money.refunds == 2
            && s.money.balance == 1000 + CREDIT
  {
    var m := Debited(ClosedFunds, 1, 100);
    es := SingleFails();
    later := LateCloses();
    var more := RetryIsStarted(SingleClosed, ClosedFunds);
    RunAppend(SingleFailed, later, more);
    later := later + more;
    more := BothRefund(State(At(L.Processing, 0, 0), Owing, map[], m), m);
    RunAppend(SingleFailed, later, more);
    later := later + more;
  }
}
