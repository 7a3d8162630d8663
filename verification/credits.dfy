/** The organizations' credit pools, in cents (db/users.py, db/jobs.py), and Stripe top-ups. */
module Credits {
  import opened Common

  const CENTS := 100

  type Session = string

  /** users maps a user to its organization, None where org_id is NULL. */
  datatype Pool = Pool(users: map<int, Option<int>>, orgs: map<int, int>, sessions: set<Session>)

  /** SELECT org_id FROM users WHERE id = user, when that organization exists. */
  function OrgOf(pool: Pool, user: int): Option<int> {
    if user in pool.users && pool.users[user].Some? && pool.users[user].value in pool.orgs
    then pool.users[user]
    else None
  }

  /** UPDATE organizations SET bonus_credits = bonus_credits + cents for the user's organization. */
  function Credited(pool: Pool, user: int, cents: int): Pool {
    match OrgOf(pool, user)
    case Some(org) => pool.(orgs := pool.orgs[org := pool.orgs[org] + cents])
    case None => pool
  }

  predicate CanUse(pool: Pool, user: int, cents: int) {
    OrgOf(pool, user).Some? && pool.orgs[OrgOf(pool, user).value] >= cents
  }

  function AfterUse(pool: Pool, user: int, cents: int): Pool {
    if CanUse(pool, user, cents) then Credited(pool, user, -cents) else pool
  }

  function AfterFulfill(pool: Pool, session: Session, user: int, credits: int): Pool {
    if session in pool.sessions then pool
    else Credited(pool, user, credits * CENTS).(sessions := pool.sessions + {session})
  }

  class CreditTables {
    var users: map<int, Option<int>>
    var orgs: map<int, int>
    var sessions: set<Session>

    function State(): Pool
      reads this
    {
      Pool(users, orgs, sessions)
    }

    constructor (users: map<int, Option<int>>, orgs: map<int, int>)
      ensures State() == Pool(users, orgs, {})
    {
      this.users, this.orgs, this.sessions := users, orgs, {};
    }

    /** The new total; Err stands for the exception when the user has no organization. */
    method AddCredits(user: int, credits: int) returns (total: Result<int, string>)
      modifies this
      ensures State() == Credited(old(State()), user, credits * CENTS)
      ensures total.Ok? <==> OrgOf(State(), user).Some?
      ensures total.Ok? ==> total.value == orgs[OrgOf(State(), user).value]
      ensures users == old(users) && sessions == old(sessions)
      ensures forall o :: user in users && users[user] == Some(o) && o in old(orgs) ==>
                orgs == old(orgs)[o := old(orgs)[o] + 100 * credits] && total == Ok(old(orgs)[o] + 100 * credits)
      ensures !(exists o :: user in users && users[user] == Some(o) && o in old(orgs)) ==>
                orgs == old(orgs) && total.Err?
    {
      var org := OrgOf(State(), user);
      if org.None? {
        return Err("no organization");
      }
      orgs := orgs[org.value := orgs[org.value] + credits * CENTS];
      total := Ok(orgs[org.value]);
    }

    /** use_credit and _use_credit_conn: one guarded UPDATE. */
    method UseCredit(user: int, cents: int) returns (ok: bool)
      modifies this
      ensures State() == AfterUse(old(State()), user, cents)
      ensures ok <==> CanUse(old(State()), user, cents)
      ensures users == old(users) && sessions == old(sessions)
      ensures ok <==> exists o :: user in users && users[user] == Some(o) && o in old(orgs) && old(orgs)[o] >= cents
      ensures forall o :: user in users && users[user] == Some(o) && o in old(orgs) ==>
                orgs == if old(orgs)[o] >= cents then old(orgs)[o := old(orgs)[o] - cents] else old(orgs)
      ensures !ok ==> orgs == old(orgs)
    {
      var org := OrgOf(State(), user);
      ok := org.Some? && orgs[org.value] >= cents;
      if ok {
        orgs := orgs[org.value := orgs[org.value] - cents];
      }
    }

    method RefundCredit(user: int, cents: int)
      modifies this
      ensures State() == Credited(old(State()), user, cents)
      ensures users == old(users) && sessions == old(sessions)
      ensures forall o :: user in users && users[user] == Some(o) && o in old(orgs) ==>
                orgs == old(orgs)[o := old(orgs)[o] + cents]
      ensures !(exists o :: user in users && users[user] == Some(o) && o in old(orgs)) ==> orgs == old(orgs)
    {
      var org := OrgOf(State(), user);
      if org.Some? {
        orgs := orgs[org.value := orgs[org.value] + cents];
      }
    }

    /** The insert into fulfilled_sessions fails on a second delivery, and then nothing is added. */
    method FulfillSession(session: Session, user: int, credits: int) returns (added: bool)
      modifies this
      ensures State() == AfterFulfill(old(State()), session, user, credits)
      ensures added <==> session !in old(sessions)
      ensures users == old(users) && sessions == old(sessions) + {session}
      ensures forall o :: added && user in users && users[user] == Some(o) && o in old(orgs) ==>
                orgs == old(orgs)[o := old(orgs)[o] + 100 * credits]
      ensures !(exists o :: added && user in users && users[user] == Some(o) && o in old(orgs)) ==> orgs == old(orgs)
    {
      if session in sessions {
        return false;
      }
      sessions := sessions + {session};
      var org := OrgOf(State(), user);
      if org.Some? {
        orgs := orgs[org.value := orgs[org.value] + credits * CENTS];
      }
      added := true;
    }
  }

  // ---- sums over sets of sessions ---------------------------------------------

  ghost function Total(ids: set<Session>, f: Session -> int): int
    decreases |ids|
  {
    if ids == {} then 0 else
    var x :| x in ids;
    f(x) + Total(ids - {x}, f)
  }

  lemma {:induction false} TotalSplit(ids: set<Session>, f: Session -> int, x: Session)
    requires x in ids
    ensures Total(ids, f) == f(x) + Total(ids - {x}, f)
    decreases |ids|
  {
    var y :| y in ids && Total(ids, f) == f(y) + Total(ids - {y}, f);
    if y != x {
      TotalSplit(ids - {y}, f, x);
      TotalSplit(ids - {x}, f, y);
      assert ids - {y} - {x} == ids - {x} - {y};
    }
  }

  // ---- every run --------------------------------------------------------------

  /** What a Stripe session says: who paid, for how many credits. */
  datatype Bill = Bill(user: int, credits: int)

  datatype Event =
    | TopUp(user: int, credits: nat)
    | Use(user: int, cents: nat)
    | Refund(user: int, cents: nat)
    | Deliver(session: Session)

  type Bills = Session -> Bill

  function Step(pool: Pool, e: Event, bills: Bills): Pool {
    match e
    case TopUp(user, credits) => Credited(pool, user, credits * CENTS)
    case Use(user, cents) => AfterUse(pool, user, cents)
    case Refund(user, cents) => Credited(pool, user, cents)
    case Deliver(session) => AfterFulfill(pool, session, bills(session).user, bills(session).credits)
  }

  function Run(pool: Pool, es: seq<Event>, bills: Bills): Pool
    decreases |es|
  {
    if es == [] then pool else Run(Step(pool, es[0], bills), es[1..], bills)
  }

  /** Top-ups and refunds less successful debits that a run makes on one organization. */
  function Flow(pool: Pool, es: seq<Event>, bills: Bills, org: int): int
    decreases |es|
  {
    if es == [] then 0 else Moved(pool, es[0], org) + Flow(Step(pool, es[0], bills), es[1..], bills, org)
  }

  function Moved(pool: Pool, e: Event, org: int): int {
    match e
    case TopUp(user, credits) => if OrgOf(pool, user) == Some(org) then credits * CENTS else 0
    case Use(user, cents) => if OrgOf(pool, user) == Some(org) && pool.orgs[org] >= cents then 0 - (cents as int) else 0
    case Refund(user, cents) => if OrgOf(pool, user) == Some(org) then cents else 0
    case Deliver(_) => 0
  }

  function Delivered(es: seq<Event>): set<Session> {
    set e | e in es && e.Deliver? :: e.session
  }

  /** What one session is worth to an organization. */
  function Worth(pool: Pool, bills: Bills, org: int): Session -> int {
    session => if OrgOf(pool, bills(session).user) == Some(org) then bills(session).credits * CENTS else 0
  }

  lemma OrgsKept(pool: Pool, e: Event, bills: Bills)
    ensures var pool' := Step(pool, e, bills);
            && pool'.users == pool.users && pool'.orgs.Keys == pool.orgs.Keys
            && (forall user :: OrgOf(pool', user) == OrgOf(pool, user))
  {
  }

  lemma StepBalance(pool: Pool, e: Event, bills: Bills, org: int)
    requires org in pool.orgs
    ensures var pool' := Step(pool, e, bills);
            && org in pool'.orgs
            && pool'.sessions == pool.sessions + (if e.Deliver? then {e.session} else {})
            && pool'.orgs[org] == pool.orgs[org] + Moved(pool, e, org)
                 + (if e.Deliver? && e.session !in pool.sessions then Worth(pool, bills, org)(e.session) else 0)
  {
  }

  /** The user belongs to the organization. */
  predicate Belongs(pool: Pool, user: int, org: int) {
    user in pool.users && pool.users[user] == Some(org)
  }

  /** What one event does to the balance of an organization, in cents. */
  lemma StepMoves(pool: Pool, e: Event, bills: Bills, org: int)
    requires org in pool.orgs
    ensures Step(pool, e, bills).orgs.Keys == pool.orgs.Keys && Step(pool, e, bills).users == pool.users
    ensures var change := Step(pool, e, bills).orgs[org] - pool.orgs[org];
            match e
            case TopUp(user, credits) => change == if Belongs(pool, user, org) then 100 * credits else 0
            case Use(user, cents) =>
              change == if Belongs(pool, user, org) && pool.orgs[org] >= cents then 0 - (cents as int) else 0
            case Refund(user, cents) => change == if Belongs(pool, user, org) then cents else 0
            case Deliver(session) =>
              && change == (if Belongs(pool, bills(session).user, org) && session !in pool.sessions
                            then 100 * bills(session).credits else 0)
              && Step(pool, e, bills).sessions == pool.sessions + {session}
  {
  }

  /** The sessions a run delivers for the first time, split at its first event. */
  lemma DeliveredSplit(es: seq<Event>, known: set<Session>)
    requires es != []
    ensures Delivered(es) == Delivered(es[1..]) + (if es[0].Deliver? then {es[0].session} else {})
    ensures es[0].Deliver? && es[0].session !in known ==>
              Delivered(es) - known - {es[0].session} == Delivered(es[1..]) - (known + {es[0].session})
    ensures !(es[0].Deliver? && es[0].session !in known) ==>
              Delivered(es) - known == Delivered(es[1..]) - (known + if es[0].Deliver? then {es[0].session} else {})
  {
    assert es == [es[0]] + es[1..];
    assert forall x :: x in es <==> x == es[0] || x in es[1..];
  }

  /**
   The balance of each organization is its start plus top-ups plus refunds less successful
   debits plus the worth of each session delivered and not fulfilled before, counted once.
  */
  lemma {:induction false} PoolAccounting(pool: Pool, es: seq<Event>, bills: Bills, org: int)
    requires org in pool.orgs
    ensures var pool' := Run(pool, es, bills);
            && org in pool'.orgs
            && pool'.sessions == pool.sessions + Delivered(es)
            && pool'.orgs[org] == pool.orgs[org] + Flow(pool, es, bills, org)
                                + Total(Delivered(es) - pool.sessions, Worth(pool, bills, org))
    decreases |es|
  {
    if es == [] {
      assert Delivered(es) == {};
    } else {
      var (e, next) := (es[0], Step(pool, es[0], bills));
      OrgsKept(pool, e, bills);
      StepBalance(pool, e, bills, org);
      PoolAccounting(next, es[1..], bills, org);
      DeliveredSplit(es, pool.sessions);
      SameWorth(Delivered(es[1..]) - next.sessions, Worth(next, bills, org), Worth(pool, bills, org));
      if e.Deliver? && e.session !in pool.sessions {
        TotalSplit(Delivered(es) - pool.sessions, Worth(pool, bills, org), e.session);
      }
    }
  }

  lemma {:induction false} SameWorth(ids: set<Session>, f: Session -> int, g: Session -> int)
    requires forall id :: f(id) == g(id)
    ensures Total(ids, f) == Total(ids, g)
    decreases |ids|
  {
    if ids != {} {
      var x :| x in ids;
      TotalSplit(ids, f, x);
      TotalSplit(ids, g, x);
      SameWorth(ids - {x}, f, g);
    }
  }

  /** No guarded debit can take a balance below zero. */
  lemma {:induction false} NeverNegative(pool: Pool, es: seq<Event>, bills: Bills)
    requires forall org :: org in pool.orgs ==> pool.orgs[org] >= 0
    requires forall session :: bills(session).credits >= 0
    ensures forall org :: org in Run(pool, es, bills).orgs ==> Run(pool, es, bills).orgs[org] >= 0
    decreases |es|
  {
    if es != [] {
      NeverNegative(Step(pool, es[0], bills), es[1..], bills);
    }
  }

  lemma {:induction false} DeliveriesFlow(pool: Pool, es: seq<Event>, bills: Bills, org: int)
    requires forall e :: e in es ==> e.Deliver?
    ensures Flow(pool, es, bills, org) == 0
    decreases |es|
  {
    if es != [] {
      assert es[0] in es && forall e :: e in es[1..] ==> e in es;
      DeliveriesFlow(Step(pool, es[0], bills), es[1..], bills, org);
    }
  }

  /** However often and in whatever order the same sessions are delivered, the balances come out the same. */
  lemma DeliveryOrderIrrelevant(pool: Pool, es: seq<Event>, es': seq<Event>, bills: Bills, org: int)
    requires org in pool.orgs
    requires forall e :: e in es || e in es' ==> e.Deliver?
    requires Delivered(es) == Delivered(es')
    ensures org in Run(pool, es, bills).orgs && org in Run(pool, es', bills).orgs
    ensures Run(pool, es, bills).orgs[org] == Run(pool, es', bills).orgs[org]
    ensures Run(pool, es, bills).sessions == Run(pool, es', bills).sessions
  {
    PoolAccounting(pool, es, bills, org);
    PoolAccounting(pool, es', bills, org);
    DeliveriesFlow(pool, es, bills, org);
    DeliveriesFlow(pool, es', bills, org);
  }
}
