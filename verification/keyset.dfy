/**
 Keyset pagination of the accounts of a list: db/lists.py:get_list_accounts and the endpoint
 that walks it. NULL scores sort last but are compared through a sentinel.
*/
module Keyset {
  import opened Common
  import C = Cursors

  datatype Field = Pain | Composite | Fit | Timing

  datatype Order = Asc | Desc

  datatype Row = Row(id: int, listId: int, status: string,
                     pain: Option<int>, composite: Option<int>, fit: Option<int>, timing: Option<int>)

  datatype Condition =
    | InList(listId: int)
    | PainAtLeast(n: int)
    | CompositeAtLeast(n: int)
    | StatusIs(status: string)
    | IdIn(ids: seq<int>)
    | Beyond(field: Field, order: Order, score: Option<int>, id: int)

  datatype Query = Query(listId: int, minPain: Option<int>, minComposite: Option<int>, status: Option<string>,
                         ids: Option<seq<int>>, field: Field, order: Order)

  datatype Page = Page(items: seq<Row>, hasMore: bool)

  function Score(field: Field, row: Row): Option<int> {
    match field
    case Pain => row.pain
    case Composite => row.composite
    case Fit => row.fit
    case Timing => row.timing
  }

  function Sentinel(order: Order): int {
    if order.Desc? then -1 else 999
  }

  function Coalesce(score: Option<int>, order: Order): int {
    if score.Some? then score.value else Sentinel(order)
  }

  /** The row comparison of the cursor condition, NULL scores replaced by the sentinel on both sides. */
  predicate IsBeyond(order: Order, score: Option<int>, id: int, cursorScore: Option<int>, cursorId: int) {
    var (k, c) := (Coalesce(score, order), Coalesce(cursorScore, order));
    if order.Desc? then k < c || (k == c && id < cursorId) else k > c || (k == c && id > cursorId)
  }

  predicate Holds(c: Condition, row: Row) {
    match c
    case InList(listId) => row.listId == listId
    case PainAtLeast(n) => row.pain.Some? && row.pain.value >= n
    case CompositeAtLeast(n) => row.composite.Some? && row.composite.value >= n
    case StatusIs(status) => row.status == status
    case IdIn(ids) => row.id in ids
    case Beyond(field, order, score, id) => IsBeyond(order, Score(field, row), row.id, score, id)
  }

  predicate HoldsAll(cs: seq<Condition>, row: Row) {
    forall i :: 0 <= i < |cs| ==> Holds(cs[i], row)
  }

  /** WHERE */
  function Select(cs: seq<Condition>, rows: seq<Row>): seq<Row> {
    if rows == [] then []
    else if HoldsAll(cs, rows[0]) then [rows[0]] + Select(cs, rows[1..])
    else Select(cs, rows[1..])
  }

  /** ORDER BY field order NULLS LAST, id order */
  predicate Before(field: Field, order: Order, a: Row, b: Row) {
    match (Score(field, a), Score(field, b))
    case (Some(x), Some(y)) =>
      if order.Desc? then x > y || (x == y && a.id > b.id) else x < y || (x == y && a.id < b.id)
    case (Some(_), None) => true
    case (None, Some(_)) => false
    case (None, None) => if order.Desc? then a.id > b.id else a.id < b.id
  }

  function Insert(field: Field, order: Order, row: Row, rows: seq<Row>): seq<Row> {
    if rows == [] || Before(field, order, row, rows[0]) then [row] + rows
    else [rows[0]] + Insert(field, order, row, rows[1..])
  }

  function Sorted(field: Field, order: Order, rows: seq<Row>): seq<Row> {
    if rows == [] then [] else Insert(field, order, rows[0], Sorted(field, order, rows[1..]))
  }

  // ---- the query --------------------------------------------------------------

  function Base(q: Query): seq<Condition> {
    var listed := [InList(q.listId)];
    var pained := if q.minPain.Some? then listed + [PainAtLeast(q.minPain.value)] else listed;
    var scored := if q.minComposite.Some? then pained + [CompositeAtLeast(q.minComposite.value)] else pained;
    var settled := if q.status.Some? then scored + [StatusIs(q.status.value)] else scored;
    if q.ids.Some? then settled + [IdIn(q.ids.value)] else settled
  }

  /** What the cursor adds to the conditions; int() refuses a sort value that is no integer. */
  function After(q: Query, text: string): Result<Condition, C.Error> {
    match C.Decode(text)
    case Err(e) => Err(e)
    case Ok(cursor) =>
      match cursor.sortValue
      case None => Ok(Beyond(q.field, q.order, None, cursor.id))
      case Some(s) =>
        match C.ParseInt(s)
        case None => Err(C.NotAnInteger)
        case Some(v) => Ok(Beyond(q.field, q.order, Some(v), cursor.id))
  }

  function Conditions(q: Query, startingAfter: Option<string>): Result<seq<Condition>, C.Error> {
    match startingAfter
    case None => Ok(Base(q))
    case Some(text) =>
      match After(q, text)
      case Err(e) => Err(e)
      case Ok(c) => Ok(Base(q) + [c])
  }

  /** The first `limit` rows, and whether the query, which asks for one more, found it. */
  function PageOf(rows: seq<Row>, limit: nat): Page {
    if |rows| > limit then Page(rows[..limit], true) else Page(rows, false)
  }

  function Fetch(table: seq<Row>, q: Query, limit: nat, startingAfter: Option<string>): Result<Page, C.Error> {
    match Conditions(q, startingAfter)
    case Err(e) => Err(e)
    case Ok(cs) => Ok(PageOf(Sorted(q.field, q.order, Select(cs, table)), limit))
  }

  /** sort_by, with the composite score for a name that is not one of the score columns. */
  function FieldNamed(sortBy: string): Field {
    if sortBy == "pain_score" then Pain
    else if sortBy == "fit_score" then Fit
    else if sortBy == "timing_score" then Timing
    else Composite
  }

  lemma FirstOfFetched(rows: seq<Row>, limit: nat)
    ensures var fetched := rows[..Min(limit + 1, |rows|)];
            PageOf(rows, limit) == Page(fetched[..Min(limit, |fetched|)], |fetched| > limit)
  {
    if |rows| > limit {
      assert rows[..limit + 1][..limit] == rows[..limit];
    }
  }

  // ---- the walk ---------------------------------------------------------------

  /** The cursor of the next page, when there is one. */
  function NextCursor(field: Field, page: Page): Option<string> {
    if page.hasMore && page.items != [] then
      var last := page.items[|page.items| - 1];
      Some(C.Encode(Score(field, last), last.id))
    else None
  }

  /** The condition a cursor stands for. */
  function BeyondRow(q: Query, row: Row): Condition {
    Beyond(q.field, q.order, Score(q.field, row), row.id)
  }

  lemma CursorStandsFor(q: Query, row: Row)
    ensures After(q, C.Encode(Score(q.field, row), row.id)) == Ok(BeyondRow(q, row))
  {
    C.CursorRoundTrip(Score(q.field, row), row.id);
    if Score(q.field, row).Some? {
      C.IntTextShape(Score(q.field, row).value);
    }
  }

  lemma {:induction false} SelectHolds(cs: seq<Condition>, rows: seq<Row>, row: Row)
    ensures row in Select(cs, rows) <==> row in rows && HoldsAll(cs, row)
  {
    if rows != [] {
      assert rows == [rows[0]] + rows[1..];
      SelectHolds(cs, rows[1..], row);
    }
  }

  /** A condition implied elsewhere selects no more rows, and fewer when it loses one. */
  lemma {:induction false} SelectShrinks(cs: seq<Condition>, ds: seq<Condition>, rows: seq<Row>)
    requires forall row :: row in rows && HoldsAll(ds, row) ==> HoldsAll(cs, row)
    ensures |Select(ds, rows)| <= |Select(cs, rows)|
    ensures (exists row :: row in rows && HoldsAll(cs, row) && !HoldsAll(ds, row))
            ==> |Select(ds, rows)| < |Select(cs, rows)|
  {
    if rows != [] {
      SelectShrinks(cs, ds, rows[1..]);
    }
  }

  // ---- ORDER BY ---------------------------------------------------------------

  predicate DistinctIds(rows: seq<Row>) {
    forall i, j :: 0 <= i < j < |rows| ==> rows[i].id != rows[j].id
  }

  predicate Below(field: Field, order: Order, row: Row, rows: seq<Row>) {
    forall r :: r in rows ==> Before(field, order, row, r)
  }

  predicate Ordered(field: Field, order: Order, rows: seq<Row>) {
    rows == [] || (Below(field, order, rows[0], rows[1..]) && Ordered(field, order, rows[1..]))
  }

  lemma BeforeTransitive(field: Field, order: Order, a: Row, b: Row, c: Row)
    requires Before(field, order, a, b) && Before(field, order, b, c)
    ensures Before(field, order, a, c)
  {
  }

  lemma BelowHead(field: Field, order: Order, row: Row, rows: seq<Row>)
    requires Ordered(field, order, rows) && rows != [] && Before(field, order, row, rows[0])
    ensures Below(field, order, row, rows)
  {
    forall r | r in rows
      ensures Before(field, order, row, r)
    {
      if r != rows[0] {
        BeforeTransitive(field, order, row, rows[0], r);
      }
    }
  }

  lemma {:induction false} InsertMembers(field: Field, order: Order, row: Row, rows: seq<Row>)
    ensures multiset(Insert(field, order, row, rows)) == multiset{row} + multiset(rows)
  {
    if rows != [] {
      assert rows == [rows[0]] + rows[1..];
      InsertMembers(field, order, row, rows[1..]);
    }
  }

  lemma {:induction false} InsertOrdered(field: Field, order: Order, row: Row, rows: seq<Row>)
    requires Ordered(field, order, rows) && forall r :: r in rows ==> r.id != row.id
    ensures Ordered(field, order, Insert(field, order, row, rows))
  {
    if rows != [] {
      if Before(field, order, row, rows[0]) {
        BelowHead(field, order, row, rows);
        assert ([row] + rows)[1..] == rows;
      } else {
        var rest := Insert(field, order, row, rows[1..]);
        InsertOrdered(field, order, row, rows[1..]);
        InsertMembers(field, order, row, rows[1..]);
        forall r | r in rest
          ensures Before(field, order, rows[0], r)
        {
          assert r in multiset(rest);
          assert r == row || r in multiset(rows[1..]);
        }
        assert ([rows[0]] + rest)[1..] == rest;
      }
    }
  }

  lemma {:induction false} SortedMembers(field: Field, order: Order, rows: seq<Row>, row: Row)
    ensures row in Sorted(field, order, rows) <==> row in rows
  {
    if rows != [] {
      var rest := Sorted(field, order, rows[1..]);
      SortedMembers(field, order, rows[1..], row);
      InsertMembers(field, order, rows[0], rest);
      assert row in Insert(field, order, rows[0], rest) <==> row in multiset(Insert(field, order, rows[0], rest));
      assert rows == [rows[0]] + rows[1..];
    }
  }

  lemma {:induction false} SortedOrdered(field: Field, order: Order, rows: seq<Row>)
    requires DistinctIds(rows)
    ensures Ordered(field, order, Sorted(field, order, rows))
  {
    if rows != [] {
      var rest := Sorted(field, order, rows[1..]);
      SortedOrdered(field, order, rows[1..]);
      forall r | r in rest
        ensures r.id != rows[0].id
      {
        SortedMembers(field, order, rows[1..], r);
      }
      InsertOrdered(field, order, rows[0], rest);
    }
  }

  lemma {:induction false} SelectDistinct(cs: seq<Condition>, rows: seq<Row>)
    requires DistinctIds(rows)
    ensures DistinctIds(Select(cs, rows))
  {
    if rows != [] {
      SelectDistinct(cs, rows[1..]);
      forall r | r in Select(cs, rows[1..])
        ensures r.id != rows[0].id
      {
        SelectHolds(cs, rows[1..], r);
      }
    }
  }

  lemma {:induction false} OrderedAt(field: Field, order: Order, rows: seq<Row>, i: nat, j: nat)
    requires Ordered(field, order, rows) && i < j < |rows|
    ensures Before(field, order, rows[i], rows[j])
  {
    if i > 0 {
      OrderedAt(field, order, rows[1..], i - 1, j - 1);
    }
  }

  // ---- WHERE after ORDER BY ---------------------------------------------------

  lemma HoldsMore(cs: seq<Condition>, c: Condition, row: Row)
    ensures HoldsAll(cs + [c], row) <==> HoldsAll(cs, row) && Holds(c, row)
  {
    if HoldsAll(cs + [c], row) {
      assert forall i :: 0 <= i < |cs| ==> (cs + [c])[i] == cs[i];
      assert Holds((cs + [c])[|cs|], row);
    }
  }

  lemma {:induction false} SelectMore(cs: seq<Condition>, c: Condition, rows: seq<Row>)
    ensures Select(cs + [c], rows) == Select([c], Select(cs, rows))
  {
    if rows != [] {
      HoldsMore(cs, c, rows[0]);
      SelectMore(cs, c, rows[1..]);
    }
  }

  lemma {:induction false} SelectInserted(cs: seq<Condition>, field: Field, order: Order, row: Row, rows: seq<Row>)
    requires Ordered(field, order, rows)
    ensures Select(cs, Insert(field, order, row, rows))
         == if HoldsAll(cs, row) then Insert(field, order, row, Select(cs, rows)) else Select(cs, rows)
  {
    if rows == [] || Before(field, order, row, rows[0]) {
      assert ([row] + rows)[1..] == rows;
      if rows != [] {
        BelowHead(field, order, row, rows);
        InsertFirst(cs, field, order, row, rows);
      }
    } else {
      var rest := Insert(field, order, row, rows[1..]);
      assert ([rows[0]] + rest)[1..] == rest;
      SelectInserted(cs, field, order, row, rows[1..]);
    }
  }

  lemma InsertFirst(cs: seq<Condition>, field: Field, order: Order, row: Row, rows: seq<Row>)
    requires Below(field, order, row, rows)
    ensures Insert(field, order, row, Select(cs, rows)) == [row] + Select(cs, rows)
  {
    if Select(cs, rows) != [] {
      SelectHolds(cs, rows, Select(cs, rows)[0]);
    }
  }

  /** Filtering before sorting and sorting before filtering agree. */
  lemma {:induction false} SelectSorted(cs: seq<Condition>, field: Field, order: Order, rows: seq<Row>)
    requires DistinctIds(rows)
    ensures Sorted(field, order, Select(cs, rows)) == Select(cs, Sorted(field, order, rows))
  {
    if rows != [] {
      SelectSorted(cs, field, order, rows[1..]);
      SortedOrdered(field, order, rows[1..]);
      SelectInserted(cs, field, order, rows[0], Sorted(field, order, rows[1..]));
    }
  }

  lemma {:induction false} SelectSuffix(cs: seq<Condition>, rows: seq<Row>, k: nat)
    requires k <= |rows|
    requires forall j :: 0 <= j < k ==> !HoldsAll(cs, rows[j])
    requires forall j :: k <= j < |rows| ==> HoldsAll(cs, rows[j])
    ensures Select(cs, rows) == rows[k..]
  {
    if rows != [] {
      SelectSuffix(cs, rows[1..], if k == 0 then 0 else k - 1);
      if k > 0 {
        assert rows[1..][k - 1..] == rows[k..];
      }
    }
  }

  // ---- one page, in the fields of its rows ------------------------------------

  /** What the filters ask of a row. */
  predicate Wanted(row: Row, listId: int, minPain: Option<int>, minComposite: Option<int>, status: Option<string>,
                   accountIds: Option<seq<int>>)
  {
    && row.listId == listId
    && (minPain.Some? ==> row.pain.Some? && row.pain.value >= minPain.value)
    && (minComposite.Some? ==> row.composite.Some? && row.composite.value >= minComposite.value)
    && (status.Some? ==> row.status == status.value)
    && (accountIds.Some? ==> row.id in accountIds.value)
  }

  function Column(sortBy: string, row: Row): Option<int> {
    if sortBy == "pain_score" then row.pain
    else if sortBy == "fit_score" then row.fit
    else if sortBy == "timing_score" then row.timing
    else row.composite
  }

  /** Scored rows come first, by score and then id; rows without a score follow, by id. */
  predicate Precedes(sortBy: string, order: string, a: Row, b: Row) {
    var (x, y) := (Column(sortBy, a), Column(sortBy, b));
    if x.Some? && y.Some? && x.value != y.value then (if order == "asc" then x.value < y.value else x.value > y.value)
    else if x.Some? != y.Some? then x.Some?
    else if order == "asc" then a.id < b.id
    else a.id > b.id
  }

  /** The row comes after the cursor, a missing score counting as 999 when ascending and -1 when descending. */
  predicate Follows(sortBy: string, order: string, row: Row, score: Option<int>, id: int) {
    var missing := if order == "asc" then 999 else -1;
    var own := if Column(sortBy, row).Some? then Column(sortBy, row).value else missing;
    var last := if score.Some? then score.value else missing;
    if own != last then (if order == "asc" then own > last else own < last)
    else if order == "asc" then row.id > id
    else row.id < id
  }

  /** The first rows of the table that are asked for, as many as the limit, and whether there are more. */
  ghost predicate IsPage(table: seq<Row>, asked: Row -> bool, sortBy: string, order: string, limit: nat, page: Page) {
    && |page.items| <= limit && (page.hasMore ==> |page.items| == limit)
    && (forall row :: row in page.items ==> row in table && asked(row))
    && (forall i, j :: 0 <= i < j < |page.items| ==> Precedes(sortBy, order, page.items[i], page.items[j]))
    && (page.hasMore <==> exists row :: row in table && asked(row) && row !in page.items)
    && (forall row, item :: row in table && asked(row) && row !in page.items && item in page.items ==>
          Precedes(sortBy, order, item, row))
  }

  function DirectionOf(order: string): Order {
    if order == "asc" then Asc else Desc
  }

  lemma ColumnSorts(sortBy: string, order: string, a: Row, b: Row)
    requires a.id != b.id
    ensures Before(FieldNamed(sortBy), DirectionOf(order), a, b) <==> Precedes(sortBy, order, a, b)
  {
  }

  lemma ConditionFollows(sortBy: string, order: string, row: Row, score: Option<int>, id: int)
    ensures Holds(Beyond(FieldNamed(sortBy), DirectionOf(order), score, id), row)
            <==> Follows(sortBy, order, row, score, id)
  {
  }

  lemma BaseMeaning(q: Query, row: Row)
    ensures HoldsAll(Base(q), row) <==> Wanted(row, q.listId, q.minPain, q.minComposite, q.status, q.ids)
  {
    var listed := [InList(q.listId)];
    var pained := if q.minPain.Some? then listed + [PainAtLeast(q.minPain.value)] else listed;
    var scored := if q.minComposite.Some? then pained + [CompositeAtLeast(q.minComposite.value)] else pained;
    var settled := if q.status.Some? then scored + [StatusIs(q.status.value)] else scored;
    assert HoldsAll(listed, row) <==> Holds(listed[0], row);
    if q.minPain.Some? {
      HoldsMore(listed, PainAtLeast(q.minPain.value), row);
    }
    if q.minComposite.Some? {
      HoldsMore(pained, CompositeAtLeast(q.minComposite.value), row);
    }
    if q.status.Some? {
      HoldsMore(scored, StatusIs(q.status.value), row);
    }
    if q.ids.Some? {
      HoldsMore(settled, IdIn(q.ids.value), row);
    }
  }

  /** Any two rows of the sorted selection stand in the order asked for. */
  lemma SelectedPrecede(table: seq<Row>, cs: seq<Condition>, sortBy: string, order: string, i: nat, j: nat)
    requires DistinctIds(table) && i < j < |Sorted(FieldNamed(sortBy), DirectionOf(order), Select(cs, table))|
    ensures var rows := Sorted(FieldNamed(sortBy), DirectionOf(order), Select(cs, table));
            rows[i].id != rows[j].id && Precedes(sortBy, order, rows[i], rows[j])
  {
    var (field, direction) := (FieldNamed(sortBy), DirectionOf(order));
    var rows := Sorted(field, direction, Select(cs, table));
    SelectDistinct(cs, table);
    SortedOrdered(field, direction, Select(cs, table));
    OrderedAt(field, direction, rows, i, j);
    SortedMembers(field, direction, Select(cs, table), rows[i]);
    SortedMembers(field, direction, Select(cs, table), rows[j]);
    ColumnSorts(sortBy, order, rows[i], rows[j]);
  }

  lemma SelectedAsked(table: seq<Row>, cs: seq<Condition>, field: Field, order: Order, row: Row)
    ensures row in Sorted(field, order, Select(cs, table)) <==> row in table && HoldsAll(cs, row)
  {
    SortedMembers(field, order, Select(cs, table), row);
    SelectHolds(cs, table, row);
  }

  /** The rows that meet some conditions, sorted and cut, are a page of the rows asked for. */
  lemma CutIsPage(table: seq<Row>, cs: seq<Condition>, asked: Row -> bool, sortBy: string, order: string, limit: nat)
    requires DistinctIds(table) && forall row :: asked(row) <==> HoldsAll(cs, row)
    ensures IsPage(table, asked, sortBy, order, limit,
                   PageOf(Sorted(FieldNamed(sortBy), DirectionOf(order), Select(cs, table)), limit))
  {
    var (field, direction) := (FieldNamed(sortBy), DirectionOf(order));
    var rows := Sorted(field, direction, Select(cs, table));
    var page := PageOf(rows, limit);
    forall i, j | 0 <= i < j < |rows|
      ensures rows[i].id != rows[j].id && Precedes(sortBy, order, rows[i], rows[j])
    {
      SelectedPrecede(table, cs, sortBy, order, i, j);
    }
    forall row
      ensures row in rows <==> row in table && asked(row)
    {
      SelectedAsked(table, cs, field, direction, row);
    }
    CutsPage(rows, limit);
  }

  /** Where rows are distinct, what is cut off is what is not on the page. */
  lemma CutsPage(rows: seq<Row>, limit: nat)
    requires DistinctIds(rows)
    ensures var page := PageOf(rows, limit);
            && page.items == rows[..|page.items|]
            && (forall row :: row in rows && row !in page.items ==> row in rows[|page.items|..])
            && (page.hasMore <==> exists row :: row in rows && row !in page.items)
  {
    var page := PageOf(rows, limit);
    assert rows == page.items + rows[|page.items|..];
    if page.hasMore {
      assert rows[limit] in rows;
      assert rows[limit] !in page.items;
    }
  }

  /** A page is what the filters, the cursor and the order ask for, for any limit. */
  lemma PageMeaning(table: seq<Row>, q: Query, sortBy: string, order: string, limit: nat, startingAfter: Option<string>)
    requires DistinctIds(table) && q.field == FieldNamed(sortBy) && q.order == DirectionOf(order)
    ensures startingAfter.None? ==>
      var page := Fetch(table, q, limit, startingAfter);
      && page.Ok?
      && IsPage(table, row => Wanted(row, q.listId, q.minPain, q.minComposite, q.status, q.ids), sortBy, order, limit,
                page.value)
    ensures startingAfter.Some? && After(q, startingAfter.value).Ok? ==>
      var (page, cursor) := (Fetch(table, q, limit, startingAfter), After(q, startingAfter.value).value);
      && page.Ok? && cursor.Beyond?
      && IsPage(table, row => Wanted(row, q.listId, q.minPain, q.minComposite, q.status, q.ids)
                              && Follows(sortBy, order, row, cursor.score, cursor.id),
                sortBy, order, limit, page.value)
  {
    forall row
      ensures HoldsAll(Base(q), row) <==> Wanted(row, q.listId, q.minPain, q.minComposite, q.status, q.ids)
    {
      BaseMeaning(q, row);
    }
    if startingAfter.None? {
      CutIsPage(table, Base(q), row => Wanted(row, q.listId, q.minPain, q.minComposite, q.status, q.ids), sortBy, order,
                limit);
    } else if After(q, startingAfter.value).Ok? {
      var cursor := After(q, startingAfter.value).value;
      forall row
        ensures HoldsAll(Base(q) + [cursor], row)
                <==> HoldsAll(Base(q), row) && Follows(sortBy, order, row, cursor.score, cursor.id)
      {
        HoldsMore(Base(q), cursor, row);
        ConditionFollows(sortBy, order, row, cursor.score, cursor.id);
      }
      CutIsPage(table, Base(q) + [cursor],
                row => Wanted(row, q.listId, q.minPain, q.minComposite, q.status, q.ids)
                       && Follows(sortBy, order, row, cursor.score, cursor.id), sortBy, order, limit);
    }
  }

  method GetListAccounts(table: seq<Row>, listId: int, minPain: Option<int>, minComposite: Option<int>,
                         sortBy: string, order: string, limit: nat, startingAfter: Option<string>,
                         status: Option<string>, accountIds: Option<seq<int>>)
    returns (r: Result<Page, C.Error>)
    requires sortBy != "company_name"
    ensures r == Fetch(table, Query(listId, minPain, minComposite, status, accountIds, FieldNamed(sortBy),
                                    if order == "asc" then Asc else Desc), limit, startingAfter)
    ensures startingAfter.None? ==> r.Ok?
    ensures startingAfter.None? && DistinctIds(table) ==>
      IsPage(table, row => Wanted(row, listId, minPain, minComposite, status, accountIds), sortBy, order, limit,
             r.value)
    ensures startingAfter.Some? ==>
      match C.Decode(startingAfter.value)
      case Err(e) => r == Err(e)
      case Ok(cursor) =>
        if cursor.sortValue.Some? && C.ParseInt(cursor.sortValue.value).None? then r == Err(C.NotAnInteger)
        else
          var score := if cursor.sortValue.Some? then C.ParseInt(cursor.sortValue.value) else None;
          && r.Ok?
          && (DistinctIds(table) ==>
                IsPage(table, row => Wanted(row, listId, minPain, minComposite, status, accountIds)
                                     && Follows(sortBy, order, row, score, cursor.id),
                       sortBy, order, limit, r.value))
  {
    var field, direction := FieldNamed(sortBy), if order == "asc" then Asc else Desc;
    var conditions := [InList(listId)];
    if minPain.Some? {
      conditions := conditions + [PainAtLeast(minPain.value)];
    }
    if minComposite.Some? {
      conditions := conditions + [CompositeAtLeast(minComposite.value)];
    }
    if status.Some? {
      conditions := conditions + [StatusIs(status.value)];
    }
    if accountIds.Some? {
      conditions := conditions + [IdIn(accountIds.value)];
    }
    var q := Query(listId, minPain, minComposite, status, accountIds, field, direction);
    assert conditions == Base(q);
    if startingAfter.Some? {
      var beyond := After(q, startingAfter.value);
      if beyond.Err? {
        return Err(beyond.error);
      }
      conditions := conditions + [beyond.value];
    }
    var rows := Sorted(field, direction, Select(conditions, table));
    FirstOfFetched(rows, limit);
    if DistinctIds(table) {
      PageMeaning(table, q, sortBy, order, limit, startingAfter);
    }
    var fetched := rows[..Min(limit + 1, |rows|)];
    r := Ok(Page(fetched[..Min(limit, |fetched|)], |fetched| > limit));
  }

  // ---- following the cursors --------------------------------------------------

  /** The rows the first query would return without a limit. */
  function Listing(table: seq<Row>, q: Query): seq<Row> {
    Sorted(q.field, q.order, Select(Base(q), table))
  }

  lemma ListingOrdered(table: seq<Row>, q: Query)
    requires DistinctIds(table)
    ensures Ordered(q.field, q.order, Listing(table, q))
  {
    SelectDistinct(Base(q), table);
    SortedOrdered(q.field, q.order, Select(Base(q), table));
  }

  /** The rows of the table a cursor leaves to be read. */
  function Remaining(table: seq<Row>, q: Query, startingAfter: Option<string>): seq<Row> {
    match Conditions(q, startingAfter)
    case Err(_) => []
    case Ok(cs) => Select(cs, table)
  }

  lemma BeyondTransitive(order: Order, a: Option<int>, i: int, b: Option<int>, j: int, c: Option<int>, k: int)
    requires IsBeyond(order, b, j, a, i) && IsBeyond(order, c, k, b, j)
    ensures IsBeyond(order, c, k, a, i)
  {
  }

  /** A row beyond the last row of a page meets every condition that page was fetched with. */
  lemma CursorNarrows(q: Query, startingAfter: Option<string>, last: Row, row: Row)
    requires Conditions(q, startingAfter).Ok? && HoldsAll(Conditions(q, startingAfter).value, last)
    requires HoldsAll(Base(q) + [BeyondRow(q, last)], row)
    ensures HoldsAll(Conditions(q, startingAfter).value, row)
  {
    HoldsMore(Base(q), BeyondRow(q, last), row);
    if startingAfter.Some? {
      var c := After(q, startingAfter.value).value;
      HoldsMore(Base(q), c, last);
      HoldsMore(Base(q), c, row);
      BeyondTransitive(q.order, c.score, c.id, Score(q.field, last), last.id, Score(q.field, row), row.id);
    }
  }

  lemma FetchedHolds(table: seq<Row>, q: Query, limit: nat, startingAfter: Option<string>, row: Row)
    requires var fetched := Fetch(table, q, limit, startingAfter);
             fetched.Ok? && row in fetched.value.items
    ensures row in table && HoldsAll(Conditions(q, startingAfter).value, row)
  {
    var cs := Conditions(q, startingAfter).value;
    assert row in Sorted(q.field, q.order, Select(cs, table));
    SortedMembers(q.field, q.order, Select(cs, table), row);
    SelectHolds(cs, table, row);
  }

  lemma RemainingBeyond(table: seq<Row>, q: Query, last: Row)
    ensures Remaining(table, q, Some(C.Encode(Score(q.field, last), last.id)))
         == Select(Base(q) + [BeyondRow(q, last)], table)
  {
    CursorStandsFor(q, last);
  }

  lemma FewerRemain(table: seq<Row>, q: Query, startingAfter: Option<string>, last: Row)
    requires Conditions(q, startingAfter).Ok?
    requires last in table && HoldsAll(Conditions(q, startingAfter).value, last)
    ensures |Select(Base(q) + [BeyondRow(q, last)], table)| < |Remaining(table, q, startingAfter)|
  {
    var (cs, ds) := (Conditions(q, startingAfter).value, Base(q) + [BeyondRow(q, last)]);
    forall row | row in table && HoldsAll(ds, row)
      ensures HoldsAll(cs, row)
    {
      CursorNarrows(q, startingAfter, last, row);
    }
    HoldsMore(Base(q), BeyondRow(q, last), last);
    SelectShrinks(cs, ds, table);
  }

  /** Every page with a next cursor leaves fewer rows to read, so following cursors ends. */
  lemma PageProgress(table: seq<Row>, q: Query, limit: nat, startingAfter: Option<string>, page: Page)
    requires Fetch(table, q, limit, startingAfter) == Ok(page) && NextCursor(q.field, page).Some?
    ensures |Remaining(table, q, NextCursor(q.field, page))| < |Remaining(table, q, startingAfter)|
  {
    var last := page.items[|page.items| - 1];
    FetchedHolds(table, q, limit, startingAfter, last);
    FewerRemain(table, q, startingAfter, last);
    RemainingBeyond(table, q, last);
  }

  /** What a client collects that follows next_cursor until there is none. */
  function Walk(table: seq<Row>, q: Query, limit: nat, startingAfter: Option<string>): Result<seq<Row>, C.Error>
    requires limit >= 1
    decreases |Remaining(table, q, startingAfter)|
  {
    match Fetch(table, q, limit, startingAfter)
    case Err(e) => Err(e)
    case Ok(page) =>
      var next := NextCursor(q.field, page);
      if next.None? then Ok(page.items) else
      PageProgress(table, q, limit, startingAfter, page);
      match Walk(table, q, limit, next)
      case Err(e) => Err(e)
      case Ok(rest) => Ok(page.items + rest)
  }

  /**
   The sentinel does not confuse a scored row with a row without a score: every score is on the
   right side of it, or equal to it with an id that breaks the tie the same way.
   */
  predicate SentinelSafe(field: Field, order: Order, rows: seq<Row>) {
    forall r, n :: r in rows && n in rows && Score(field, r).Some? && Score(field, n).None? ==>
      var v := Score(field, r).value;
      if order.Desc? then v > -1 || (v == -1 && r.id > n.id) else v < 999 || (v == 999 && r.id < n.id)
  }

  lemma SortAgreesWithCursor(field: Field, order: Order, rows: seq<Row>, a: Row, b: Row)
    requires SentinelSafe(field, order, rows) && a in rows && b in rows && Before(field, order, a, b)
    ensures IsBeyond(order, Score(field, b), b.id, Score(field, a), a.id)
    ensures !IsBeyond(order, Score(field, a), a.id, Score(field, b), b.id)
  {
  }

  /** The rows beyond the k-th are those that follow it. */
  lemma BeyondAt(q: Query, rows: seq<Row>, k: nat, j: nat)
    requires Ordered(q.field, q.order, rows) && SentinelSafe(q.field, q.order, rows)
    requires k < |rows| && j < |rows|
    ensures HoldsAll([BeyondRow(q, rows[k])], rows[j]) <==> j > k
  {
    var cs := [BeyondRow(q, rows[k])];
    assert HoldsAll(cs, rows[j]) <==> Holds(cs[0], rows[j]);
    if j < k {
      OrderedAt(q.field, q.order, rows, j, k);
      SortAgreesWithCursor(q.field, q.order, rows, rows[j], rows[k]);
    } else if j > k {
      OrderedAt(q.field, q.order, rows, k, j);
      SortAgreesWithCursor(q.field, q.order, rows, rows[k], rows[j]);
    }
  }

  /** Asked for the rows beyond the last row read, the query returns exactly those that follow it. */
  lemma BeyondIsSuffix(q: Query, rows: seq<Row>, last: Row, next: nat)
    requires Ordered(q.field, q.order, rows) && SentinelSafe(q.field, q.order, rows)
    requires 0 < next <= |rows| && last == rows[next - 1]
    ensures Select([BeyondRow(q, last)], rows) == rows[next..]
  {
    var cs := [BeyondRow(q, last)];
    forall j | 0 <= j < |rows|
      ensures HoldsAll(cs, rows[j]) <==> j >= next
    {
      BeyondAt(q, rows, next - 1, j);
    }
    SelectSuffix(cs, rows, next);
  }

  /** A page after a row of the listing is cut from the listing itself. */
  lemma FetchAfterRow(table: seq<Row>, q: Query, limit: nat, row: Row, left: seq<Row>)
    requires DistinctIds(table) && left == Select([BeyondRow(q, row)], Listing(table, q))
    ensures Fetch(table, q, limit, Some(C.Encode(Score(q.field, row), row.id))) == Ok(PageOf(left, limit))
  {
    CursorStandsFor(q, row);
    SelectMore(Base(q), BeyondRow(q, row), table);
    SelectDistinct(Base(q), table);
    SelectSorted([BeyondRow(q, row)], q.field, q.order, Select(Base(q), table));
  }

  /** A full page is the rows up to next - 1, and its cursor is the one of that row. */
  lemma PageSlice(field: Field, rows: seq<Row>, limit: nat, i: nat, next: nat, last: Row)
    requires limit >= 1 && next == i + limit < |rows| && last == rows[next - 1]
    ensures PageOf(rows[i..], limit) == Page(rows[i..next], true)
    ensures NextCursor(field, PageOf(rows[i..], limit)) == Some(C.Encode(Score(field, last), last.id))
  {
    assert rows[i..][..limit] == rows[i..next];
    assert rows[i..next][|rows[i..next]| - 1] == last;
  }

  /** The cursor of a full page fetches from row `next`. */
  lemma PageChain(table: seq<Row>, q: Query, limit: nat, rows: seq<Row>, next: nat, last: Row)
    requires DistinctIds(table) && rows == Listing(table, q) && 0 < next < |rows| && last == rows[next - 1]
    requires Ordered(q.field, q.order, rows) && SentinelSafe(q.field, q.order, rows)
    ensures Fetch(table, q, limit, Some(C.Encode(Score(q.field, last), last.id))) == Ok(PageOf(rows[next..], limit))
  {
    BeyondIsSuffix(q, rows, last, next);
    FetchAfterRow(table, q, limit, last, rows[next..]);
  }

  lemma {:induction false} WalkSuffix(table: seq<Row>, q: Query, limit: nat, startingAfter: Option<string>,
                                      rows: seq<Row>, i: nat)
    requires limit >= 1 && DistinctIds(table) && rows == Listing(table, q) && i <= |rows|
    requires Ordered(q.field, q.order, rows) && SentinelSafe(q.field, q.order, rows)
    requires Fetch(table, q, limit, startingAfter) == Ok(PageOf(rows[i..], limit))
    ensures Walk(table, q, limit, startingAfter) == Ok(rows[i..])
    decreases |rows| - i
  {
    var next := i + limit;
    if next < |rows| {
      var last := rows[next - 1];
      var cursor := Some(C.Encode(Score(q.field, last), last.id));
      PageSlice(q.field, rows, limit, i, next, last);
      PageChain(table, q, limit, rows, next, last);
      WalkSuffix(table, q, limit, cursor, rows, next);
      SliceMeets(rows, i, next);
    }
  }

  lemma SliceMeets(rows: seq<Row>, i: nat, next: nat)
    requires i <= next <= |rows|
    ensures rows[i..next] + rows[next..] == rows[i..]
  {
  }

  /** Following the cursors collects the whole listing, in order, no row repeated or skipped. */
  lemma WalkComplete(table: seq<Row>, q: Query, limit: nat)
    requires limit >= 1 && DistinctIds(table)
    requires SentinelSafe(q.field, q.order, Listing(table, q))
    ensures Walk(table, q, limit, None) == Ok(Listing(table, q))
  {
    var rows := Listing(table, q);
    ListingOrdered(table, q);
    assert rows[0..] == rows;
    WalkSuffix(table, q, limit, None, rows, 0);
  }

  /** Scores from 0 to 100, or none, are always safe. */
  lemma UsualScoresAreSafe(field: Field, order: Order, rows: seq<Row>)
    requires forall r :: r in rows && Score(field, r).Some? ==> 0 <= Score(field, r).value <= 100
    ensures SentinelSafe(field, order, rows)
  {
  }

  predicate AllHold(cs: seq<Condition>, rows: seq<Row>) {
    forall r :: r in rows ==> HoldsAll(cs, r)
  }

  /** Each row is beyond the one before it. */
  predicate Ascends(q: Query, rows: seq<Row>) {
    |rows| <= 1 || (Holds(BeyondRow(q, rows[0]), rows[1]) && Ascends(q, rows[1..]))
  }

  lemma FirstJoins(q: Query, startingAfter: Option<string>, first: Row, rest: seq<Row>)
    requires Conditions(q, startingAfter).Ok? && HoldsAll(Conditions(q, startingAfter).value, first)
    requires AllHold(Base(q) + [BeyondRow(q, first)], rest) && Ascends(q, rest)
    ensures AllHold(Conditions(q, startingAfter).value, [first] + rest) && Ascends(q, [first] + rest)
  {
    forall r | r in rest
      ensures HoldsAll(Conditions(q, startingAfter).value, r) && Holds(BeyondRow(q, first), r)
    {
      CursorNarrows(q, startingAfter, first, r);
      HoldsMore(Base(q), BeyondRow(q, first), r);
    }
    assert ([first] + rest)[1..] == rest;
  }

  /** Read one row at a time, a walk only ever moves beyond the row it just read. */
  lemma {:induction false} WalkOneAscends(table: seq<Row>, q: Query, startingAfter: Option<string>)
    requires Walk(table, q, 1, startingAfter).Ok?
    ensures Conditions(q, startingAfter).Ok?
    ensures var walked := Walk(table, q, 1, startingAfter).value;
            AllHold(Conditions(q, startingAfter).value, walked) && Ascends(q, walked)
    decreases |Remaining(table, q, startingAfter)|
  {
    var page := Fetch(table, q, 1, startingAfter).value;
    if page.items != [] {
      var first := page.items[0];
      FetchedHolds(table, q, 1, startingAfter, first);
      assert page.items == [first];
      var next := NextCursor(q.field, page);
      if next.Some? {
        PageProgress(table, q, 1, startingAfter, page);
        WalkOneAscends(table, q, next);
        CursorStandsFor(q, first);
        FirstJoins(q, startingAfter, first, Walk(table, q, 1, next).value);
      }
    }
  }

  lemma {:induction false} AscendsThroughout(q: Query, rows: seq<Row>, i: nat, j: nat)
    requires Ascends(q, rows) && i < j < |rows|
    ensures Holds(BeyondRow(q, rows[i]), rows[j])
    decreases j
  {
    if i > 0 {
      AscendsThroughout(q, rows[1..], i - 1, j - 1);
    } else if j > 1 {
      AscendsThroughout(q, rows[1..], 0, j - 1);
      BeyondTransitive(q.order, Score(q.field, rows[0]), rows[0].id, Score(q.field, rows[1]), rows[1].id,
                       Score(q.field, rows[j]), rows[j].id);
    }
  }

  /** In a listing that ascends, a scored row is on the right side of every row without a score. */
  lemma AscendingIsSafe(q: Query, rows: seq<Row>, r: Row, n: Row)
    requires Ordered(q.field, q.order, rows) && Ascends(q, rows)
    requires r in rows && n in rows && Score(q.field, r).Some? && Score(q.field, n).None?
    ensures Holds(BeyondRow(q, r), n)
  {
    var i :| 0 <= i < |rows| && rows[i] == r;
    var j :| 0 <= j < |rows| && rows[j] == n;
    if j < i {
      OrderedAt(q.field, q.order, rows, j, i);
    } else {
      AscendsThroughout(q, rows, i, j);
    }
  }

  lemma AscendingListingIsSafe(q: Query, rows: seq<Row>)
    requires Ordered(q.field, q.order, rows) && Ascends(q, rows)
    ensures SentinelSafe(q.field, q.order, rows)
  {
    forall r, n | r in rows && n in rows && Score(q.field, r).Some? && Score(q.field, n).None?
      ensures Holds(BeyondRow(q, r), n)
    {
      AscendingIsSafe(q, rows, r, n);
    }
  }

  /** Where row-by-row walking returns the listing, the sentinel is safe. */
  lemma WalkedIsSafe(table: seq<Row>, q: Query)
    requires DistinctIds(table) && Walk(table, q, 1, None) == Ok(Listing(table, q))
    ensures SentinelSafe(q.field, q.order, Listing(table, q))
  {
    ListingOrdered(table, q);
    WalkOneAscends(table, q, None);
    AscendingListingIsSafe(q, Listing(table, q));
  }

  ghost predicate EveryWalkComplete(table: seq<Row>, q: Query) {
    forall limit: nat :: limit >= 1 ==> Walk(table, q, limit, None) == Ok(Listing(table, q))
  }

  /** Walks of every page size are complete exactly when the sentinel is safe for the listing. */
  lemma WalkCompleteExactly(table: seq<Row>, q: Query)
    requires DistinctIds(table)
    ensures EveryWalkComplete(table, q) <==> SentinelSafe(q.field, q.order, Listing(table, q))
  {
    if EveryWalkComplete(table, q) {
      assert Walk(table, q, 1, None) == Ok(Listing(table, q));
      WalkedIsSafe(table, q);
    } else if SentinelSafe(q.field, q.order, Listing(table, q)) {
      forall limit: nat | limit >= 1
        ensures Walk(table, q, limit, None) == Ok(Listing(table, q))
      {
        WalkComplete(table, q, limit);
      }
    }
  }

  /** The listing is the rows that meet the filters, each once, in the order asked for. */
  lemma ListingMeaning(table: seq<Row>, q: Query, row: Row, sortBy: string, order: string)
    requires DistinctIds(table) && q.field == FieldNamed(sortBy) && q.order == DirectionOf(order)
    ensures Ordered(q.field, q.order, Listing(table, q)) && DistinctIds(Listing(table, q))
    ensures row in Listing(table, q)
            <==> row in table && Wanted(row, q.listId, q.minPain, q.minComposite, q.status, q.ids)
    ensures forall i, j :: 0 <= i < j < |Listing(table, q)| ==>
              Precedes(sortBy, order, Listing(table, q)[i], Listing(table, q)[j])
  {
    var rows := Listing(table, q);
    BaseMeaning(q, row);
    forall i, j | 0 <= i < j < |rows|
      ensures Precedes(sortBy, order, rows[i], rows[j])
    {
      SelectedPrecede(table, Base(q), sortBy, order, i, j);
    }
    ListingOrdered(table, q);
    SelectDistinct(Base(q), table);
    SortedMembers(q.field, q.order, Select(Base(q), table), row);
    SelectHolds(Base(q), table, row);
    forall i, j | 0 <= i < j < |rows|
      ensures rows[i].id != rows[j].id
    {
      OrderedAt(q.field, q.order, rows, i, j);
      SortedMembers(q.field, q.order, Select(Base(q), table), rows[i]);
      SortedMembers(q.field, q.order, Select(Base(q), table), rows[j]);
    }
  }
}
