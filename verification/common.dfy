/** Small shared vocabulary: optional values, results, extrema and counting over a table. */
module Common {
  datatype Option<+T> = None | Some(value: T)

  datatype Result<+T, +E> = Ok(value: T) | Err(error: E)

  function Min(a: int, b: int): int {
    if a <= b then a else b
  }

  function Max(a: int, b: int): int {
    if a <= b then b else a
  }

  /** The keys of the rows that satisfy a predicate: SELECT id ... WHERE p. */
  function Where<T>(rows: map<int, T>, p: T -> bool): (ids: set<int>)
    ensures forall id :: id in ids <==> id in rows && p(rows[id])
  {
    set id | id in rows && p(rows[id])
  }

  /** How many rows satisfy a predicate: SELECT count(*) ... WHERE p. */
  function Count<T>(rows: map<int, T>, p: T -> bool): nat {
    |Where(rows, p)|
  }

  /** Overwriting one row moves the count by at most that row. */
  lemma CountUpdate<T>(rows: map<int, T>, p: T -> bool, id: int, row: T)
    requires id in rows
    ensures Count(rows[id := row], p)
         == Count(rows, p) - (if p(rows[id]) then 1 else 0) + (if p(row) then 1 else 0)
  {
    var others := Where(rows, p) - {id};
    assert Where(rows, p) == if p(rows[id]) then others + {id} else others;
    assert Where(rows[id := row], p) == if p(row) then others + {id} else others;
  }

  lemma CountInsert<T>(rows: map<int, T>, p: T -> bool, id: int, row: T)
    requires id !in rows
    ensures Count(rows[id := row], p) == Count(rows, p) + if p(row) then 1 else 0
  {
    assert Where(rows[id := row], p) == if p(row) then Where(rows, p) + {id} else Where(rows, p);
  }

  lemma CountMonotone<T>(rows: map<int, T>, p: T -> bool, q: T -> bool)
    requires forall id | id in rows && p(rows[id]) :: q(rows[id])
    ensures Count(rows, p) <= Count(rows, q)
  {
    forall id | id in Where(rows, p)
      ensures id in Where(rows, q)
    {
      assert p(rows[id]);
    }
    SubsetSize(Where(rows, p), Where(rows, q));
  }

  /** A predicate true of every row counts them all, and only then. */
  lemma CountAll<T>(rows: map<int, T>, p: T -> bool)
    ensures Count(rows, p) <= |rows|
    ensures Count(rows, p) == |rows| <==> forall id | id in rows :: p(rows[id])
  {
    SubsetSize(Where(rows, p), rows.Keys);
    if forall id | id in rows :: p(rows[id]) {
      assert Where(rows, p) == rows.Keys;
    }
  }

  lemma CountNone<T>(rows: map<int, T>, p: T -> bool)
    ensures Count(rows, p) == 0 <==> forall id | id in rows :: !p(rows[id])
  {
    if forall id | id in rows :: !p(rows[id]) {
      assert Where(rows, p) == {};
    } else {
      var id :| id in rows && p(rows[id]);
      assert id in Where(rows, p);
    }
  }

  /** Counts of two predicates that divide p between them add up. */
  lemma CountSplit<T>(rows: map<int, T>, p: T -> bool, q: T -> bool, r: T -> bool)
    requires forall id | id in rows :: p(rows[id]) <==> q(rows[id]) || r(rows[id])
    requires forall id | id in rows :: !(q(rows[id]) && r(rows[id]))
    ensures Count(rows, p) == Count(rows, q) + Count(rows, r)
  {
    var (ps, qs, rs) := (Where(rows, p), Where(rows, q), Where(rows, r));
    forall id | id in rows
      ensures id in ps <==> id in qs || id in rs
      ensures !(id in qs && id in rs)
    {
      assert p(rows[id]) <==> q(rows[id]) || r(rows[id]);
      assert !(q(rows[id]) && r(rows[id]));
    }
    assert ps == qs + rs && qs !! rs;
  }

  /** Distinct elements are as many as the set they form. */
  lemma {:induction false} DistinctSize(s: seq<int>, elements: set<int>)
    requires forall i, j :: 0 <= i < j < |s| ==> s[i] != s[j]
    requires forall x :: x in elements <==> x in s
    ensures |elements| == |s|
  {
    if s == [] {
      if elements != {} {
        Inhabited(elements);
      }
    } else {
      var last := |s| - 1;
      assert forall x :: x in s <==> x in s[..last] || x == s[last];
      DistinctSize(s[..last], elements - {s[last]});
      assert elements == elements - {s[last]} + {s[last]};
    }
  }

  lemma Inhabited(s: set<int>)
    requires s != {}
    ensures exists x :: x in s
  {
    var zero := set x | x in s && x in {0};
    if x :| x in zero {
    } else {
      assert s - zero == s;
    }
  }

  lemma SubsetSize<T>(a: set<T>, b: set<T>)
    requires a <= b
    ensures |a| <= |b|
    ensures |a| == |b| ==> a == b
  {
    assert b == a + (b - a);
  }
}
