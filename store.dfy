/**
 * The `transactions` table as an in-memory sequence of rows in insertion order, and
 * the query-builder calls the routes use, each with its SQL meaning: `where` filters
 * by AND-combined column equalities, `select` returns in table order, `first` takes
 * the first match, and `sum` adds up a column (NULL over no rows).
 */
module Store {
  import opened Wrappers

  /** One row of the table. `sessionId` is a nullable column. */
  datatype Row = Row(id: string, title: string, amount: int, createdAt: string, sessionId: Option<string>)

  /**
   * The object given to `where`: each column set to Some value must equal it; a column
   * left None is not constrained.
   */
  datatype Filter = Filter(id: Option<string>, sessionId: Option<string>)

  /** `where({ session_id })`. */
  function BySession(session: string): Filter { Filter(None, Some(session)) }

  /** `where({ id, session_id })`. */
  function ByIdAndSession(id: string, session: string): Filter { Filter(Some(id), Some(session)) }

  /** SQL equality: a NULL `session_id` never equals a value. */
  predicate Matches(row: Row, f: Filter)
  {
    (f.id.Some? ==> row.id == f.id.value) &&
    (f.sessionId.Some? ==> row.sessionId.Some? && row.sessionId.value == f.sessionId.value)
  }

  /** `where(f).select()`: the matching rows, each as often as it occurs in the table. */
  function Where(rows: seq<Row>, f: Filter): (r: seq<Row>)
    ensures |r| <= |rows|
    ensures forall x :: x in r <==> x in rows && Matches(x, f)
  {
    if rows == [] then []
    else
      var rest := Where(rows[1..], f);
      if Matches(rows[0], f) then [rows[0]] + rest else rest
  }

  /** Each matching row occurs in the result exactly as often as in the table. */
  lemma {:induction false} WhereCounts(rows: seq<Row>, f: Filter, x: Row)
    ensures multiset(Where(rows, f))[x] == if Matches(x, f) then multiset(rows)[x] else 0
  {
    if rows != [] {
      assert rows == [rows[0]] + rows[1..];
      WhereCounts(rows[1..], f, x);
    }
  }

  /** `first()`: the first row of a result, or nothing. */
  function First(rows: seq<Row>): (r: Option<Row>)
    ensures r.None? <==> rows == []
    ensures r.Some? ==> r.value == rows[0] && r.value in rows
  {
    if rows == [] then None else Some(rows[0])
  }

  /** The arithmetic sum of `amount` over the rows. */
  function Total(rows: seq<Row>): int
  {
    if rows == [] then 0 else rows[0].amount + Total(rows[1..])
  }

  /** `sum("amount")`: NULL over an empty set of rows, the total otherwise. */
  function SqlSum(rows: seq<Row>): (r: Option<int>)
    ensures r.None? <==> rows == []
    ensures r.Some? ==> r.value == Total(rows)
  {
    if rows == [] then None else Some(Total(rows))
  }

  /** `a` is `b` with some elements left out and the rest in their original order. */
  ghost predicate IsSubsequence(a: seq<Row>, b: seq<Row>)
    decreases |b|
  {
    if a == [] then true
    else if b == [] then false
    else (a[0] == b[0] && IsSubsequence(a[1..], b[1..])) || IsSubsequence(a, b[1..])
  }

  /** Filtering keeps table order. */
  lemma {:induction false} WhereKeepsOrder(rows: seq<Row>, f: Filter)
    ensures IsSubsequence(Where(rows, f), rows)
  {
    if rows != [] {
      WhereKeepsOrder(rows[1..], f);
    }
  }

  /** Filtering distributes over appending rows to the table. */
  lemma {:induction false} WhereAppend(a: seq<Row>, b: seq<Row>, f: Filter)
    ensures Where(a + b, f) == Where(a, f) + Where(b, f)
  {
    if a == [] {
      assert a + b == b;
    } else {
      assert (a + b)[1..] == a[1..] + b;
      WhereAppend(a[1..], b, f);
    }
  }

  /** The total of two tables laid end to end is the sum of their totals. */
  lemma {:induction false} TotalAppend(a: seq<Row>, b: seq<Row>)
    ensures Total(a + b) == Total(a) + Total(b)
  {
    if a == [] {
      assert a + b == b;
    } else {
      assert (a + b)[1..] == a[1..] + b;
      TotalAppend(a[1..], b);
    }
  }

  /** Filtering the result of a filter by the same constraints changes nothing. */
  lemma {:induction false} WhereIdempotent(rows: seq<Row>, f: Filter)
    ensures Where(Where(rows, f), f) == Where(rows, f)
  {
    if rows != [] {
      WhereIdempotent(rows[1..], f);
      var rest := Where(rows[1..], f);
      if Matches(rows[0], f) {
        assert ([rows[0]] + rest)[1..] == rest;
      }
    }
  }

  /**
   * AND-lookup: when row `i` is the first to match, `first()` returns it.
   */
  lemma {:induction false} FirstMatch(rows: seq<Row>, f: Filter, i: nat)
    requires i < |rows| && Matches(rows[i], f)
    requires forall j :: 0 <= j < i ==> !Matches(rows[j], f)
    ensures First(Where(rows, f)) == Some(rows[i])
  {
    if i > 0 {
      FirstMatch(rows[1..], f, i - 1);
    }
  }

  /** `first()` finds nothing exactly when no row matches. */
  lemma NoMatch(rows: seq<Row>, f: Filter)
    ensures First(Where(rows, f)) == None <==> forall j :: 0 <= j < |rows| ==> !Matches(rows[j], f)
  {
    if First(Where(rows, f)) != None {
      var x := Where(rows, f)[0];
      assert x in Where(rows, f);
    }
  }

  /**
   * The session balance written independently of the query: every row contributes
   * its amount when it belongs to the session and nothing otherwise.
   */
  function Balance(rows: seq<Row>, session: string): int
  {
    if rows == [] then 0
    else (if Matches(rows[0], BySession(session)) then rows[0].amount else 0) + Balance(rows[1..], session)
  }

  /** Summing the filtered rows is the session balance. */
  lemma {:induction false} TotalWhereIsBalance(rows: seq<Row>, session: string)
    ensures Total(Where(rows, BySession(session))) == Balance(rows, session)
  {
    if rows != [] {
      TotalWhereIsBalance(rows[1..], session);
      var rest := Where(rows[1..], BySession(session));
      if Matches(rows[0], BySession(session)) {
        assert ([rows[0]] + rest)[1..] == rest;
      }
    }
  }
}
