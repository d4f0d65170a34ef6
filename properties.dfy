/**
 * What the routes promise across calls: the sign rule, session issuance and reuse,
 * session isolation, the AND-masked lookup, the balance, and the scenarios of the
 * integration tests.
 */
module Properties {
  import opened Wrappers
  import opened Schema
  import opened Session
  import opened Store
  import opened Routes

  // ---------------------------------------------------------------------------
  // Create

  /** The reply and the table after a well-formed body arrives under an existing session. */
  lemma PostUnderSession(rows: seq<Row>, b: Body, session: string, freshSession: string, freshId: string, now: string)
    requires session != ""
    ensures var rec := Record(freshId, b.title, SignedAmount(b.amount, b.kind), session);
      Post(rows, Encode(b), Some(session), freshSession, freshId, now) ==
        Outcome(Created(rec, None), rows + [StoredRow(rec, now)])
  {
    ParseEncode(b);
  }

  /** A credit stores the magnitude as sent, a debit its negation; the reply agrees. */
  lemma SignRule(rows: seq<Row>, title: string, m: int, kind: Kind, cookie: Option<string>, freshSession: string, freshId: string, now: string)
    ensures var o := Post(rows, Encode(Body(title, m, kind)), cookie, freshSession, freshId, now);
      o.response.Created? && |o.table| == |rows| + 1 &&
      o.table[|rows|].amount == o.response.record.amount &&
      (kind == Credit ==> o.response.record.amount == m) &&
      (kind == Debit ==> o.response.record.amount == -m)
  {
    ParseEncode(Body(title, m, kind));
  }

  /** The sign is not checked: a debit of a negative magnitude stores a positive amount. */
  lemma NegativeDebitStoresPositive(rows: seq<Row>, cookie: Option<string>, freshSession: string, freshId: string, now: string)
    ensures var o := Post(rows, Encode(Body("refund", -5, Debit)), cookie, freshSession, freshId, now);
      o.response.Created? && o.response.record.amount == 5
  {
    ParseEncode(Body("refund", -5, Debit));
  }

  /**
   * Without a session cookie the create route issues `freshSession`: the row is filed
   * under it, the reply sets the `sessionId` cookie for seven days on path `/`, and the
   * gate then lets that cookie through to a ledger holding exactly the new row.
   */
  lemma IssuesSession(rows: seq<Row>, body: Json, cookie: Option<string>, freshSession: string, freshId: string, now: string)
    requires ParseBody(body).Success? && !Present(cookie)
    requires IsUuid(freshSession) && SessionUnused(rows, freshSession)
    ensures var o := Post(rows, body, cookie, freshSession, freshId, now);
      o.response.setCookie == Some(Cookie("sessionId", freshSession, "/", 604800)) &&
      o.response.record.sessionId == freshSession &&
      ListSession(o.table, Some(freshSession)) == Transactions([StoredRow(o.response.record, now)])
  {
    var o := Post(rows, body, cookie, freshSession, freshId, now);
    UuidShape(freshSession);
    WhereAppend(rows, [StoredRow(o.response.record, now)], BySession(freshSession));
    NoRowsOfUnusedSession(rows, freshSession);
  }

  /** A session no row belongs to has an empty ledger. */
  lemma NoRowsOfUnusedSession(rows: seq<Row>, session: string)
    requires SessionUnused(rows, session)
    ensures Where(rows, BySession(session)) == []
  {
    NoMatch(rows, BySession(session));
  }

  /** With a session cookie the create route files the row under it and sets no cookie. */
  lemma ReusesSession(rows: seq<Row>, body: Json, session: string, freshSession: string, freshId: string, now: string)
    requires ParseBody(body).Success? && session != ""
    ensures var o := Post(rows, body, Some(session), freshSession, freshId, now);
      o.response.setCookie == None && o.response.record.sessionId == session &&
      o.table[|rows|].sessionId == Some(session)
  {
  }

  /**
   * The reply of the create route is the row it inserted: its id, title, signed amount
   * and session id, with the title and magnitude taken from the body.
   */
  lemma CreatedIsInserted(rows: seq<Row>, body: Json, cookie: Option<string>, freshSession: string, freshId: string, now: string)
    requires ParseBody(body).Success?
    ensures var o := Post(rows, body, cookie, freshSession, freshId, now);
      var b := ParseBody(body).value;
      Status(o.response) == 201 &&
      o.table[..|rows|] == rows &&
      o.table[|rows|] == Row(freshId, b.title, SignedAmount(b.amount, b.kind), now, Some(o.response.record.sessionId)) &&
      o.response.record == Record(freshId, b.title, SignedAmount(b.amount, b.kind), o.response.record.sessionId)
  {
    var o := Post(rows, body, cookie, freshSession, freshId, now);
    assert o.table[..|rows|] == rows;
  }

  /** An invalid body is a 400 with its issues: no row, no cookie, the table untouched. */
  lemma RejectsInvalidBody(rows: seq<Row>, body: Json, cookie: Option<string>, freshSession: string, freshId: string, now: string)
    requires !ParseBody(body).Success?
    ensures var o := Post(rows, body, cookie, freshSession, freshId, now);
      Status(o.response) == 400 && o.table == rows && o.response.issues != []
  {
  }

  /** A body whose `type` is neither "credit" nor "debit" is rejected whatever else it holds. */
  lemma RejectsUnknownType(rows: seq<Row>, title: string, m: int, t: string, cookie: Option<string>, freshSession: string, freshId: string, now: string)
    requires t != "credit" && t != "debit"
    ensures var o := Post(rows, JObj(map["title" := JStr(title), "amount" := JNum(m), "type" := JStr(t)]), cookie, freshSession, freshId, now);
      o.response == Invalid([Type]) && o.table == rows
  {
    var f := map["title" := JStr(title), "amount" := JNum(m), "type" := JStr(t)];
    assert Get(f, "title") == Some(JStr(title));
    assert Get(f, "amount") == Some(JNum(m));
    assert Get(f, "type") == Some(JStr(t));
  }

  /** A body whose `amount` is a string is rejected whatever else it holds. */
  lemma RejectsNonNumericAmount(rows: seq<Row>, title: string, a: string, kind: Kind, cookie: Option<string>, freshSession: string, freshId: string, now: string)
    ensures var o := Post(rows, JObj(map["title" := JStr(title), "amount" := JStr(a), "type" := JStr(KindName(kind))]), cookie, freshSession, freshId, now);
      o.response == Invalid([Amount]) && o.table == rows
  {
    var f := map["title" := JStr(title), "amount" := JStr(a), "type" := JStr(KindName(kind))];
    assert Get(f, "title") == Some(JStr(title));
    assert Get(f, "amount") == Some(JStr(a));
    assert Get(f, "type") == Some(JStr(KindName(kind)));
  }

  // ---------------------------------------------------------------------------
  // Session isolation

  /** Narrowing a filtered table by stronger constraints is filtering the table by them. */
  lemma {:induction false} WhereNarrow(rows: seq<Row>, f: Filter, g: Filter)
    requires forall x :: Matches(x, g) ==> Matches(x, f)
    ensures Where(Where(rows, f), g) == Where(rows, g)
  {
    if rows != [] {
      WhereNarrow(rows[1..], f, g);
      var rest := Where(rows[1..], f);
      if Matches(rows[0], f) {
        assert ([rows[0]] + rest)[1..] == rest;
      }
    }
  }

  /**
   * Every session-scoped reply for a session is determined by that session's own rows:
   * it is the same when all other sessions' rows are removed from the table.
   */
  lemma SessionView(rows: seq<Row>, session: string, id: string)
    requires session != ""
    ensures var mine := Where(rows, BySession(session));
      ListSession(rows, Some(session)) == ListSession(mine, Some(session)) &&
      GetById(rows, Some(session), id) == GetById(mine, Some(session), id) &&
      GetSummary(rows, Some(session)) == GetSummary(mine, Some(session))
  {
    WhereIdempotent(rows, BySession(session));
    WhereNarrow(rows, BySession(session), ByIdAndSession(id, session));
  }

  /** A session's list never holds a row of another session, nor a row without one. */
  lemma ListIsolated(rows: seq<Row>, session: string, other: Option<string>, k: nat)
    requires session != "" && other != Some(session)
    requires ListSession(rows, Some(session)).Transactions? && k < |ListSession(rows, Some(session)).rows|
    ensures ListSession(rows, Some(session)).rows[k].sessionId != other
  {
    assert ListSession(rows, Some(session)).rows[k] in ListSession(rows, Some(session)).rows;
  }

  /** A session's list is the table's own rows of that session, in table order. */
  lemma ListInTableOrder(rows: seq<Row>, session: string)
    requires session != ""
    ensures IsSubsequence(ListSession(rows, Some(session)).rows, ListAll(rows).rows)
  {
    WhereKeepsOrder(rows, BySession(session));
  }

  /**
   * Creating a row changes no reply another session gets, whether the row is filed under
   * the caller's cookie or under a newly issued session.
   */
  lemma CreateInvisibleToOthers(rows: seq<Row>, body: Json, cookie: Option<string>, freshSession: string, other: string, id: string, freshId: string, now: string)
    requires other != "" && other != (if Present(cookie) then cookie.value else freshSession)
    ensures var t := Post(rows, body, cookie, freshSession, freshId, now).table;
      ListSession(t, Some(other)) == ListSession(rows, Some(other)) &&
      GetSummary(t, Some(other)) == GetSummary(rows, Some(other)) &&
      GetById(t, Some(other), id) == GetById(rows, Some(other), id)
  {
    var o := Post(rows, body, cookie, freshSession, freshId, now);
    if o.response.Created? {
      var row := [StoredRow(o.response.record, now)];
      WhereAppend(rows, row, BySession(other));
      WhereAppend(rows, row, ByIdAndSession(id, other));
      assert Where(row, BySession(other)) == [];
      assert Where(row, ByIdAndSession(id, other)) == [];
      assert rows + [] == rows;
      assert Where(rows, BySession(other)) + [] == Where(rows, BySession(other));
      assert Where(rows, ByIdAndSession(id, other)) + [] == Where(rows, ByIdAndSession(id, other));
    }
  }

  /** Creating a row under a session appends it to that session's list. */
  lemma CreateExtendsOwnList(rows: seq<Row>, body: Json, session: string, freshId: string, now: string)
    requires session != "" && ParseBody(body).Success?
    ensures var o := Post(rows, body, Some(session), "", freshId, now);
      ListSession(o.table, Some(session)).rows ==
        ListSession(rows, Some(session)).rows + [StoredRow(o.response.record, now)]
  {
    var o := Post(rows, body, Some(session), "", freshId, now);
    var row := [StoredRow(o.response.record, now)];
    WhereAppend(rows, row, BySession(session));
    assert Where(row, BySession(session)) == row;
  }

  // ---------------------------------------------------------------------------
  // Get by id

  /**
   * An id that exists only under other sessions is answered exactly like an id that
   * does not exist at all: 404 in both cases.
   */
  lemma ForeignIdMasked(rows: seq<Row>, session: string, id: string)
    requires session != "" && IsUuid(id)
    requires forall x :: x in rows && x.id == id ==> x.sessionId != Some(session)
    ensures GetById(rows, Some(session), id) == NotFound
    ensures GetById(rows, Some(session), id) == GetById(Where(rows, BySession(session)), Some(session), id)
  {
    SessionView(rows, session, id);
  }

  /**
   * Every id the create route stores passes the params schema unchanged, so no stored row
   * is out of reach of the lookup.
   */
  lemma StoredIdsPassSchema(rows: seq<Row>, i: nat)
    requires Wellformed(rows) && i < |rows|
    ensures ParseId(rows[i].id) == Success(rows[i].id)
  {
  }

  /** In a table built by the create route, each row is found by its id from its own session. */
  lemma FindsOwnRow(rows: seq<Row>, i: nat)
    requires Wellformed(rows) && i < |rows|
    ensures GetById(rows, rows[i].sessionId, rows[i].id) == Transaction(rows[i])
  {
    var f := ByIdAndSession(rows[i].id, rows[i].sessionId.value);
    forall j | 0 <= j < i
      ensures !Matches(rows[j], f)
    {
      assert rows[j].id != rows[i].id;
    }
    FirstMatch(rows, f, i);
  }

  /** When several rows match, the lookup returns the earliest in table order. */
  lemma GetReturnsFirstMatch(rows: seq<Row>, session: string, id: string, i: nat)
    requires session != "" && IsUuid(id) && i < |rows|
    requires rows[i].id == id && rows[i].sessionId == Some(session)
    requires forall j :: 0 <= j < i ==> !(rows[j].id == id && rows[j].sessionId == Some(session))
    ensures GetById(rows, Some(session), id) == Transaction(rows[i])
  {
    FirstMatch(rows, ByIdAndSession(id, session), i);
  }

  // ---------------------------------------------------------------------------
  // Summary and the unscoped list

  /** The summary total is the session's balance whenever the session has rows. */
  lemma SummaryIsBalance(rows: seq<Row>, session: string)
    requires session != ""
    requires exists x :: x in rows && x.sessionId == Some(session)
    ensures GetSummary(rows, Some(session)) == Summary(Some(Balance(rows, session)))
  {
    TotalWhereIsBalance(rows, session);
  }

  /** The total is NULL exactly when the session has no rows. */
  lemma SummaryNullIffNoRows(rows: seq<Row>, session: string)
    requires session != ""
    ensures GetSummary(rows, Some(session)).total.None? <==>
      forall i :: 0 <= i < |rows| ==> rows[i].sessionId != Some(session)
  {
    var mine := Where(rows, BySession(session));
    if mine != [] {
      assert mine[0] in mine;
      var i :| 0 <= i < |rows| && rows[i] == mine[0];
      assert rows[i].sessionId == Some(session);
    }
    if i :| 0 <= i < |rows| && rows[i].sessionId == Some(session) {
      assert rows[i] in mine;
    }
  }

  /** A create under a session moves its balance by exactly the signed amount. */
  lemma CreateMovesBalance(rows: seq<Row>, title: string, m: int, kind: Kind, session: string, freshId: string, now: string)
    requires session != ""
    ensures var t := Post(rows, Encode(Body(title, m, kind)), Some(session), "", freshId, now).table;
      GetSummary(t, Some(session)) == Summary(Some(Balance(rows, session) + SignedAmount(m, kind)))
  {
    PostUnderSession(rows, Body(title, m, kind), session, "", freshId, now);
    SummaryAppend(rows, StoredRow(Record(freshId, title, SignedAmount(m, kind), session), now), session);
  }

  /** Appending a row of the session adds its amount to the session's total. */
  lemma SummaryAppend(rows: seq<Row>, row: Row, session: string)
    requires session != "" && row.sessionId == Some(session)
    ensures GetSummary(rows + [row], Some(session)) == Summary(Some(Balance(rows, session) + row.amount))
  {
    var f := BySession(session);
    var mine := Where(rows, f);
    WhereAppend(rows, [row], f);
    assert Where([row], f) == [row];
    SummaryOfFiltered(rows + [row], session, mine + [row]);
    TotalWhereIsBalance(rows, session);
    SqlSumSnoc(mine, row, Balance(rows, session));
  }

  /** The summary reply is the SQL sum over the given filtered rows of the session. */
  lemma SummaryOfFiltered(rows: seq<Row>, session: string, mine: seq<Row>)
    requires session != "" && mine == Where(rows, BySession(session))
    ensures GetSummary(rows, Some(session)) == Summary(SqlSum(mine))
  {
  }

  /** The SQL sum of a non-empty table ending in `row` is the earlier rows' total plus its amount. */
  lemma SqlSumSnoc(mine: seq<Row>, row: Row, total: int)
    requires Total(mine) == total
    ensures SqlSum(mine + [row]) == Some(total + row.amount)
  {
    TotalAppend(mine, [row]);
    assert [row][1..] == [];
  }

  /** The unscoped list holds every row of every session's list. */
  lemma MasterCoversSessions(rows: seq<Row>, cookie: Option<string>, x: Row)
    requires ListSession(rows, cookie).Transactions? && x in ListSession(rows, cookie).rows
    ensures x in ListAll(rows).rows
  {
  }

  // ---------------------------------------------------------------------------
  // Scenarios of the integration tests

  /**
   * POST a credit of 5000 with no cookie: 201, then listing with the issued cookie gives
   * that one row, with its title and amount, and fetching it by id gives it again.
   */
  lemma ScenarioCreateListGet(freshSession: string, freshId: string, now: string)
    requires IsUuid(freshSession) && IsUuid(freshId)
    ensures var o := Post([], Encode(Body("New Transaction", 5000, Credit)), None, freshSession, freshId, now);
      var row := Row(freshId, "New Transaction", 5000, now, Some(freshSession));
      Status(o.response) == 201 &&
      o.response.setCookie == Some(Issue(freshSession)) &&
      ListSession(o.table, Some(freshSession)) == Transactions([row]) &&
      GetById(o.table, Some(freshSession), freshId) == Transaction(row)
  {
    var body := Encode(Body("New Transaction", 5000, Credit));
    ParseEncode(Body("New Transaction", 5000, Credit));
    IssuesSession([], body, None, freshSession, freshId, now);
    var o := Post([], body, None, freshSession, freshId, now);
    PostPreservesWellformed([], body, None, freshSession, freshId, now);
    FindsOwnRow(o.table, 0);
  }

  /** Two credits of 123 and 456 under one session: the summary total is 579. */
  lemma ScenarioSummary(freshSession: string, id1: string, id2: string, now1: string, now2: string)
    requires IsUuid(freshSession)
    ensures var o1 := Post([], Encode(Body("First Transaction", 123, Credit)), None, freshSession, id1, now1);
      var o2 := Post(o1.table, Encode(Body("Second Transaction", 456, Credit)), Some(freshSession), "", id2, now2);
      GetSummary(o2.table, Some(freshSession)) == Summary(Some(579))
  {
    UuidShape(freshSession);
    ParseEncode(Body("First Transaction", 123, Credit));
    var o1 := Post([], Encode(Body("First Transaction", 123, Credit)), None, freshSession, id1, now1);
    assert o1.table == [Row(id1, "First Transaction", 123, now1, Some(freshSession))];
    assert Balance(o1.table, freshSession) == 123;
    CreateMovesBalance(o1.table, "Second Transaction", 456, Credit, freshSession, id2, now2);
  }

  /** A session with no rows gets a NULL total. */
  lemma ScenarioEmptySummary(session: string)
    requires session != ""
    ensures GetSummary([], Some(session)) == Summary(None)
  {
  }

  /** A malformed id is a 400 on any table: the lookup is never reached. */
  lemma ScenarioMalformedId(rows: seq<Row>, session: string)
    requires session != ""
    ensures GetById(rows, Some(session), "not-a-uuid") == Invalid([Id])
  {
    assert |"not-a-uuid"| == 10;
  }
}
