/**
 * The transaction routes. The four GET handlers are queries over the table and are
 * written as functions; POST `/` appends to the table and is a method of `Ledger`,
 * the object that owns the table, specified by the function `Post`.
 */
module Routes {
  import opened Wrappers
  import opened Schema
  import opened Session
  import opened Store

  /** The transaction object built by the create route, inserted and sent back. */
  datatype Record = Record(id: string, title: string, amount: int, sessionId: string)

  /** A reply: its body, with the cookie it sets, or the error it reports. */
  datatype Response =
    | Transactions(rows: seq<Row>)
    | Transaction(row: Row)
    | Summary(total: Option<int>)
    | Created(record: Record, setCookie: Option<Cookie>)
    | Unauthorized
    | Invalid(issues: seq<Field>)
    | NotFound

  /** The HTTP status of a reply. */
  function Status(r: Response): int
  {
    match r
    case Created(_, _) => 201
    case Unauthorized => 401
    case Invalid(_) => 400
    case NotFound => 404
    case _ => 200
  }

  /**
   * The stored amount: the magnitude for a credit, its negation for a debit. Its size is
   * always the input's; its sign encodes the direction whenever the input is positive.
   */
  function SignedAmount(amount: int, kind: Kind): (r: int)
    ensures (if r < 0 then -r else r) == (if amount < 0 then -amount else amount)
    ensures amount > 0 ==> (r > 0 <==> kind.Credit?)
    ensures amount > 0 ==> (r < 0 <==> kind.Debit?)
  {
    if kind == Credit then amount else -amount
  }

  /** The row the table holds for an inserted record; `created_at` is the store's clock. */
  function StoredRow(rec: Record, now: string): Row
  {
    Row(rec.id, rec.title, rec.amount, now, Some(rec.sessionId))
  }

  /** GET `/`: the rows of the caller's session, behind the session gate. */
  function ListSession(rows: seq<Row>, cookie: Option<string>): (r: Response)
    ensures !Present(cookie) ==> r == Unauthorized
    ensures Present(cookie) ==> r.Transactions?
    ensures r.Transactions? ==> forall x :: x in r.rows <==> x in rows && x.sessionId == cookie
  {
    match Gate(cookie)
    case None => Unauthorized
    case Some(session) => Transactions(Where(rows, BySession(session)))
  }

  /** GET `/master`: every row, with no session gate. */
  function ListAll(rows: seq<Row>): (r: Response)
    ensures r.Transactions? && |r.rows| == |rows|
    ensures forall x :: x in r.rows <==> x in rows
  {
    Transactions(rows)
  }

  /**
   * GET `/:id`: the gate, then the params schema, then the first row matching both the
   * id and the caller's session, or 404.
   */
  function GetById(rows: seq<Row>, cookie: Option<string>, id: string): (r: Response)
    ensures !Present(cookie) ==> r == Unauthorized
    ensures Present(cookie) && !IsUuid(id) ==> r == Invalid([Id])
    ensures r.Unauthorized? ==> !Present(cookie)
    ensures r.Invalid? ==> Present(cookie) && !IsUuid(id)
    ensures r.Transaction? ==> r.row in rows && r.row.id == id && r.row.sessionId == cookie
    ensures r.NotFound? <==>
      Present(cookie) && IsUuid(id) && forall x :: x in rows ==> !(x.id == id && x.sessionId == cookie)
    ensures r.Unauthorized? || r.Invalid? || r.Transaction? || r.NotFound?
  {
    match Gate(cookie)
    case None => Unauthorized
    case Some(session) =>
      match ParseId(id)
      case Failure(issues) => Invalid(issues)
      case Success(key) =>
        match First(Where(rows, ByIdAndSession(key, session)))
        case None => NotFound
        case Some(row) =>
          assert row in Where(rows, ByIdAndSession(key, session));
          Transaction(row)
  }

  /** GET `/summary`: `{ total }`, the sum of the session's amounts, NULL over no rows. */
  function GetSummary(rows: seq<Row>, cookie: Option<string>): (r: Response)
    ensures !Present(cookie) ==> r == Unauthorized
    ensures Present(cookie) ==> r.Summary?
  {
    if !Present(cookie) then Unauthorized
    else
      Summary(SqlSum(Where(rows, BySession(cookie.value))))
  }

  /** What the create route replies and what the table holds afterwards. */
  datatype Outcome = Outcome(response: Response, table: seq<Row>)

  /**
   * POST `/` as a function of the table: validate the body, reuse the session cookie
   * or issue `freshSession`, sign the amount, and append one row with id `freshId`.
   */
  function Post(rows: seq<Row>, body: Json, cookie: Option<string>, freshSession: string, freshId: string, now: string): (o: Outcome)
    ensures o.response.Created? <==> ParseBody(body).Success?
    ensures o.response.Invalid? <==> ParseBody(body).Failure?
    ensures ParseBody(body).Failure? ==> o == Outcome(Invalid(ParseBody(body).error), rows)
    ensures o.response.Created? ==>
      o.table == rows + [StoredRow(o.response.record, now)] && o.response.record.id == freshId
  {
    match ParseBody(body)
    case Failure(issues) => Outcome(Invalid(issues), rows)
    case Success(b) =>
      var session := if Present(cookie) then cookie.value else freshSession;
      var setCookie := if Present(cookie) then None else Some(Issue(freshSession));
      var record := Record(freshId, b.title, SignedAmount(b.amount, b.kind), session);
      Outcome(Created(record, setCookie), rows + [StoredRow(record, now)])
  }

  /** No row carries `id`. */
  predicate IdUnused(rows: seq<Row>, id: string)
  {
    forall i :: 0 <= i < |rows| ==> rows[i].id != id
  }

  /** No row belongs to `session`. */
  predicate SessionUnused(rows: seq<Row>, session: string)
  {
    forall i :: 0 <= i < |rows| ==> rows[i].sessionId != Some(session)
  }

  /**
   * What every table built by the create route satisfies: ids are distinct UUIDs and
   * every row carries a session id the gate would let through.
   */
  predicate Wellformed(rows: seq<Row>)
  {
    (forall i, j :: 0 <= i < j < |rows| ==> rows[i].id != rows[j].id) &&
    (forall i :: 0 <= i < |rows| ==> IsUuid(rows[i].id) && Present(rows[i].sessionId))
  }

  /** Create keeps the table well-formed when its ids come fresh from the generator. */
  lemma PostPreservesWellformed(rows: seq<Row>, body: Json, cookie: Option<string>, freshSession: string, freshId: string, now: string)
    requires Wellformed(rows)
    requires IsUuid(freshId) && IdUnused(rows, freshId)
    requires !Present(cookie) ==> IsUuid(freshSession)
    ensures Wellformed(Post(rows, body, cookie, freshSession, freshId, now).table)
  {
    if !Present(cookie) {
      UuidShape(freshSession);
    }
  }

  /** The table behind the routes; only the create route changes it. */
  class Ledger {
    var rows: seq<Row>

    ghost predicate Valid()
      reads this
    {
      Wellformed(rows)
    }

    /** The freshly migrated, empty table. */
    constructor ()
      ensures Valid() && rows == []
    {
      rows := [];
    }

    /**
     * POST `/`. `freshSession` and `freshId` are what the UUID generator returns, `now`
     * what the store's clock stamps into `created_at`.
     */
    method Create(body: Json, cookie: Option<string>, freshSession: string, freshId: string, now: string)
      returns (res: Response)
      requires Valid()
      requires IsUuid(freshId) && IdUnused(rows, freshId)
      requires !Present(cookie) ==> IsUuid(freshSession) && SessionUnused(rows, freshSession)
      modifies this
      ensures Valid()
      ensures res == Post(old(rows), body, cookie, freshSession, freshId, now).response
      ensures rows == Post(old(rows), body, cookie, freshSession, freshId, now).table
      ensures res.Created? && !Present(cookie) ==>
        ListSession(rows, Some(freshSession)) == Transactions([StoredRow(res.record, now)])
    {
      var parsed := ParseBody(body);
      if parsed.Failure? {
        return Invalid(parsed.error);
      }
      var b := parsed.value;
      var sessionId := cookie;
      var setCookie: Option<Cookie> := None;
      if !Present(sessionId) {
        sessionId := Some(freshSession);
        setCookie := Some(Issue(freshSession));
      }
      var record := Record(freshId, b.title, SignedAmount(b.amount, b.kind), sessionId.value);
      ghost var o := Post(rows, body, cookie, freshSession, freshId, now);
      assert o == Outcome(Created(record, setCookie), rows + [StoredRow(record, now)]);
      PostPreservesWellformed(rows, body, cookie, freshSession, freshId, now);
      if !Present(cookie) {
        UuidShape(freshSession);
        NoMatch(rows, BySession(freshSession));
        WhereAppend(rows, [StoredRow(record, now)], BySession(freshSession));
      }
      rows := rows + [StoredRow(record, now)];
      res := Created(record, setCookie);
    }
  }
}
