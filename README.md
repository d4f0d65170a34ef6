# Session-scoped transaction ledger

A model of the transaction routes of a small personal-finance API. Clients create transactions
and list them under an anonymous session, which a `sessionId` cookie identifies. They can also
fetch one transaction by id and ask for the balance of their session. The database table
`transactions` is modelled as a sequence of rows in insertion order. The query-builder calls the
routes make (`where`, `select`, `first`, `sum`, `insert`) are functions over that sequence, with
their SQL meanings.

- `wrappers.dfy`: `Option` and `Result`.
- `session.dfy`: the cookie's truthiness test, the cookie the create route issues (name
  `sessionId`, path `/`, max-age 604800 seconds), and the session gate.
- `schema.dfy`: the create route's body schema, the get-by-id route's params schema, and the UUID
  format that schema checks.
- `store.dfy`: the `Row` type, AND-combined equality filters, first match, SQL `SUM` (NULL over no
  rows), and their lemmas: order, multiplicity, append, first match, the session balance.
- `routes.dfy`: replies and their HTTP statuses, the four GET handlers as functions, the create
  route as the function `Post`, and the class `Ledger`. `Ledger` owns the table. Its method
  `Create` appends the new row imperatively and is proved equal to `Post`.
- `properties.dfy`: the sign rule, session issue and reuse, session isolation, the masked lookup,
  summaries, and the scenarios of the integration tests.

The inputs that are nondeterministic or come from outside are parameters:
- the two values `randomUUID()` returns (`freshSession`, `freshId`);
- the database's `created_at` timestamp (`now`);
- the request cookie (`Option<string>`);
- the decoded JSON body (`Json`).

`Create` requires the generated row id to be a UUID that no row already uses. When it issues a
session, it also requires the new session id to be a UUID that no row uses. Under these
requirements every table `Create` builds from the empty table is `Wellformed`:
- its ids are distinct UUIDs;
- every row carries a session id that the gate accepts.

Where the code and the design description differ, the model follows the code:
- `amount` is any number. The sign of the magnitude is not checked, so a debit of `-5` stores
  `+5` (`NegativeDebitStoresPositive`).
- `title` is any string, the empty string included.
- The summary of a session with no rows has a NULL `total`. It is not normalised to 0.
- `if (!sessionId)` follows JavaScript truthiness, so an empty cookie counts as absent. The create
  route then issues a new session.

## Model

| member | source | states |
|---|---|---|
| Session.Issue | src/routes/transactions.ts:86-92 | the issued cookie is named `sessionId`, carries the new id, has path `/` and max-age 604800 s (seven days) |
| Session.Present | src/routes/transactions.ts:86 | JavaScript truthiness of the cookie: a present cookie has a non-empty value, and the empty cookie counts as absent |
| Session.Gate | src/routes/transactions.ts:11-13 | a session-scoped request passes the gate exactly when its cookie is present and non-empty, and then carries that cookie's token |
| Schema.ParseKind | src/routes/transactions.ts:79 | `type` parses to Credit exactly for "credit" and to Debit exactly for "debit" |
| Schema.ParseBody | src/routes/transactions.ts:76-82 | a non-object body is one root issue; an object succeeds iff `title` is a string, `amount` a number and `type` a valid enum value, and then the result carries those values; on failure each field is reported iff it is invalid |
| Schema.ParseEncode | src/routes/transactions.ts:76-82 | parsing the body a client sends for a record gives back that record |
| Schema.ParseIgnoresUnknownKeys | src/routes/transactions.ts:76-80 | keys outside the schema never change the parse outcome |
| Schema.ParseId | src/routes/transactions.ts:37-41 | the id parameter is accepted iff it is a UUID, and then unchanged; otherwise one issue at `id` |
| Schema.UuidShape | src/routes/transactions.ts:38 | every accepted UUID is 36 characters with hyphens at positions 8, 13, 18 and 23 |
| Store.Where | src/routes/transactions.ts:17-19 | the filtered rows are exactly the table's rows that satisfy every equality constraint, and no more of them than the table has |
| Store.WhereCounts | src/routes/transactions.ts:17-19 | each matching row occurs in the result exactly as often as in the table; non-matching rows never occur |
| Store.WhereKeepsOrder | src/routes/transactions.ts:17-19 | the result is a subsequence of the table: table order is kept |
| Store.WhereAppend | src/routes/transactions.ts:17-19 | filtering distributes over appending to the table |
| Store.WhereIdempotent | src/routes/transactions.ts:17-19 | filtering twice by the same constraints equals filtering once |
| Store.First | src/routes/transactions.ts:46 | `first()` gives nothing exactly on an empty result, otherwise the result's first row |
| Store.SqlSum | src/routes/transactions.ts:67 | `SUM` is NULL exactly over no rows, otherwise the total of the amounts |
| Store.FirstMatch | src/routes/transactions.ts:44-46 | `first()` after `where` returns the earliest row matching all constraints |
| Store.NoMatch | src/routes/transactions.ts:44-48 | `first()` finds nothing exactly when no row matches |
| Store.TotalAppend | src/routes/transactions.ts:65-68 | the sum over two tables laid end to end is the sum of their sums |
| Store.TotalWhereIsBalance | src/routes/transactions.ts:65-68 | summing the session's filtered rows equals the balance computed row by row over the whole table |
| Routes.SignedAmount | src/routes/transactions.ts:98 | the stored amount keeps the input's magnitude; for a positive input it is positive exactly for a credit and negative exactly for a debit |
| Routes.ListAll | src/routes/transactions.ts:25-28 | no gate: the reply lists every row of the table, of any session or none, as many as the table has |
| Routes.ListSession | src/routes/transactions.ts:15-20 | without a cookie the reply is Unauthorized; otherwise it lists exactly the rows whose `session_id` equals the cookie |
| Routes.GetById | src/routes/transactions.ts:37-52 | the gate first (401 exactly without a cookie), then the id schema (400 exactly with a cookie and a non-UUID id, on any table), then a row with that id and session taken from the table, or 404 exactly when no row matches both |
| Routes.GetSummary | src/routes/transactions.ts:57-71 | 401 exactly without a cookie, otherwise a summary reply; its own contract gives only that shape, and the total is stated by Properties.SummaryIsBalance and Properties.SummaryNullIffNoRows |
| Routes.Post | src/routes/transactions.ts:75-105 | the reply is Created iff the body is valid; an invalid body leaves the table unchanged with its issues; a created reply appends exactly the returned record, with the generated id |
| Routes.PostPreservesWellformed | src/routes/transactions.ts:95-102 | with generated UUIDs, create keeps ids distinct UUIDs and every row's session id present |
| Routes.Ledger.constructor | src/test/transactions.spec.ts:19-22 | the freshly migrated table is empty and well-formed |
| Routes.Ledger.Create | src/routes/transactions.ts:75-105 | the reply and the new table are those of `Post` on the old table, and the table stays well-formed; when it issues a session, listing with that session gives exactly the new row |
| Properties.PostUnderSession | src/routes/transactions.ts:84-102 | with a cookie, a valid body yields Created with no cookie set and the table extended by that record's row |
| Properties.SignRule | src/routes/transactions.ts:98 | a credit stores and returns the magnitude unchanged, a debit its negation |
| Properties.NegativeDebitStoresPositive | src/routes/transactions.ts:78-98 | the magnitude's sign is not checked: a debit of -5 is stored as 5 |
| Properties.IssuesSession | src/routes/transactions.ts:84-93 | without a cookie the row is filed under the new session, the reply sets cookie `sessionId` (path `/`, max-age 604800), and listing with that cookie gives exactly the new row |
| Properties.ReusesSession | src/routes/transactions.ts:84-99 | with a cookie the row is filed under it and no cookie is set |
| Properties.CreatedIsInserted | src/routes/transactions.ts:95-104 | status 201; all prior rows unchanged; the appended row and the returned record carry the new id, the body's title and the signed amount |
| Properties.RejectsInvalidBody | src/routes/transactions.ts:76-82 | an invalid body gives status 400 with at least one issue and leaves the table untouched |
| Properties.RejectsUnknownType | src/routes/transactions.ts:79-82 | a `type` other than "credit" or "debit" is rejected with exactly the `type` issue, table untouched |
| Properties.RejectsNonNumericAmount | src/routes/transactions.ts:78-82 | a string `amount` is rejected with exactly the `amount` issue, table untouched |
| Properties.NoRowsOfUnusedSession | src/routes/transactions.ts:17-19 | a session no row belongs to has an empty ledger |
| Properties.WhereNarrow | src/routes/transactions.ts:44-46 | filtering a session's rows by id and session equals filtering the whole table by them |
| Properties.SessionView | src/routes/transactions.ts:15-70 | list, get-by-id and summary replies for a session equal those computed on that session's rows alone |
| Properties.ListIsolated | src/routes/transactions.ts:15-20 | no row of another session, and no row without a session, is ever in a session's list |
| Properties.ListInTableOrder | src/routes/transactions.ts:17-28 | a session's list is a subsequence, in table order, of the unscoped list |
| Properties.CreateInvisibleToOthers | src/routes/transactions.ts:95-102 | a create, under a reused cookie or a newly issued session, changes no list, summary or lookup reply of any other session |
| Properties.CreateExtendsOwnList | src/routes/transactions.ts:95-102 | a create under a session appends the new row to that session's list |
| Properties.ForeignIdMasked | src/routes/transactions.ts:44-50 | an id that exists only under other sessions gives 404, the same reply as on the session's own rows |
| Properties.StoredIdsPassSchema | src/routes/transactions.ts:37-46 | in a well-formed table every stored id passes the params schema unchanged |
| Properties.FindsOwnRow | src/routes/transactions.ts:44-52 | in a well-formed table every row is found by its id from its own session |
| Properties.GetReturnsFirstMatch | src/routes/transactions.ts:44-46 | when several rows match id and session, the earliest is returned |
| Properties.SummaryIsBalance | src/routes/transactions.ts:65-70 | a session with rows gets the sum of its signed amounts as total |
| Properties.SummaryNullIffNoRows | src/routes/transactions.ts:65-70 | the total is NULL exactly when no row belongs to the session |
| Properties.SummaryAppend | src/routes/transactions.ts:65-68 | appending a row of the session adds its amount to the total |
| Properties.CreateMovesBalance | src/routes/transactions.ts:65-102 | a create under a session moves its total by the signed amount |
| Properties.MasterCoversSessions | src/routes/transactions.ts:25-28 | every row of any session's list is in the unscoped list |
| Properties.ScenarioCreateListGet | src/test/transactions.spec.ts:34-95 | credit 5000 with no cookie: 201 with a cookie set, then listing gives that one row with amount 5000, and fetching it by id gives it again |
| Properties.ScenarioSummary | src/test/transactions.spec.ts:98-133 | credits of 123 and 456 under one session give total 579 |
| Properties.ScenarioEmptySummary | src/routes/transactions.ts:65-70 | a session with no rows gets a NULL total |
| Properties.ScenarioMalformedId | src/routes/transactions.ts:37-41 | the id "not-a-uuid" gives 400 on any table |

## Left out

- Fastify routing: static routes such as `/summary` and `/master` take precedence over `/:id`, and that precedence is not modelled. Reply serialisation, cookie parsing, async/await and the database connection are I/O and are left out too. A reply is a value with a status.
- A thrown schema error is modelled as a 400 reply carrying the failing fields (Routes.Status, and `Status(...) == 400` in Properties.RejectsInvalidBody). The 400 follows the design's error table, not the route code: the route lets the validation error propagate, and the error handler that turns it into an HTTP reply is not part of this model. Fastify's default handler would answer 500 for an error without a `statusCode`.
- Store failures (persistence errors) are not modelled: every insert and query succeeds.
- The session middleware's body is not part of this model. The gate is modelled only as "a non-empty cookie is present, otherwise Unauthorized".
- The randomness of UUID generation: generated ids are parameters. The uniqueness `randomUUID()` gives in practice becomes a freshness requirement on `Create`.
- Schema.IsUuid: the params schema's UUID format comes from the validation library, which is not part of this model. It is modelled as 8-4-4-4-12 hexadecimal digits, a version digit 1 to 8 and a variant digit 8, 9, a or b, or the nil or max UUID.
- JavaScript floating-point numbers: `amount` is an unbounded integer, so NaN, infinities, fractions and rounding are absent.
- The value of `created_at`: the database's default timestamp is taken as the parameter `now`.
- Environment loading and configuration (`src/env/index.ts`) carry no ledger logic.
- Concurrent requests: each route is one atomic step on the table.
