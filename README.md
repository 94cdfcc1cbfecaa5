# Emergency incident server — a verified model

This project models the request handlers of the emergency-incident demo
server (`server.py`). A phone client registers consent and gets a bearer
token. With that token it starts an incident, posts location samples, and
stops the incident. The server keeps three tables (incidents, locations,
consents) and reads a fourth (contacts). On the first sample of an incident
it texts every contact with a phone number of the `user_id` named in that
update, provided an SMS client is configured. That `user_id` is checked
neither against the owner recorded when the incident started nor against
the caller's token. Stopping an incident, and asking for
its report, both return the incident's samples in the order they were
stored.

The model is split into modules:

- `Values` (values.dfy): decoded JSON values and Python truthiness, which
  every handler check depends on.
- `Auth` (auth.dfy): the header parsing of `verify_token`. It covers
  `startswith('Bearer ')`, `split(' ', 1)[1]` and `strip()`. The JWT library
  is a `decode` function given to the server.
- `Store` (store.dfy): the table rows and the responses. The SQL queries the
  handlers run become functions over sequences and maps: the row-id choice,
  the `WHERE incident_id=?` selection and its count, the report, the contact
  fetch and the alert list. The facts the handlers rely on are proved as
  lemmas about those functions.
- `Server` (server.dfy): `class Server`. Its fields are the tables, the
  decoder, the contacts table and whether SMS is on. The handlers are methods
  that check the header, then the payload, then update the fields they
  `modifies`.
- `Scenario` (scenario.dfy): one incident from consent to report, written as
  a client of the handlers' contracts.

A second stop does not keep the first stop time: the `UPDATE` at
server.py:124 runs again and overwrites `stopped_at` with the later time
(`Store.StopTwice`, and `Scenario.StopTwice` end to end).

A value that Python's sqlite3 module cannot bind (a JSON array or object)
makes the statement raise, and the client gets a server error. The model
follows each handler to the statement that raises. Nothing is stored when
the first statement fails. An update whose row binds but whose `user_id`
does not is different: its sample is committed before the contacts query
raises, so the sample stays and nobody is alerted (`Scenario.ListOwner`).

Every lookup by id uses SQL's `=`, under which a NULL parameter matches no
row (`Store.SqlEq`). An update with a null `incident_id` is stored, but its
`COUNT(*)` is 0, so it never alerts (`Scenario.NullIncident`). A stop with a
null id changes no incident and reports nothing, and a null `user_id` fetches
no contacts.

## Model

| member | source | states |
|---|---|---|
| Values.Or | server.py:91 | Python `a or b`: `a` when truthy, else `b`; the result is truthy iff either operand is |
| Auth.StripStart | server.py:43 | `lstrip()` returns a suffix that starts with no whitespace, and everything dropped is whitespace |
| Auth.StripEnd | server.py:43 | `rstrip()` returns a prefix that ends with no whitespace, and everything dropped is whitespace |
| Auth.IndexOf | server.py:43 | the first position of the separator, or none when it does not occur (where `split(' ', 1)` cuts) |
| Auth.Strip | server.py:43 | `strip()`; specified by Auth.StripSplits and Auth.StripIdempotent below |
| Auth.BearerToken | server.py:42-43 | the token of a bearer header, or none; specified by Auth.BearerTokenSpec and Auth.BearerRoundTrip below |
| Auth.VerifyToken | server.py:41-48 | the `sub` claim of a token the decoder accepts, or none; specified with Auth.Authorized by Auth.AuthorizedSpec below |
| Auth.Authorized | server.py:66-67 | the handlers' `if not user` test (also server.py:82, 118, 136); specified by Auth.AuthorizedSpec below |
| Auth.StripSplits | server.py:43 | `strip()` yields an infix of its input with only whitespace around it and none at its own ends |
| Auth.StripIdempotent | server.py:43 | stripping an already-stripped token changes nothing |
| Auth.BearerTokenSpec | server.py:42-43 | a header gives a token iff it starts with "Bearer "; the token is then the rest after those 7 characters, stripped |
| Auth.BearerRoundTrip | server.py:42-43 | the client's `'Bearer ' + token` header gives back exactly `token` when the token has no surrounding whitespace |
| Auth.AuthorizedSpec | server.py:41-48 | a caller is authorized iff the header starts with "Bearer " and the decoder accepts the stripped token with a truthy `sub` claim |
| Store.FieldsPresent | server.py:53 | passing each handler's payload check means every required key is in the payload |
| Store.Missing | server.py:84-85 | each handler's `not data or ... not in data` check (also server.py:53, 69, 120); specified by Store.FieldsPresent |
| Store.Bindable | server.py:90-91 | the JSON values sqlite3 binds as parameters: null, booleans, numbers and strings; the handlers' contracts give the server error for the rest |
| Store.SampleBindable | server.py:90-91 | every value of the row an update inserts binds; Server.Server.Update answers a server error and stores nothing otherwise |
| Store.Sample | server.py:90-91 | the row an update stores: its incident, lat, lon and timestamp from the payload and the accuracy of Store.AccuracyOf; Scenario.FirstSample shows it under row id 1 |
| Store.AccuracyOf | server.py:91 | the stored accuracy is the client's value when present and truthy, and 0.0 otherwise |
| Store.MaxId | server.py:24 | the largest row id in use bounds every row id and is one of them |
| Store.NextRowId | server.py:90 | a new location row gets a positive id larger than every id in use |
| Store.AppendKeepsIncreasing | server.py:90 | appending a row under the next row id keeps ids strictly increasing along the table |
| Store.SqlEq | server.py:95 | SQL's `=` against a bound parameter: equal values match unless the parameter is null, which matches nothing; used by every lookup by id (also server.py:99, 124, 126, 140) |
| Store.Select | server.py:126 | `WHERE incident_id=?` keeps exactly the rows whose id matches under SQL's `=`, so none for a null id |
| Store.CountIsSelectLength | server.py:95-96 | `COUNT(*)` of an incident is the number of rows the selection keeps |
| Store.Count | server.py:95-96 | `SELECT COUNT(*)`; specified by Store.CountIsSelectLength, Store.CountAppend and Store.FirstSample |
| Store.SelectAppend | server.py:90 | after an insert, the selection of the row's incident gains that row at the end; others are unchanged |
| Store.CountAppend | server.py:95-96 | after an insert, the count of the row's incident grows by one and every other count stays |
| Store.FirstSample | server.py:95-97 | for a non-null incident id, the count after an insert is 1 iff the incident had no sample before; for a null id the count is 0, so the sample is never first |
| Store.NullMatchesNothing | server.py:95-96 | a null incident id selects no row, counts 0 and has an empty report, whatever the table holds (also server.py:126-128) |
| Store.ReportAppend | server.py:126-128 | after an insert, only the row's own incident gains one report row, at the end |
| Store.ReportFor | server.py:126-128 | the report of stop and get_report (also server.py:140-142); specified by Store.ReportSpec, Store.ReportAppend and Store.SelectIsOrderedById |
| Store.ReportSpec | server.py:126-128 | a report has one row per sample of the incident, is empty when there are none, and holds a row iff some sample of the incident carries it |
| Store.SelectIsOrderedById | server.py:126 | on a table with increasing ids the selection is ordered by id, and it is the only id-ordered sequence of the incident's samples (`ORDER BY id ASC`) |
| Store.MarkStopped | server.py:124 | the `UPDATE` sets `stopped_at` on the row with that id only; other rows and the set of ids stay; an unknown or null id changes nothing |
| Store.StopTwice | server.py:124 | a second stop overwrites the first stop time with its own |
| Store.StartKeepsOrder | server.py:73-74 | an (re)started incident has no stop time, so no stop precedes its start |
| Store.StopKeepsOrder | server.py:124 | stopping at a time no earlier than the start keeps every stop after its start |
| Store.ContactsOf | server.py:99-100 | the contact fetch keeps exactly the contacts whose `user_id` matches the update's `user_id` under SQL's `=`, so none for a null `user_id` |
| Store.WithPhone | server.py:102-103 | `if phone` keeps exactly the fetched contacts with a truthy phone |
| Store.AlertsSpec | server.py:99-109 | an alert is sent iff SMS is on, and it carries the update's `user_id`, the sample's position and the truthy phone of one of that user's contacts |
| Store.Alerts | server.py:102-109 | the alerts of the send loop; specified by Store.AlertsSpec, Store.AlertsMembers and Store.AlertsOnePerPhone, and computed by Server.Server.Notify |
| Store.AlertsMembers | server.py:102-109 | over any fetched list, an alert is sent iff SMS is on and it goes to the truthy phone of a fetched contact |
| Store.AlertsOnePerPhone | server.py:102-109 | exactly one alert per fetched contact with a truthy phone, in fetch order, when SMS is on; none otherwise |
| Server.Server.constructor | server.py:13-15 | the server starts on a fresh database with empty tables, and SMS is on iff both Twilio credentials are set and non-empty |
| Server.Server.RegisterConsent | server.py:51-62 | a payload without `user_id` or `consent_text` is rejected and changes nothing; one that does not bind is a server error and changes nothing; otherwise one consent row is appended and the token is issued for `user_id` |
| Server.Server.Start | server.py:65-77 | unauthorized, bad payload, or an id or `user_id` that does not bind: incidents unchanged; otherwise an upsert of the incident with the owner, `now`, and no stop time, keeping start-before-stop |
| Server.Server.Open | server.py:73-74 | the `INSERT OR REPLACE`: the row for the id becomes an active incident of the given `user_id` started at `now`; all other rows stay |
| Server.Server.Update | server.py:80-113 | unauthorized, a missing required field, or a row that does not bind: nothing changes; otherwise one sample is appended, and alerts go out iff it is the incident's only sample and `user_id` binds (Server.Server.Saved) |
| Server.Server.SaveLocation | server.py:88-113 | the sample is appended under the next row id with ids kept increasing; earlier attempts stay; new attempts carry the alerts for the update's `user_id` iff the count is 1 and `user_id` binds, and none if the incident already had samples or its id is null |
| Server.Server.Saved | server.py:88-113 | the whole state after an update whose row binds: the sample appended under the next row id; earlier attempts kept; the alerts of Store.Alerts iff it is the first sample and `user_id` binds; a server error iff it is the first sample and `user_id` does not |
| Server.Server.Notify | server.py:102-111 | the loop appends one attempt per contact with a phone when SMS is on, in order, keeps earlier attempts, and goes on after a failed send |
| Server.Server.Stop | server.py:116-131 | unauthorized, bad payload, or an id that does not bind: incidents unchanged; otherwise `stopped_at` is set on the matching row only, and the response is the incident's report |
| Server.Server.GetReport | server.py:134-144 | unauthorized callers get nothing; any authorized caller gets the report of any incident id; the tables are not modified |
| Scenario.HeaderIsAlice | renderer.js:58 | the client's header for a token the decoder accepts as a truthy subject authorizes the caller; the bare token does not |
| Scenario.FirstSample | server.py:94-111 | the first sample of an incident is stored under row id 1 and alerts only the contact of alice, the `user_id` named, that has a phone |
| Scenario.NullIncident | server.py:85-97 | an update with a null `incident_id` is stored and alerts nobody, with SMS on and contacts in place |
| Scenario.LaterSample | server.py:94-97 | a second sample is stored after the first, under the next id, and sends no alert |
| Scenario.ListOwner | server.py:90-99 | a first sample whose `user_id` is a JSON array is stored, alerts nobody and answers a server error |
| Scenario.StopTwice | server.py:124-131 | stopping twice returns the same report both times and leaves the later stop time |

## Left out

- Flask routing, HTTP status codes and JSON encoding of responses: each handler returns a `Response` value instead.
- JWT signing and checking: `decode` is an abstract function of the server. Token issuance in `gen_token` is abstract too (`ConsentRecorded` names the subject only), and so are token expiry and the clock it reads.
- `datetime.utcnow()`: it becomes the `now` parameter, a natural number in place of ISO text.
- The Twilio client: a send is an attempt whose `delivered` flag is chosen nondeterministically. The message text, the maps link and `TW_FROM` are not modelled. Failures are logged in the source; the model keeps only the flag.
- sqlite itself: connections, commits, `init_db`, and type affinity (TEXT/REAL coercion of stored values). Values that bind are kept as the JSON values the client sent, and ids are compared by equality, except that a null parameter matches nothing (Store.SqlEq).
- Store.Bindable: every JSON number is taken to bind. A Python integer beyond 64 bits makes sqlite3 raise, which the model does not capture because its numbers are reals.
- Server.Server.constructor: the model starts on a fresh database. A server started on an existing `emergency.db` keeps its rows, because `init_db` only creates missing tables; the handlers' contracts hold from any state, but the model has no constructor for a non-empty one.
- Request bodies that are JSON but not an object: the model takes the body as an optional map.
- Store.NextRowId: models rowid as one more than the largest id; the 64-bit limit of sqlite rowids is not modelled, because no table of this server comes near it.
- Concurrency between requests: handlers run one at a time.
- The order of the contact fetch: `SELECT` without `ORDER BY` is taken to return table order.
- Store.StopKeepsOrder: the start-before-stop invariant needs the clock not to run backwards, which the source does not enforce. The model states it under that condition and does not claim it unconditionally.
- The Electron client (`main.js`, `renderer.js`): only its header format is used, in Auth.BearerRoundTrip.
- Server.Server.Open: an `INSERT OR REPLACE` with a null `incident_id` adds a new row each time in sqlite, because NULL keys are distinct. The model keeps one entry under the null key instead. No handler can read that row back, since every lookup by a null id matches nothing.
