/** The rows of the server's tables (server.py:22-25), the handlers'
    responses, and the queries the handlers run against the tables, stated as
    functions over in-memory sequences with the facts the handlers rely on. */
module Store {
  import opened Values

  /** A UTC instant; the server stores `datetime.utcnow().isoformat()`. */
  type Instant = nat

  /** A row of `incidents`, keyed by its `incident_id`. */
  datatype Incident = Incident(owner: Json, startedAt: Instant, stoppedAt: Option<Instant>)
  {
    predicate Active() { stoppedAt.None? }
  }

  /** A row of `locations`; `id` is the INTEGER PRIMARY KEY sqlite assigns. */
  datatype Location = Location(id: nat, incident: Json, lat: Json, lon: Json, accuracy: Json, ts: Json)

  /** A row of `contacts`, which the incident handlers only read; `owner` is
      its `user_id` column. */
  datatype Contact = Contact(owner: Json, name: Json, phone: Json, email: Json)

  /** A row of `consents`. */
  datatype Consent = Consent(user: Json, text: Json, ts: Instant)

  /** The emergency text sent to `to`: it names `owner` and links to `lat`,`lon`. */
  datatype Alert = Alert(to: Json, owner: Json, lat: Json, lon: Json)

  /** One send attempt; `delivered` is false when the SMS client raised. */
  datatype Attempt = Attempt(alert: Alert, delivered: bool)

  /** One element of a report. */
  datatype Row = Row(lat: Json, lon: Json, accuracy: Json, ts: Json)

  datatype Response =
    | Unauthorized
    | BadPayload
    | ConsentRecorded(subject: Json)
    | IncidentStarted
    | LocationSaved
    | Stopped(report: seq<Row>)
    | IncidentReport(incidentId: string, report: seq<Row>)
      /** An exception escaped the handler; Flask answers with a server error. */
    | ServerError

  const StartFields: seq<string> := ["incident_id", "user_id"]
  const UpdateFields: seq<string> := ["incident_id", "user_id", "lat", "lon", "timestamp"]
  const StopFields: seq<string> := ["incident_id"]
  const ConsentFields: seq<string> := ["user_id", "consent_text"]

  /** The handlers' `not data or any(k not in data for k in required)`. */
  predicate Missing(data: Option<map<string, Json>>, required: seq<string>)
  {
    data.None? || data.value == map[] || exists k :: k in required && k !in data.value
  }

  /** What passing each handler's payload check guarantees is in the payload. */
  lemma FieldsPresent(d: map<string, Json>)
    ensures !Missing(Some(d), StartFields) ==> "incident_id" in d && "user_id" in d
    ensures !Missing(Some(d), UpdateFields) ==>
      "incident_id" in d && "user_id" in d && "lat" in d && "lon" in d && "timestamp" in d
    ensures !Missing(Some(d), StopFields) ==> "incident_id" in d
    ensures !Missing(Some(d), ConsentFields) ==> "user_id" in d && "consent_text" in d
  {
    assert "incident_id" in StartFields && "user_id" in StartFields;
    assert "incident_id" in UpdateFields && "user_id" in UpdateFields && "lat" in UpdateFields;
    assert "lon" in UpdateFields && "timestamp" in UpdateFields;
    assert "incident_id" in StopFields;
    assert "user_id" in ConsentFields && "consent_text" in ConsentFields;
  }

  /** The values Python's sqlite3 module binds as statement parameters:
      None, booleans (as integers), numbers and strings. A JSON array or
      object makes the statement raise before it touches the table. */
  predicate Bindable(v: Json)
  {
    v.JNull? || v.JBool? || v.JNum? || v.JStr?
  }

  /** The accuracy stored for a sample: `data.get('accuracy') or 0.0`. */
  function AccuracyOf(data: map<string, Json>): (a: Json)
    ensures "accuracy" in data && Truthy(data["accuracy"]) ==> a == data["accuracy"]
    ensures !("accuracy" in data && Truthy(data["accuracy"])) ==> a == JNum(0.0)
  {
    Or(if "accuracy" in data then data["accuracy"] else JNull, JNum(0.0))
  }

  /** The sample an update stores under row id `id` (server.py:90-91). */
  function Sample(data: map<string, Json>, id: nat): Location
    requires !Missing(Some(data), UpdateFields)
  {
    FieldsPresent(data);
    Location(id, data["incident_id"], data["lat"], data["lon"], AccuracyOf(data), data["timestamp"])
  }

  /** Whether the `INSERT INTO locations` of an update (server.py:90-91) can
      bind every value of the row it would store. */
  predicate SampleBindable(data: map<string, Json>)
    requires !Missing(Some(data), UpdateFields)
  {
    var l := Sample(data, 0);
    Bindable(l.incident) && Bindable(l.lat) && Bindable(l.lon) && Bindable(l.accuracy) && Bindable(l.ts)
  }

  /** SQL's `=` between a column and a bound parameter: NULL equals nothing,
      not even NULL, so `WHERE col=?` with a null parameter matches no row. */
  predicate SqlEq(column: Json, param: Json)
  {
    param != JNull && column == param
  }

  /** `UPDATE incidents SET stopped_at=? WHERE incident_id=?` (server.py:124):
      only the row with that id changes, and only its `stopped_at`; an
      unknown id, or a null one, changes nothing. */
  function MarkStopped(incs: map<Json, Incident>, iid: Json, now: Instant): (r: map<Json, Incident>)
    ensures r.Keys == incs.Keys
    ensures forall k :: k in incs && !SqlEq(k, iid) ==> r[k] == incs[k]
    ensures iid == JNull ==> r == incs
    ensures iid != JNull && iid in incs ==> r[iid] == Incident(incs[iid].owner, incs[iid].startedAt, Some(now))
  {
    if iid != JNull && iid in incs then incs[iid := incs[iid].(stoppedAt := Some(now))] else incs
  }

  /** No incident was stopped before it was started. The source does not
      enforce this; it holds as long as the clock does not run backwards. */
  ghost predicate StopsAfterStarts(incs: map<Json, Incident>)
  {
    forall k :: k in incs && incs[k].stoppedAt.Some? ==> incs[k].startedAt <= incs[k].stoppedAt.value
  }

  /** The largest row id in use, 0 for an empty table. */
  function MaxId(locs: seq<Location>): (m: nat)
    ensures forall k :: 0 <= k < |locs| ==> locs[k].id <= m
    ensures locs != [] ==> exists k :: 0 <= k < |locs| && locs[k].id == m
  {
    if locs == [] then 0
    else
      var m := MaxId(locs[1..]);
      if locs[0].id < m then m else locs[0].id
  }

  /** sqlite's choice of a new INTEGER PRIMARY KEY: one more than the
      largest in use. */
  function NextRowId(locs: seq<Location>): (id: nat)
    ensures id > 0
    ensures forall k :: 0 <= k < |locs| ==> locs[k].id < id
  {
    MaxId(locs) + 1
  }

  /** Row ids strictly increase along the table: rows are kept in insertion
      order and every insert takes a larger id. */
  predicate IdsIncreasing(locs: seq<Location>)
  {
    forall i, j :: 0 <= i < j < |locs| ==> locs[i].id < locs[j].id
  }

  /** `WHERE incident_id=?`, in table order. */
  function Select(locs: seq<Location>, iid: Json): (sel: seq<Location>)
    ensures |sel| <= |locs|
    ensures forall l :: l in sel <==> l in locs && SqlEq(l.incident, iid)
  {
    if locs == [] then []
    else if SqlEq(locs[0].incident, iid) then [locs[0]] + Select(locs[1..], iid)
    else Select(locs[1..], iid)
  }

  /** `SELECT COUNT(*) FROM locations WHERE incident_id=?` (server.py:95). */
  function Count(locs: seq<Location>, iid: Json): nat
  {
    if locs == [] then 0
    else (if SqlEq(locs[0].incident, iid) then 1 else 0) + Count(locs[1..], iid)
  }

  function ToRow(l: Location): Row
  {
    Row(l.lat, l.lon, l.accuracy, l.ts)
  }

  /** The report both stop and get_report build (server.py:126-128, 140-142):
      the incident's samples, as rows, in the order of `sel`. */
  function Rows(sel: seq<Location>): seq<Row>
  {
    seq(|sel|, k requires 0 <= k < |sel| => ToRow(sel[k]))
  }

  function ReportFor(locs: seq<Location>, iid: Json): seq<Row>
  {
    Rows(Select(locs, iid))
  }

  /** `SELECT name, phone FROM contacts WHERE user_id=?` (server.py:99-100),
      in table order. */
  function ContactsOf(contacts: seq<Contact>, owner: Json): (mine: seq<Contact>)
    ensures forall c :: c in mine <==> c in contacts && SqlEq(c.owner, owner)
  {
    if contacts == [] then []
    else if SqlEq(contacts[0].owner, owner) then [contacts[0]] + ContactsOf(contacts[1..], owner)
    else ContactsOf(contacts[1..], owner)
  }

  /** The fetched contacts that `if phone` lets through, in order. */
  function WithPhone(fetched: seq<Contact>): (cs: seq<Contact>)
    ensures forall c :: c in cs <==> c in fetched && Truthy(c.phone)
  {
    if fetched == [] then []
    else
      var c := fetched[|fetched| - 1];
      WithPhone(fetched[..|fetched| - 1]) + (if Truthy(c.phone) then [c] else [])
  }

  /** The alerts the loop of `incident_update` sends over the fetched
      contacts (server.py:102-109): one for each contact with a truthy phone,
      in order, and none when no SMS client is configured. */
  function Alerts(fetched: seq<Contact>, enabled: bool, owner: Json, lat: Json, lon: Json): seq<Alert>
  {
    if fetched == [] then []
    else
      var c := fetched[|fetched| - 1];
      Alerts(fetched[..|fetched| - 1], enabled, owner, lat, lon)
      + (if Truthy(c.phone) && enabled then [Alert(c.phone, owner, lat, lon)] else [])
  }

  /** The alerts that a sequence of attempts carried, whether delivered or not. */
  function Sent(attempts: seq<Attempt>): seq<Alert>
  {
    seq(|attempts|, k requires 0 <= k < |attempts| => attempts[k].alert)
  }

  /** `ORDER BY id ASC` over the rows of one incident: `rows` holds exactly
      the incident's samples, with ids strictly increasing. */
  ghost predicate OrderedById(locs: seq<Location>, iid: Json, rows: seq<Location>)
  {
    IdsIncreasing(rows) && forall l :: l in rows <==> l in locs && SqlEq(l.incident, iid)
  }

  // ---------------------------------------------------------------------
  // Facts about the queries

  /** Starting an incident never breaks the order of start and stop times:
      the new row has no stop time. */
  lemma StartKeepsOrder(incs: map<Json, Incident>, iid: Json, owner: Json, now: Instant)
    requires StopsAfterStarts(incs)
    ensures StopsAfterStarts(incs[iid := Incident(owner, now, None)])
  {
  }

  /** Stopping keeps the order of start and stop times when the clock reads
      no earlier than the incident's start. */
  lemma StopKeepsOrder(incs: map<Json, Incident>, iid: Json, now: Instant)
    ensures StopsAfterStarts(incs) && (iid in incs ==> incs[iid].startedAt <= now) ==>
      StopsAfterStarts(MarkStopped(incs, iid, now))
  {
  }

  /** A second stop of the same incident overwrites the first stop time:
      stopping is not idempotent in `stopped_at`, only in which rows exist. */
  lemma StopTwice(incs: map<Json, Incident>, iid: Json, t1: Instant, t2: Instant)
    ensures MarkStopped(MarkStopped(incs, iid, t1), iid, t2) == MarkStopped(incs, iid, t2)
  {
  }

  /** Counting the incident's samples is taking the length of its selection. */
  lemma {:induction false} CountIsSelectLength(locs: seq<Location>, iid: Json)
    ensures Count(locs, iid) == |Select(locs, iid)|
  {
    if locs != [] {
      CountIsSelectLength(locs[1..], iid);
    }
  }

  /** Selecting from a table with one more row at the end. */
  lemma {:induction false} SelectAppend(locs: seq<Location>, l: Location, iid: Json)
    ensures Select(locs + [l], iid) == Select(locs, iid) + (if SqlEq(l.incident, iid) then [l] else [])
  {
    if locs == [] {
      assert [l][1..] == [];
    } else {
      assert (locs + [l])[1..] == locs[1..] + [l];
      SelectAppend(locs[1..], l, iid);
    }
  }

  /** Counting in a table with one more row at the end: the count of the new
      row's incident goes up by one and every other count stays. */
  lemma {:induction false} CountAppend(locs: seq<Location>, l: Location, iid: Json)
    ensures Count(locs + [l], iid) == Count(locs, iid) + (if SqlEq(l.incident, iid) then 1 else 0)
  {
    CountIsSelectLength(locs, iid);
    CountIsSelectLength(locs + [l], iid);
    SelectAppend(locs, l, iid);
  }

  /** A sample with an id is its incident's first exactly when the incident
      had none; a sample with a null id is never counted, so never first. */
  lemma FirstSample(locs: seq<Location>, l: Location)
    ensures l.incident != JNull ==> (Count(locs + [l], l.incident) == 1 <==> Count(locs, l.incident) == 0)
    ensures l.incident == JNull ==> Count(locs + [l], l.incident) == 0
  {
    CountAppend(locs, l, l.incident);
    if l.incident == JNull {
      NullMatchesNothing(locs + [l]);
    }
  }

  /** A null id selects, counts and reports nothing, whatever the table holds. */
  lemma {:induction false} NullMatchesNothing(locs: seq<Location>)
    ensures Select(locs, JNull) == [] && Count(locs, JNull) == 0 && ReportFor(locs, JNull) == []
  {
    if locs != [] {
      NullMatchesNothing(locs[1..]);
    }
  }

  /** The report grows by the new row only for the new row's incident. */
  lemma ReportAppend(locs: seq<Location>, l: Location, iid: Json)
    ensures ReportFor(locs + [l], iid) == ReportFor(locs, iid) + (if SqlEq(l.incident, iid) then [ToRow(l)] else [])
  {
    SelectAppend(locs, l, iid);
  }

  /** What a report holds: one row per sample of the incident, so none when
      it has no samples, and a row only if some sample of the incident
      carries that position, accuracy and timestamp. */
  lemma ReportSpec(locs: seq<Location>, iid: Json)
    ensures |ReportFor(locs, iid)| == Count(locs, iid)
    ensures Count(locs, iid) == 0 ==> ReportFor(locs, iid) == []
    ensures forall row :: row in ReportFor(locs, iid) <==>
      exists l :: l in locs && SqlEq(l.incident, iid) && row == ToRow(l)
  {
    CountIsSelectLength(locs, iid);
    var sel := Select(locs, iid);
    forall row | row in ReportFor(locs, iid)
      ensures exists l :: l in locs && SqlEq(l.incident, iid) && row == ToRow(l)
    {
      var k :| 0 <= k < |sel| && Rows(sel)[k] == row;
      assert sel[k] in sel;
    }
    forall row | exists l :: l in locs && SqlEq(l.incident, iid) && row == ToRow(l)
      ensures row in ReportFor(locs, iid)
    {
      var l :| l in locs && SqlEq(l.incident, iid) && row == ToRow(l);
      var k :| 0 <= k < |sel| && sel[k] == l;
      assert Rows(sel)[k] == row;
    }
  }

  /** A subsequence of a table with increasing ids has increasing ids. */
  lemma {:induction false} SelectIncreasing(locs: seq<Location>, iid: Json)
    requires IdsIncreasing(locs)
    ensures IdsIncreasing(Select(locs, iid))
  {
    if locs != [] {
      SelectIncreasing(locs[1..], iid);
      var rest := Select(locs[1..], iid);
      if SqlEq(locs[0].incident, iid) {
        forall k | 0 <= k < |rest| ensures locs[0].id < rest[k].id {
          assert rest[k] in locs[1..];
        }
      }
    }
  }

  /** Two sequences with strictly increasing ids and the same elements are
      the same sequence. */
  lemma {:induction false} IncreasingUnique(a: seq<Location>, b: seq<Location>)
    requires IdsIncreasing(a) && IdsIncreasing(b)
    requires forall l :: l in a <==> l in b
    ensures a == b
  {
    assert a != [] ==> a[0] in b;
    assert b != [] ==> b[0] in a;
    if a != [] && b != [] {
      SameHead(a, b);
      SameTailMembers(a, b);
      IncreasingUnique(a[1..], b[1..]);
      assert a == [a[0]] + a[1..];
      assert b == [b[0]] + b[1..];
    }
  }

  /** The smallest id of two id-increasing sequences with the same elements
      sits in the same element. */
  lemma SameHead(a: seq<Location>, b: seq<Location>)
    requires IdsIncreasing(a) && IdsIncreasing(b) && a != [] && b != []
    requires forall l :: l in a <==> l in b
    ensures a[0] == b[0]
  {
    assert a[0] in b && b[0] in a;
    var i :| 0 <= i < |b| && b[i] == a[0];
    var j :| 0 <= j < |a| && a[j] == b[0];
    assert b[0].id <= b[i].id && a[0].id <= a[j].id;
    assert i == 0;
  }

  lemma SameTailMembers(a: seq<Location>, b: seq<Location>)
    requires IdsIncreasing(a) && IdsIncreasing(b) && a != [] && b != [] && a[0] == b[0]
    requires forall l :: l in a <==> l in b
    ensures forall l :: l in a[1..] <==> l in b[1..]
  {
    forall l | l in a[1..] ensures l in b[1..] {
      TailMember(a, b, l);
    }
    forall l | l in b[1..] ensures l in a[1..] {
      TailMember(b, a, l);
    }
  }

  lemma TailMember(a: seq<Location>, b: seq<Location>, l: Location)
    requires IdsIncreasing(a) && IdsIncreasing(b) && a != [] && b != [] && a[0] == b[0]
    requires l in a[1..] && l in b
    ensures l in b[1..]
  {
    var k :| 1 <= k < |a| && a[k] == l;
    assert l.id > a[0].id;
    var m :| 0 <= m < |b| && b[m] == l;
    assert m != 0;
    assert l == b[1..][m - 1];
  }

  /** The report order is the `ORDER BY id ASC` of the source: on a table
      whose ids increase, the selection is ordered by id, and it is the only
      sequence that is. The client's `ts` plays no part in it. */
  lemma SelectIsOrderedById(locs: seq<Location>, iid: Json, rows: seq<Location>)
    requires IdsIncreasing(locs)
    ensures OrderedById(locs, iid, Select(locs, iid))
    ensures OrderedById(locs, iid, rows) ==> rows == Select(locs, iid)
  {
    SelectIncreasing(locs, iid);
    if OrderedById(locs, iid, rows) {
      IncreasingUnique(rows, Select(locs, iid));
    }
  }

  /** A table that has increasing ids keeps them when a row with the next
      row id is appended. */
  lemma AppendKeepsIncreasing(locs: seq<Location>, l: Location)
    requires IdsIncreasing(locs)
    requires l.id == NextRowId(locs)
    ensures IdsIncreasing(locs + [l])
  {
  }

  /** Which alerts a first sample sends, for `owner` the `user_id` named in
      the update: an alert is sent exactly when SMS is configured, it names
      `owner` and the sample's position, and its recipient is the truthy
      phone of one of the contacts whose `user_id` is `owner`. */
  lemma AlertsSpec(contacts: seq<Contact>, enabled: bool, owner: Json, lat: Json, lon: Json, a: Alert)
    ensures a in Alerts(ContactsOf(contacts, owner), enabled, owner, lat, lon) <==>
      enabled && a.owner == owner && a.lat == lat && a.lon == lon && Truthy(a.to)
      && exists c :: c in contacts && SqlEq(c.owner, owner) && c.phone == a.to
  {
    AlertsMembers(ContactsOf(contacts, owner), enabled, owner, lat, lon, a);
  }

  lemma {:induction false} AlertsMembers(fetched: seq<Contact>, enabled: bool, owner: Json, lat: Json, lon: Json, a: Alert)
    ensures a in Alerts(fetched, enabled, owner, lat, lon) <==>
      enabled && a.owner == owner && a.lat == lat && a.lon == lon && Truthy(a.to)
      && exists c :: c in fetched && c.phone == a.to
  {
    if fetched != [] {
      var init := fetched[..|fetched| - 1];
      var c := fetched[|fetched| - 1];
      AlertsMembers(init, enabled, owner, lat, lon, a);
      var last := if Truthy(c.phone) && enabled then [Alert(c.phone, owner, lat, lon)] else [];
      assert Alerts(fetched, enabled, owner, lat, lon) == Alerts(init, enabled, owner, lat, lon) + last;
      assert fetched == init + [c];
      assert (exists e :: e in fetched && e.phone == a.to) <==>
             (exists e :: e in init && e.phone == a.to) || c.phone == a.to;
    }
  }

  /** Exactly one alert per fetched contact with a truthy phone, in order,
      when SMS is configured; none otherwise. */
  lemma {:induction false} AlertsOnePerPhone(fetched: seq<Contact>, enabled: bool, owner: Json, lat: Json, lon: Json)
    ensures var alerts := Alerts(fetched, enabled, owner, lat, lon);
      && |alerts| == (if enabled then |WithPhone(fetched)| else 0)
      && forall k :: 0 <= k < |alerts| ==> alerts[k] == Alert(WithPhone(fetched)[k].phone, owner, lat, lon)
  {
    if fetched != [] {
      AlertsOnePerPhone(fetched[..|fetched| - 1], enabled, owner, lat, lon);
    }
  }
}
