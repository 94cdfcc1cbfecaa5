/** A client of the handlers' contracts: the walk-through of one incident,
    from consent to stop. Everything asserted about the server here follows
    from the handlers' specifications alone. */
module Scenario {
  import opened Values
  import opened Auth
  import opened Store
  import opened Server

  const Alice := JStr("alice")
  const Inc := JStr("inc-1")
  const Mom := Contact(Alice, JStr("mom"), JStr("+15550001"), JNull)
  const Neighbour := Contact(Alice, JStr("neighbour"), JNull, JStr("n@example.org"))
  const Dad := Contact(JStr("bob"), JStr("dad"), JStr("+15550002"), JNull)
  const First := Location(1, Inc, JNum(37.0), JNum(-122.0), JNum(0.0), JStr("t1"))
  const Second := Location(2, Inc, JNum(37.1), JNum(-122.1), JNum(5.0), JStr("t0"))

  /** A stand-in for the JWT library that accepts one token, for "alice". */
  function AliceClaims(token: string): string -> Option<map<string, Json>>
  {
    t => if t == token then Some(map["sub" := Alice]) else None
  }

  function ConsentPayload(): map<string, Json>
  {
    map["user_id" := Alice, "consent_text" := JStr("ok")]
  }

  function StartPayload(): map<string, Json>
  {
    map["incident_id" := Inc, "user_id" := Alice]
  }

  function StopPayload(): map<string, Json>
  {
    map["incident_id" := Inc]
  }

  /** The body the client posts for one position (renderer.js:74-81). */
  function UpdatePayload(lat: real, lon: real, ts: string): map<string, Json>
  {
    map["incident_id" := Inc, "user_id" := Alice, "lat" := JNum(lat), "lon" := JNum(lon), "timestamp" := JStr(ts)]
  }

  /** What the handlers read from the walk-through's payloads. */
  lemma ConsentPayloadOk()
    ensures !Missing(Some(ConsentPayload()), ConsentFields) && ConsentPayload()["user_id"] == Alice
    ensures ConsentPayload()["consent_text"] == JStr("ok")
  {
    assert "user_id" in ConsentPayload() && "consent_text" in ConsentPayload();
  }

  lemma StartPayloadOk()
    ensures !Missing(Some(StartPayload()), StartFields) && StartPayload()["incident_id"] == Inc
    ensures StartPayload()["user_id"] == Alice
  {
    assert "incident_id" in StartPayload() && "user_id" in StartPayload();
  }

  lemma StopPayloadOk()
    ensures !Missing(Some(StopPayload()), StopFields) && StopPayload()["incident_id"] == Inc
  {
    assert "incident_id" in StopPayload();
  }

  lemma FirstPayloadOk()
    ensures Missing(Some(UpdatePayload(37.0, -122.0, "t1") - {"lat"}), UpdateFields)
    ensures !Missing(Some(UpdatePayload(37.0, -122.0, "t1")), UpdateFields)
    ensures Sample(UpdatePayload(37.0, -122.0, "t1"), 1) == First
    ensures SampleBindable(UpdatePayload(37.0, -122.0, "t1"))
    ensures UpdatePayload(37.0, -122.0, "t1")["user_id"] == Alice
    ensures UpdatePayload(37.0, -122.0, "t1")["lat"] == JNum(37.0)
    ensures UpdatePayload(37.0, -122.0, "t1")["lon"] == JNum(-122.0)
  {
    assert "lat" in UpdateFields;
    assert "incident_id" in UpdatePayload(37.0, -122.0, "t1");
  }

  lemma SecondPayloadOk()
    ensures !Missing(Some(UpdatePayload(37.1, -122.1, "t0")["accuracy" := JNum(5.0)]), UpdateFields)
    ensures Sample(UpdatePayload(37.1, -122.1, "t0")["accuracy" := JNum(5.0)], 2) == Second
    ensures SampleBindable(UpdatePayload(37.1, -122.1, "t0")["accuracy" := JNum(5.0)])
  {
    var d := UpdatePayload(37.1, -122.1, "t0")["accuracy" := JNum(5.0)];
    assert "incident_id" in d && "accuracy" in d && d["accuracy"] == JNum(5.0);
    assert AccuracyOf(d) == JNum(5.0);
  }

  /** An update whose `user_id` is a JSON array: every value of the row binds,
      but the contact query would not. */
  function ListOwnerPayload(): map<string, Json>
  {
    UpdatePayload(37.0, -122.0, "t1")["user_id" := JArr([])]
  }

  lemma ListOwnerPayloadOk()
    ensures !Missing(Some(ListOwnerPayload()), UpdateFields)
    ensures SampleBindable(ListOwnerPayload())
    ensures Sample(ListOwnerPayload(), 1) == First
    ensures !Bindable(ListOwnerPayload()["user_id"])
  {
    var d := ListOwnerPayload();
    assert "incident_id" in d && "lat" in d && d["lat"] == JNum(37.0);
  }

  /** An update whose `incident_id` is null: it passes the key check and binds. */
  function NullIncidentPayload(): map<string, Json>
  {
    UpdatePayload(37.0, -122.0, "t1")["incident_id" := JNull]
  }

  lemma NullIncidentPayloadOk()
    ensures !Missing(Some(NullIncidentPayload()), UpdateFields)
    ensures SampleBindable(NullIncidentPayload())
    ensures NullIncidentPayload()["incident_id"] == JNull
  {
    var d := NullIncidentPayload();
    assert "incident_id" in d && "lat" in d && d["lat"] == JNum(37.0);
  }

  /** The header carries alice's token; the bare token is no bearer header. */
  lemma HeaderIsAlice(token: string)
    requires Trimmed(token) && !StartsWith(token, "Bearer ")
    ensures Authorized(VerifyToken("Bearer " + token, AliceClaims(token)))
    ensures !Authorized(VerifyToken(token, AliceClaims(token)))
  {
    BearerRoundTrip(token);
    BearerTokenSpec(token);
  }

  /** Of alice's contacts only mom has a phone; dad belongs to bob. */
  lemma OnlyMomIsAlerted()
    ensures Alerts(ContactsOf([Mom, Neighbour, Dad], Alice), true, Alice, JNum(37.0), JNum(-122.0))
            == [Alert(Mom.phone, Alice, JNum(37.0), JNum(-122.0))]
  {
    assert ContactsOf([Dad], Alice) == [];
    assert [Neighbour, Dad][1..] == [Dad];
    assert ContactsOf([Neighbour, Dad], Alice) == [Neighbour];
    assert [Mom, Neighbour, Dad][1..] == [Neighbour, Dad];
    assert ContactsOf([Mom, Neighbour, Dad], Alice) == [Mom, Neighbour];
    assert [Mom, Neighbour][..1] == [Mom];
    assert Alerts([Mom], true, Alice, JNum(37.0), JNum(-122.0)) == [Alert(Mom.phone, Alice, JNum(37.0), JNum(-122.0))];
  }

  /** The first sample is its incident's only one; after the second there are two. */
  lemma SampleCounts()
    ensures NextRowId([]) == 1 && NextRowId([First]) == 2
    ensures Count([First], Inc) == 1 && Count([First, Second], Inc) == 2
    ensures Select([First, Second], Inc) == [First, Second]
    ensures ReportFor([First, Second], Inc) == [ToRow(First), ToRow(Second)]
  {
    CountAppend([], First, Inc);
    assert [] + [First] == [First];
    CountAppend([First], Second, Inc);
    assert [First] + [Second] == [First, Second];
    SelectAppend([], First, Inc);
    SelectAppend([First], Second, Inc);
    assert Rows([First, Second]) == [ToRow(First), ToRow(Second)];
  }

  /** A server with SMS configured, three contacts, and alice's consent. */
  method Setup(token: string) returns (s: Server)
    requires Trimmed(token) && !StartsWith(token, "Bearer ")
    ensures fresh(s) && s.Valid() && s.Caller("Bearer " + token) && !s.Caller(token)
    ensures s.smsEnabled && s.contacts == [Mom, Neighbour, Dad]
    ensures s.locations == [] && s.outbox == []
  {
    s := new Server(AliceClaims(token), Some("sid"), Some("secret"), [Mom, Neighbour, Dad]);
    HeaderIsAlice(token);
    ConsentPayloadOk();
    var r := s.RegisterConsent(Some(ConsentPayload()), 90);
    assert r == ConsentRecorded(Alice);
  }

  /** Start, then an update without `lat`, which stores nothing and alerts
      nobody. */
  method StartIncident(s: Server, header: string)
    requires s.Valid() && s.Caller(header) && s.locations == [] && s.outbox == []
    modifies s
    ensures s.Valid() && s.locations == [] && s.outbox == [] && Inc in s.incidents && s.incidents[Inc].Active()
  {
    StartPayloadOk();
    FirstPayloadOk();
    var r := s.Start(header, Some(StartPayload()), 100);
    assert r == IncidentStarted;
    r := s.Update(header, Some(UpdatePayload(37.0, -122.0, "t1") - {"lat"}));
    assert r == BadPayload;
  }

  /** The first sample alerts mom, the one contact of alice with a phone. */
  method FirstSample(s: Server, header: string)
    requires s.Valid() && s.Caller(header) && s.smsEnabled && s.contacts == [Mom, Neighbour, Dad]
    requires s.locations == [] && s.outbox == []
    modifies s
    ensures s.Valid() && s.locations == [First]
    ensures Sent(s.outbox) == [Alert(Mom.phone, Alice, JNum(37.0), JNum(-122.0))]
  {
    FirstPayloadOk();
    SampleCounts();
    OnlyMomIsAlerted();
    var r := s.Update(header, Some(UpdatePayload(37.0, -122.0, "t1")));
    assert r == LocationSaved;
    assert s.outbox[0..] == s.outbox;
  }

  /** A first sample naming a `user_id` that sqlite cannot bind is kept, since
      it is committed before the contacts are read, but nobody is alerted and
      the client gets a server error. */
  method ListOwner(s: Server, header: string)
    requires s.Valid() && s.Caller(header) && s.locations == []
    modifies s
    ensures s.Valid() && s.locations == [First] && s.outbox == old(s.outbox)
  {
    ListOwnerPayloadOk();
    SampleCounts();
    ghost var out := s.outbox;
    var r := s.Update(header, Some(ListOwnerPayload()));
    assert s.Saved(ListOwnerPayload(), [], out, r);
    assert Count(s.locations, Inc) == 1;
    assert Sent(s.outbox[|out|..]) == [];
    assert r == ServerError;
  }

  /** A sample with a null incident id is stored, but `COUNT(*) ... WHERE
      incident_id=NULL` is 0, so it is never a first sample and alerts nobody,
      even with SMS on and alice's contacts in place. */
  method NullIncident(s: Server, header: string)
    requires s.Valid() && s.Caller(header) && s.locations == []
    modifies s
    ensures s.Valid() && |s.locations| == 1 && s.locations[0].incident == JNull
    ensures s.outbox == old(s.outbox)
  {
    NullIncidentPayloadOk();
    ghost var out := s.outbox;
    var r := s.Update(header, Some(NullIncidentPayload()));
    NullMatchesNothing(s.locations);
    assert Sent(s.outbox[|out|..]) == [];
    assert s.outbox == s.outbox[..|out|] + s.outbox[|out|..];
    assert r == LocationSaved;
  }

  /** A later call with an earlier client timestamp alerts nobody, and its
      sample goes after the first one. */
  method LaterSample(s: Server, header: string)
    requires s.Valid() && s.Caller(header) && s.locations == [First] && |s.outbox| == 1
    modifies s
    ensures s.Valid() && s.locations == [First, Second] && s.outbox == old(s.outbox)
  {
    SecondPayloadOk();
    SampleCounts();
    ghost var out := s.outbox;
    var r := s.Update(header, Some(UpdatePayload(37.1, -122.1, "t0")["accuracy" := JNum(5.0)]));
    assert r == LocationSaved;
    assert Sent(s.outbox[|out|..]) == [];
    assert s.outbox == s.outbox[..|out|] + s.outbox[|out|..];
  }

  /** Starting the incident again keeps its samples. */
  method Restart(s: Server, header: string)
    requires s.Valid() && s.Caller(header) && s.locations == [First, Second]
    modifies s
    ensures s.Valid() && s.locations == [First, Second]
  {
    StartPayloadOk();
    var r := s.Start(header, Some(StartPayload()), 150);
    assert r == IncidentStarted;
  }

  /** Stopping twice returns the same report, in call order, and moves
      `stopped_at`. */
  method StopTwice(s: Server, header: string)
    requires s.Valid() && s.Caller(header) && s.locations == [First, Second]
    modifies s
    ensures s.Valid() && s.locations == [First, Second]
    ensures Inc in s.incidents ==> s.incidents[Inc].stoppedAt == Some(250)
  {
    StopPayloadOk();
    SampleCounts();
    var report := ReportFor([First, Second], Inc);
    var r := s.Stop(header, Some(StopPayload()), 200);
    assert r == Stopped(report);
    r := s.Stop(header, Some(StopPayload()), 250);
    assert r == Stopped(report);
  }

  /** Any authorized caller reads both samples back. */
  method Report(s: Server, header: string)
    requires s.Valid() && s.Caller(header) && s.locations == [First, Second]
  {
    SampleCounts();
    var r := s.GetReport(header, "inc-1");
    assert r == IncidentReport("inc-1", [ToRow(First), ToRow(Second)]);
  }

  method Walkthrough(token: string)
    requires Trimmed(token) && !StartsWith(token, "Bearer ")
  {
    var s := Setup(token);
    var header := "Bearer " + token;
    StartIncident(s, header);
    FirstSample(s, header);
    LaterSample(s, header);
    Restart(s, header);
    StopTwice(s, header);
    Report(s, header);
  }
}
