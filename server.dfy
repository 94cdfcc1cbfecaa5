/** The request handlers of server.py as methods of one object that owns the
    tables. Each handler checks the bearer header first, then the payload,
    then updates the tables; `now` stands for `datetime.utcnow()`. */
module Server {
  import opened Values
  import opened Auth
  import opened Store

  class Server {
    /** `jwt.decode(token, JWT_SECRET, algorithms=['HS256'])`: the token's
        claims, or `None` when the library raises. */
    const decode: string -> Option<map<string, Json>>
    /** Whether `tw_client` exists (server.py:13-15). */
    const smsEnabled: bool
    /** The `contacts` table; nothing in the server writes it. */
    const contacts: seq<Contact>

    var incidents: map<Json, Incident>
    var locations: seq<Location>
    var consents: seq<Consent>
    /** Every SMS send the server attempted, in order. */
    var outbox: seq<Attempt>

    /** Row ids of `locations` increase in table order. */
    ghost predicate Valid()
      reads this`locations
    {
      IdsIncreasing(locations)
    }

    /** The handlers' `user = verify_token(...)` followed by `if not user`. */
    predicate Caller(authorization: string)
    {
      Authorized(VerifyToken(authorization, decode))
    }

    /** Startup with empty tables: `tw_client` is created only when both
        `TW_SID` and `TW_TOKEN` are set and non-empty. */
    constructor (decode: string -> Option<map<string, Json>>, twSid: Option<string>, twToken: Option<string>,
                 contacts: seq<Contact>)
      ensures Valid() && StopsAfterStarts(incidents)
      ensures this.decode == decode && this.contacts == contacts
      ensures smsEnabled <==> twSid.Some? && twSid.value != "" && twToken.Some? && twToken.value != ""
      ensures incidents == map[] && locations == [] && consents == [] && outbox == []
    {
      this.decode := decode;
      this.smsEnabled := twSid.Some? && twSid.value != "" && twToken.Some? && twToken.value != "";
      this.contacts := contacts;
      incidents := map[];
      locations := [];
      consents := [];
      outbox := [];
    }

    /** `register_consent` (server.py:51-62): appends to the consent log; the
        token it then issues is for `subject`. The INSERT raises, and nothing
        is stored, when a value cannot be bound. */
    method RegisterConsent(data: Option<map<string, Json>>, now: Instant) returns (r: Response)
      modifies this`consents
      ensures Missing(data, ConsentFields) ==> r == BadPayload && consents == old(consents)
      ensures !Missing(data, ConsentFields) ==>
        var d := data.value;
        if Bindable(d["user_id"]) && Bindable(d["consent_text"]) then
          && r == ConsentRecorded(d["user_id"])
          && consents == old(consents) + [Consent(d["user_id"], d["consent_text"], now)]
        else
          r == ServerError && consents == old(consents)
    {
      if Missing(data, ConsentFields) {
        return BadPayload;
      }
      var d := data.value;
      FieldsPresent(d);
      if !(Bindable(d["user_id"]) && Bindable(d["consent_text"])) {
        return ServerError;
      }
      consents := consents + [Consent(d["user_id"], d["consent_text"], now)];
      r := ConsentRecorded(d["user_id"]);
    }

    /** `incident_start` (server.py:65-77): INSERT OR REPLACE of the incident
        row, with no `stopped_at`. Samples already stored for the id stay. */
    method Start(authorization: string, data: Option<map<string, Json>>, now: Instant) returns (r: Response)
      requires Valid()
      modifies this`incidents
      ensures Valid()
      ensures !Caller(authorization) ==> r == Unauthorized && incidents == old(incidents)
      ensures Caller(authorization) && Missing(data, StartFields) ==>
        r == BadPayload && incidents == old(incidents)
      ensures Caller(authorization) && !Missing(data, StartFields) ==>
        var d := data.value;
        if Bindable(d["incident_id"]) && Bindable(d["user_id"]) then
          && r == IncidentStarted
          && incidents == old(incidents)[d["incident_id"] := Incident(d["user_id"], now, None)]
        else
          r == ServerError && incidents == old(incidents)
      ensures old(StopsAfterStarts(incidents)) ==> StopsAfterStarts(incidents)
    {
      if !Caller(authorization) {
        return Unauthorized;
      }
      if Missing(data, StartFields) {
        return BadPayload;
      }
      var d := data.value;
      FieldsPresent(d);
      if !(Bindable(d["incident_id"]) && Bindable(d["user_id"])) {
        return ServerError;
      }
      Open(d["incident_id"], d["user_id"], now);
      r := IncidentStarted;
    }

    /** The `INSERT OR REPLACE` of `incident_start` (server.py:73-74): the row
        for `iid` is created or replaced by an active one started at `now`. */
    method Open(iid: Json, owner: Json, now: Instant)
      modifies this`incidents
      ensures incidents == old(incidents)[iid := Incident(owner, now, None)]
      ensures old(StopsAfterStarts(incidents)) ==> StopsAfterStarts(incidents)
    {
      if StopsAfterStarts(incidents) {
        StartKeepsOrder(incidents, iid, owner, now);
      }
      incidents := incidents[iid := Incident(owner, now, None)];
    }

    /** `incident_update` (server.py:80-113): stores the sample, whether or
        not its incident exists or is stopped, then alerts the contacts of
        the `user_id` named in the update when this is the incident's only
        sample. That `user_id` is checked neither against the incident's
        owner nor against the caller. */
    method Update(authorization: string, data: Option<map<string, Json>>) returns (r: Response)
      requires Valid()
      modifies this`locations, this`outbox
      ensures Valid()
      ensures !Caller(authorization) ==>
        r == Unauthorized && locations == old(locations) && outbox == old(outbox)
      ensures Caller(authorization) && Missing(data, UpdateFields) ==>
        r == BadPayload && locations == old(locations) && outbox == old(outbox)
      ensures Caller(authorization) && !Missing(data, UpdateFields) && !SampleBindable(data.value) ==>
        r == ServerError && locations == old(locations) && outbox == old(outbox)
      ensures Caller(authorization) && !Missing(data, UpdateFields) && SampleBindable(data.value) ==>
        Saved(data.value, old(locations), old(outbox), r)
    {
      if !Caller(authorization) {
        return Unauthorized;
      }
      if Missing(data, UpdateFields) {
        return BadPayload;
      }
      if !SampleBindable(data.value) {
        return ServerError;
      }
      r := SaveLocation(data.value);
    }

    /** The new state after an update with payload `d` whose row binds: one
        sample appended at the end of `locations` under the next row id (it
        is committed before the contacts are read); and, when it is the only
        sample of its incident, one alert attempt per contact of `user_id`
        with a phone, appended to the outbox. The contact query raises when
        `user_id` cannot be bound: the sample stays, nobody is alerted, and
        the response is a server error. */
    ghost predicate Saved(d: map<string, Json>, locs: seq<Location>, out: seq<Attempt>, r: Response)
      requires !Missing(Some(d), UpdateFields)
      reads this
    {
      && locations == locs + [Sample(d, NextRowId(locs))]
      && |outbox| >= |out| && outbox[..|out|] == out
      && var first := Count(locations, d["incident_id"]) == 1;
      && Sent(outbox[|out|..]) ==
           (if first && Bindable(d["user_id"])
            then Alerts(ContactsOf(contacts, d["user_id"]), smsEnabled, d["user_id"], d["lat"], d["lon"])
            else [])
      && r == if first && !Bindable(d["user_id"]) then ServerError else LocationSaved
    }

    /** The body of `incident_update` past its checks (server.py:88-113). */
    method SaveLocation(d: map<string, Json>) returns (r: Response)
      requires Valid()
      requires !Missing(Some(d), UpdateFields) && SampleBindable(d)
      modifies this`locations, this`outbox
      ensures Valid()
      ensures Saved(d, old(locations), old(outbox), r)
      ensures Count(old(locations), d["incident_id"]) != 0 ==> outbox == old(outbox) && r == LocationSaved
      ensures d["incident_id"] == JNull ==> outbox == old(outbox) && r == LocationSaved
    {
      FieldsPresent(d);
      var iid, owner, lat, lon := d["incident_id"], d["user_id"], d["lat"], d["lon"];
      var sample := Sample(d, NextRowId(locations));
      AppendKeepsIncreasing(locations, sample);
      locations := locations + [sample];
      var count := Count(locations, iid);
      r := LocationSaved;
      if count == 1 && Bindable(owner) {
        var fetched := ContactsOf(contacts, owner);
        Notify(fetched, owner, lat, lon);
      } else {
        assert outbox[|outbox|..] == [];
        if count == 1 {
          r := ServerError;
        }
      }
      FirstSample(old(locations), sample);
    }

    /** The send loop of `incident_update` (server.py:102-111): one attempt
        per fetched contact with a truthy phone when SMS is configured. A
        failed send is only logged, so the loop goes on to the next contact. */
    method Notify(fetched: seq<Contact>, owner: Json, lat: Json, lon: Json)
      modifies this`outbox
      ensures |outbox| >= |old(outbox)| && outbox[..|old(outbox)|] == old(outbox)
      ensures Sent(outbox[|old(outbox)|..]) == Alerts(fetched, smsEnabled, owner, lat, lon)
    {
      ghost var start := |outbox|;
      for i := 0 to |fetched|
        invariant |outbox| >= start && outbox[..start] == old(outbox)
        invariant Sent(outbox[start..]) == Alerts(fetched[..i], smsEnabled, owner, lat, lon)
      {
        var c := fetched[i];
        if Truthy(c.phone) && smsEnabled {
          var delivered: bool :| true;
          outbox := outbox + [Attempt(Alert(c.phone, owner, lat, lon), delivered)];
        }
        assert fetched[..i + 1][..i] == fetched[..i];
      }
      assert fetched[..|fetched|] == fetched;
    }

    /** `incident_stop` (server.py:116-131): sets `stopped_at` on the row with
        that id, if there is one, and returns the incident's report. The
        UPDATE raises, and nothing changes, when the id cannot be bound. */
    method Stop(authorization: string, data: Option<map<string, Json>>, now: Instant) returns (r: Response)
      requires Valid()
      modifies this`incidents
      ensures Valid()
      ensures !Caller(authorization) ==> r == Unauthorized && incidents == old(incidents)
      ensures Caller(authorization) && Missing(data, StopFields) ==>
        r == BadPayload && incidents == old(incidents)
      ensures Caller(authorization) && !Missing(data, StopFields) && !Bindable(data.value["incident_id"]) ==>
        r == ServerError && incidents == old(incidents)
      ensures Caller(authorization) && !Missing(data, StopFields) && Bindable(data.value["incident_id"]) ==>
        var iid := data.value["incident_id"];
        && r == Stopped(ReportFor(locations, iid))
        && incidents == MarkStopped(old(incidents), iid, now)
        && (old(StopsAfterStarts(incidents)) && (iid in old(incidents) ==> old(incidents)[iid].startedAt <= now)
            ==> StopsAfterStarts(incidents))
    {
      if !Caller(authorization) {
        return Unauthorized;
      }
      if Missing(data, StopFields) {
        return BadPayload;
      }
      FieldsPresent(data.value);
      var iid := data.value["incident_id"];
      if !Bindable(iid) {
        return ServerError;
      }
      StopKeepsOrder(incidents, iid, now);
      incidents := MarkStopped(incidents, iid, now);
      r := Stopped(ReportFor(locations, iid));
    }

    /** `get_report` (server.py:134-144): any authorized caller gets the
        report of any incident, empty when it has no samples. */
    method GetReport(authorization: string, incidentId: string) returns (r: Response)
      requires Valid()
      ensures !Caller(authorization) ==> r == Unauthorized
      ensures Caller(authorization) ==> r == IncidentReport(incidentId, ReportFor(locations, JStr(incidentId)))
    {
      if !Caller(authorization) {
        return Unauthorized;
      }
      r := IncidentReport(incidentId, ReportFor(locations, JStr(incidentId)));
    }
  }
}
