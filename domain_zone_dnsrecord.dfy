/** The ovh_domain_zone_record resource: a DNS record whose Terraform id is
    the decimal rendering of the record's numeric id. */
module DomainZoneDnsRecord {
  import opened Errors
  import opened Api
  import opened Schema
  import opened Strconv
  import opened Fmt
  import opened Crud

  /** The body of a record POST or PUT. */
  datatype DomainZoneRecordOpts = DomainZoneRecordOpts(fieldType: string, subDomain: string, target: string, ttl: int)

  /** A record as the API returns it. */
  datatype DomainZoneRecordResponse = DomainZoneRecordResponse(
    id: int, zoneName: string, ttl: int, fieldType: string, subDomain: string, target: string)

  type Remote = Client<DomainZoneRecordOpts, DomainZoneRecordResponse>
  type RecordEffect = Effect<DomainZoneRecordOpts>

  const ZoneNameKey: string := "zone_name"
  const TargetKey: string := "target"
  const TtlKey: string := "ttl"
  const FieldTypeKey: string := "field_type"
  const SubDomainKey: string := "sub_domain"

  const CreateFailed: string := "Failed to create Domain Record"
  const UpdateFailed: string := "Failed to update Domain Record"
  const DeleteFailed: string := "Error deleting Domain Record"
  const BadRecordId: string := "Error converting Record ID"

  /** The record endpoints of a zone. */
  function RecordCollectionUrl(zone: string): string {
    Sprintf("/domain/zone/%s/record", [S(zone)])
  }

  function RecordUrl(zone: string, recordId: int): string {
    Sprintf("/domain/zone/%s/record/%d", [S(zone), D(recordId)])
  }

  /** The templates cut at their verbs. */
  lemma TemplatePieces()
    ensures "/domain/zone/%s/record" == "/domain/zone/" + "%s" + "/record"
    ensures "/domain/zone/%s/record/%d" == "/domain/zone/" + "%s" + "/record/" + "%d" + ""
  {
  }

  /** The collection endpoint is "/domain/zone/{zone}/record". */
  lemma RecordCollectionUrlShape(zone: string)
    ensures RecordCollectionUrl(zone) == "/domain/zone/" + zone + "/record"
  {
    TemplatePieces();
    Sprintf1("/domain/zone/", "/record", zone);
  }

  /** A record's endpoint is "/domain/zone/{zone}/record/{id}", the id in decimal. */
  lemma RecordUrlShape(zone: string, recordId: int)
    ensures RecordUrl(zone, recordId) == "/domain/zone/" + zone + "/record/" + Itoa(recordId)
  {
    TemplatePieces();
    SprintfStringDecimal("/domain/zone/", "/record/", "", zone, recordId);
  }

  /** So a record's endpoint extends the collection endpoint with "/" and the id. */
  lemma RecordUrlExtendsCollection(zone: string, recordId: int)
    ensures RecordUrl(zone, recordId) == RecordCollectionUrl(zone) + "/" + Itoa(recordId)
  {
    RecordCollectionUrlShape(zone);
    RecordUrlShape(zone, recordId);
    RecordPathPieces(zone, Itoa(recordId));
  }

  lemma RecordPathPieces(zone: string, id: string)
    ensures "/domain/zone/" + zone + "/record/" + id == "/domain/zone/" + zone + "/record" + "/" + id
  {
    assert "/record/" == "/record" + "/";
  }

  /** The record Create and Update send: four fields of the configuration. */
  function RecordOpts(attrs: map<string, Value>): DomainZoneRecordOpts {
    DomainZoneRecordOpts(StringAt(attrs, FieldTypeKey), StringAt(attrs, SubDomainKey),
                         StringAt(attrs, TargetKey), IntAt(attrs, TtlKey))
  }

  // ---------------------------------------------------------------- specification

  /** readDomainZoneDnsRecord: the five attributes the response describes. */
  function Projected(attrs: map<string, Value>, r: DomainZoneRecordResponse): map<string, Value> {
    attrs[ZoneNameKey := Str(r.zoneName)][TtlKey := Int(r.ttl)][FieldTypeKey := Str(r.fieldType)]
         [SubDomainKey := Str(r.subDomain)][TargetKey := Str(r.target)]
  }

  /** Create: POST the record to the zone's collection and store the reply. */
  function CreateEffect(answer: nat -> Reply<DomainZoneRecordResponse>, n0: nat, id: string, attrs: map<string, Value>): RecordEffect {
    var sent := [Request(Post, RecordCollectionUrl(StringAt(attrs, ZoneNameKey)), Some(RecordOpts(attrs)))];
    match answer(n0)
    case Errored(e) => Effect(Failed(Wrapped(CreateFailed, Remote(e))), sent, id, attrs)
    case Replied(r) => Effect(Done, sent, Itoa(r.id), Projected(attrs, r))
  }

  /** Read: parse the id, GET the record and store it. */
  function ReadEffect(answer: nat -> Reply<DomainZoneRecordResponse>, n0: nat, id: string, attrs: map<string, Value>): RecordEffect {
    match Atoi(id)
    case Err(err) => Effect(Failed(Wrapped(BadRecordId, err)), [], id, attrs)
    case Ok(recordId) =>
      var sent := [Request(Get, RecordUrl(StringAt(attrs, ZoneNameKey), recordId), None)];
      match answer(n0)
      case Errored(e) => Effect(Failed(Remote(e)), sent, id, attrs)
      case Replied(r) => Effect(Done, sent, Itoa(r.id), Projected(attrs, r))
  }

  /** Update: parse the id, PUT the record and store the reply. */
  function UpdateEffect(answer: nat -> Reply<DomainZoneRecordResponse>, n0: nat, id: string, attrs: map<string, Value>): RecordEffect {
    match Atoi(id)
    case Err(err) => Effect(Failed(Wrapped(BadRecordId, err)), [], id, attrs)
    case Ok(recordId) =>
      var sent := [Request(Put, RecordUrl(StringAt(attrs, ZoneNameKey), recordId), Some(RecordOpts(attrs)))];
      match answer(n0)
      case Errored(e) => Effect(Failed(Wrapped(UpdateFailed, Remote(e))), sent, id, attrs)
      case Replied(r) => Effect(Done, sent, Itoa(r.id), Projected(attrs, r))
  }

  /** Delete: parse the id, DELETE the record and clear the id. */
  function DeleteEffect(answer: nat -> Reply<DomainZoneRecordResponse>, n0: nat, id: string, attrs: map<string, Value>): RecordEffect {
    match Atoi(id)
    case Err(err) => Effect(Failed(Wrapped(BadRecordId, err)), [], id, attrs)
    case Ok(recordId) =>
      var sent := [Request(Verb.Delete, RecordUrl(StringAt(attrs, ZoneNameKey), recordId), None)];
      match answer(n0)
      case Errored(e) => Effect(Failed(Wrapped(DeleteFailed, Remote(e))), sent, id, attrs)
      case Replied(_) => Effect(Done, sent, "", attrs)
  }

  /** What domainZoneDnsRecordExists returns, and the requests it sends. */
  datatype Existence = Existence(found: bool, error: Option<Error>, sent: seq<Request<DomainZoneRecordOpts>>)

  function ExistsVerdict(answer: nat -> Reply<DomainZoneRecordResponse>, n0: nat, zone: string, id: string): Existence {
    match Atoi(id)
    case Err(err) => Existence(false, Some(Wrapped(BadRecordId, err)), [])
    case Ok(recordId) =>
      var sent := [Request(Get, RecordUrl(zone, recordId), None)];
      match answer(n0)
      case Replied(_) => Existence(true, None, sent)
      case Errored(e) => if IsNotFound(e) then Existence(false, None, sent) else Existence(false, Some(Remote(e)), sent)
  }

  // ---------------------------------------------------------------- operations

  /** readDomainZoneDnsRecord: copies the response into the state record. */
  method ReadRecord(d: ResourceData, r: DomainZoneRecordResponse) returns (out: Outcome)
    modifies d
    ensures d.attrs == Projected(old(d.attrs), r) && d.id == Itoa(r.id) && out == Done
  {
    d.Set(ZoneNameKey, Str(r.zoneName));
    d.Set(TtlKey, Int(r.ttl));
    d.Set(FieldTypeKey, Str(r.fieldType));
    d.Set(SubDomainKey, Str(r.subDomain));
    d.Set(TargetKey, Str(r.target));
    SprintfDecimalOnly(r.id);
    d.SetId(Sprintf("%d", [D(r.id)]));
    out := Done;
  }

  method Create(client: Remote, d: ResourceData) returns (out: Outcome)
    modifies client, d
    ensures var e := CreateEffect(client.answer, |old(client.log)|, old(d.id), old(d.attrs));
      out == e.outcome && client.log == old(client.log) + e.sent && d.id == e.id && d.attrs == e.attrs
  {
    var zone := d.GetString(ZoneNameKey);
    var record := DomainZoneRecordOpts(d.GetString(FieldTypeKey), d.GetString(SubDomainKey),
                                       d.GetString(TargetKey), d.GetInt(TtlKey));
    var endpoint := RecordCollectionUrl(zone);
    var reply := client.Call(Post, endpoint, Some(record));
    match reply
    case Errored(e) =>
      out := Failed(Wrapped(CreateFailed, Remote(e)));
    case Replied(response) =>
      out := ReadRecord(d, response);
  }

  method Read(client: Remote, d: ResourceData) returns (out: Outcome)
    modifies client, d
    ensures var e := ReadEffect(client.answer, |old(client.log)|, old(d.id), old(d.attrs));
      out == e.outcome && client.log == old(client.log) + e.sent && d.id == e.id && d.attrs == e.attrs
  {
    var zone := d.GetString(ZoneNameKey);
    var recordId := Atoi(d.id);
    if recordId.Err? {
      return Failed(Wrapped(BadRecordId, recordId.error));
    }
    var endpoint := RecordUrl(zone, recordId.value);
    var reply := client.Call(Get, endpoint, None);
    match reply
    case Errored(e) =>
      out := Failed(Remote(e));
    case Replied(response) =>
      out := ReadRecord(d, response);
  }

  method Update(client: Remote, d: ResourceData) returns (out: Outcome)
    modifies client, d
    ensures var e := UpdateEffect(client.answer, |old(client.log)|, old(d.id), old(d.attrs));
      out == e.outcome && client.log == old(client.log) + e.sent && d.id == e.id && d.attrs == e.attrs
  {
    var zone := d.GetString(ZoneNameKey);
    var recordId := Atoi(d.id);
    if recordId.Err? {
      return Failed(Wrapped(BadRecordId, recordId.error));
    }
    var record := DomainZoneRecordOpts(d.GetString(FieldTypeKey), d.GetString(SubDomainKey),
                                       d.GetString(TargetKey), d.GetInt(TtlKey));
    var endpoint := RecordUrl(zone, recordId.value);
    var reply := client.Call(Put, endpoint, Some(record));
    match reply
    case Errored(e) =>
      out := Failed(Wrapped(UpdateFailed, Remote(e)));
    case Replied(response) =>
      out := ReadRecord(d, response);
  }

  method Delete(client: Remote, d: ResourceData) returns (out: Outcome)
    modifies client, d
    ensures var e := DeleteEffect(client.answer, |old(client.log)|, old(d.id), old(d.attrs));
      out == e.outcome && client.log == old(client.log) + e.sent && d.id == e.id && d.attrs == e.attrs
  {
    var zone := d.GetString(ZoneNameKey);
    var recordId := Atoi(d.id);
    if recordId.Err? {
      return Failed(Wrapped(BadRecordId, recordId.error));
    }
    var endpoint := RecordUrl(zone, recordId.value);
    var reply := client.Call(Verb.Delete, endpoint, None);
    if reply.Errored? {
      return Failed(Wrapped(DeleteFailed, Remote(reply.err)));
    }
    d.SetId("");
    out := Done;
  }

  /** domainZoneDnsRecordExists */
  method Exists(client: Remote, zone: string, id: string) returns (found: bool, err: Option<Error>)
    modifies client
    ensures var v := ExistsVerdict(client.answer, |old(client.log)|, zone, id);
      found == v.found && err == v.error && client.log == old(client.log) + v.sent
  {
    var recordId := Atoi(id);
    if recordId.Err? {
      return false, Some(Wrapped(BadRecordId, recordId.error));
    }
    var endpoint := RecordUrl(zone, recordId.value);
    var reply := client.Call(Get, endpoint, None);
    if reply.Errored? {
      if reply.err.ApiError? && reply.err.code == 404 {
        return false, None;
      }
      return false, Some(Remote(reply.err));
    }
    return true, None;
  }

  // ---------------------------------------------------------------- properties

  /** The projection stores exactly the five described attributes and keeps every other one. */
  lemma ProjectedStoresResponse(attrs: map<string, Value>, r: DomainZoneRecordResponse)
    ensures var p := Projected(attrs, r);
      && StringAt(p, ZoneNameKey) == r.zoneName && IntAt(p, TtlKey) == r.ttl
      && StringAt(p, FieldTypeKey) == r.fieldType && StringAt(p, SubDomainKey) == r.subDomain
      && StringAt(p, TargetKey) == r.target
      && p.Keys == attrs.Keys + {ZoneNameKey, TtlKey, FieldTypeKey, SubDomainKey, TargetKey}
      && (forall k :: k in attrs && k !in {ZoneNameKey, TtlKey, FieldTypeKey, SubDomainKey, TargetKey} ==> p[k] == attrs[k])
  {
    var p := Projected(attrs, r);
    assert |ZoneNameKey| == 9 && |TtlKey| == 3 && |FieldTypeKey| == 10 && |SubDomainKey| == 10 && |TargetKey| == 6;
    assert FieldTypeKey[0] != SubDomainKey[0];
  }

  /** A created record's id is stored in decimal, and parsing it back gives
      the record's numeric id. */
  lemma CreatedIdRoundTrips(answer: nat -> Reply<DomainZoneRecordResponse>, n0: nat, id: string, attrs: map<string, Value>)
    requires answer(n0).Replied? && MinInt <= answer(n0).body.id <= MaxInt
    ensures var e := CreateEffect(answer, n0, id, attrs);
      e.outcome == Done && e.id == Itoa(answer(n0).body.id) && Atoi(e.id) == Ok(answer(n0).body.id)
  {
    AtoiItoa(answer(n0).body.id);
  }

  /** After a create, Read, Update and Delete all address the created record:
      the zone and the id the reply gave. */
  lemma LaterCallsTargetCreatedRecord(answer: nat -> Reply<DomainZoneRecordResponse>, n0: nat, id: string, attrs: map<string, Value>, n1: nat)
    requires answer(n0).Replied? && MinInt <= answer(n0).body.id <= MaxInt
    ensures var e := CreateEffect(answer, n0, id, attrs);
      var url := RecordUrl(answer(n0).body.zoneName, answer(n0).body.id);
      && ReadEffect(answer, n1, e.id, e.attrs).sent == [Request(Get, url, None)]
      && UpdateEffect(answer, n1, e.id, e.attrs).sent == [Request(Put, url, Some(RecordOpts(e.attrs)))]
      && DeleteEffect(answer, n1, e.id, e.attrs).sent == [Request(Verb.Delete, url, None)]
  {
    AtoiItoa(answer(n0).body.id);
    ProjectedStoresResponse(attrs, answer(n0).body);
  }

  /** An id that is not a decimal number makes Read, Update, Delete and
      Exists fail before any request, leaving the state record as it was. */
  lemma NonNumericIdSendsNothing(answer: nat -> Reply<DomainZoneRecordResponse>, n0: nat, zone: string, id: string, attrs: map<string, Value>)
    requires Atoi(id).Err?
    ensures var failed := Effect(Failed(Wrapped(BadRecordId, InvalidNumber(id))), [], id, attrs);
      && ReadEffect(answer, n0, id, attrs) == failed
      && UpdateEffect(answer, n0, id, attrs) == failed
      && DeleteEffect(answer, n0, id, attrs) == failed
      && ExistsVerdict(answer, n0, zone, id) == Existence(false, Some(Wrapped(BadRecordId, InvalidNumber(id))), [])
  {
  }

  /** For a numeric id, Exists reports the record present exactly when the
      GET succeeds, and reports no error exactly when the GET succeeds or
      fails with 404. */
  lemma ExistsIff(answer: nat -> Reply<DomainZoneRecordResponse>, n0: nat, zone: string, id: string)
    requires Atoi(id).Ok?
    ensures var v := ExistsVerdict(answer, n0, zone, id);
      && (v.found <==> answer(n0).Replied?)
      && (v.error.None? <==> answer(n0).Replied? || IsNotFound(answer(n0).err))
      && (v.error.Some? ==> v.error.value == Remote(answer(n0).err))
      && v.sent == [Request(Get, RecordUrl(zone, Atoi(id).value), None)]
  {
  }

  /** A failed create leaves the state record as it was; a successful one
      stores the reply, its id in decimal. */
  lemma CreateOutcome(answer: nat -> Reply<DomainZoneRecordResponse>, n0: nat, id: string, attrs: map<string, Value>)
    ensures var e := CreateEffect(answer, n0, id, attrs);
      && (e.outcome.Failed? <==> answer(n0).Errored?)
      && (e.outcome.Failed? ==> e.id == id && e.attrs == attrs)
      && (e.outcome == Done ==> e.id == Itoa(answer(n0).body.id) && e.attrs == Projected(attrs, answer(n0).body))
  {
  }

  /** A failed update leaves the state record as it was. */
  lemma UpdateOutcome(answer: nat -> Reply<DomainZoneRecordResponse>, n0: nat, id: string, attrs: map<string, Value>)
    ensures var e := UpdateEffect(answer, n0, id, attrs);
      e.outcome.Failed? ==> e.id == id && e.attrs == attrs
  {
  }

  /** A successful delete clears the id, a failed one keeps it; no attribute changes. */
  lemma DeleteOutcome(answer: nat -> Reply<DomainZoneRecordResponse>, n0: nat, id: string, attrs: map<string, Value>)
    ensures var e := DeleteEffect(answer, n0, id, attrs);
      && e.attrs == attrs
      && (e.outcome == Done ==> e.id == "")
      && (e.outcome.Failed? ==> e.id == id)
  {
  }

  /** Create and Update send the same body for the same configuration. */
  lemma CreateAndUpdateSendSameBody(answer: nat -> Reply<DomainZoneRecordResponse>, n0: nat, n1: nat, id: string, attrs: map<string, Value>)
    requires Atoi(id).Ok?
    ensures CreateEffect(answer, n0, id, attrs).sent[0].payload
         == UpdateEffect(answer, n1, id, attrs).sent[0].payload
         == Some(DomainZoneRecordOpts(StringAt(attrs, FieldTypeKey), StringAt(attrs, SubDomainKey),
                                      StringAt(attrs, TargetKey), IntAt(attrs, TtlKey)))
  {
  }
}
