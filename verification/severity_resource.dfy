/**
 The severity resource (internal/provider/severity_resource.go): the length
 bounds on its name and description, and how create, read, update and delete
 move Terraform state.
 */
module SeverityResource {
  import opened Wrappers
  import opened Api
  import opened TfTypes
  import opened Lifecycle
  import Severities
  import Validators

  /** The resource's Terraform attributes. */
  datatype SeverityData = SeverityData(id: TfString, name: TfString, description: TfString, rank: TfInt64)

  /** `name` is at most 50 bytes long. */
  const NameLength := Validators.StringLengthBetween(0, 50)

  /** `description` is at most 1000 bytes long. */
  const DescriptionLength := Validators.StringLengthBetween(0, 1000)

  function Submitted(data: SeverityData): Severities.Severity {
    Severities.Severity(StringOf(data.name), StringOf(data.description), Int64Of(data.rank))
  }

  function Described(m: Severities.SeverityMetadata): SeverityData {
    SeverityData(Known(m.id), Known(m.fields.name), Known(m.fields.description), Known(m.fields.rank))
  }

  function Create(c: Client, plan: SeverityData, reply: Reply<Severities.SeverityResponse>): (r: Step<Severities.Severity, SeverityData>)
    ensures r.sent.Some? && r.sent.value.verb == POST && r.sent.value.url == JoinUrl(c.hostUrl, "/v1/severities")
    ensures r.sent.value.body == Some(Severities.Severity(StringOf(plan.name), StringOf(plan.description), Int64Of(plan.rank)))
    ensures r.failure.None? <==> Decodes(reply) && reply.status == StatusCreated
    ensures r.failure.Some? ==> r.effect == Unchanged
    ensures r.failure.None? ==> r.effect == Stored(plan.(id := Known(reply.body.asTarget.value.severity.id)))
  {
    var call := Severities.Create(c, Submitted(plan), reply);
    match call.result
    case Failure(e) => Step(call.sent, Unchanged, Some(e))
    case Success(response) => Step(call.sent, Stored(plan.(id := Known(response.severity.id))), None)
  }

  /** Only a 404 reply removes the state; any other decodable reply is taken as the severity. */
  function Read(c: Client, prior: SeverityData, reply: Reply<Severities.SeverityResponse>): (r: Step<(), SeverityData>)
    ensures r.sent.Some? <==> StringOf(prior.id) != ""
    ensures r.sent.Some? ==> r.sent.value.verb == GET && r.sent.value.url == JoinUrl(c.hostUrl, "/v1/severities/" + StringOf(prior.id))
    ensures r.effect.Removed? <==> r.sent.Some? && reply.Received? && reply.status == StatusNotFound
    ensures r.effect.Stored? <==> r.sent.Some? && Decodes(reply) && reply.status != StatusNotFound
    ensures r.effect.Stored? ==> r.effect.state == Described(reply.body.asTarget.value.severity)
    ensures r.failure.Some? <==> r.effect.Unchanged?
  {
    var call := Severities.Get(c, StringOf(prior.id), reply);
    match call.result
    case Failure(e) =>
      if IsErrorStatus(e, StatusNotFound) then Step(call.sent, Removed, None)
      else Step(call.sent, Unchanged, Some(e))
    case Success(response) => Step(call.sent, Stored(Described(response.severity)), None)
  }

  function Update(c: Client, plan: SeverityData, reply: Reply<Severities.SeverityResponse>): (r: Step<Severities.Severity, SeverityData>)
    ensures r.sent.Some? && r.sent.value.verb == PUT && r.sent.value.url == JoinUrl(c.hostUrl, "/v1/severities/" + StringOf(plan.id))
    ensures r.sent.value.body == Some(Submitted(plan))
    ensures r.failure.None? <==> Decodes(reply) && reply.status == StatusOK
    ensures r.failure.None? ==> r.effect == Stored(plan)
    ensures r.failure.Some? ==> r.effect == Unchanged
  {
    var call := Severities.Update(c, StringOf(plan.id), Submitted(plan), reply);
    match call.result
    case Failure(e) => Step(call.sent, Unchanged, Some(e))
    case Success(_) => Step(call.sent, Stored(plan), None)
  }

  /** A 404 is success: the resource is already gone. Deletion is confirmed with 202. */
  function Delete(c: Client, prior: SeverityData, reply: Reply<()>): (r: Step<(), SeverityData>)
    requires !reply.ConnectFailed?
    ensures r.sent.Some? && r.sent.value.verb == DELETE && r.sent.value.url == JoinUrl(c.hostUrl, "/v1/severities/" + StringOf(prior.id))
    ensures r.effect == Unchanged
    ensures r.failure.None? <==> reply.Received? && reply.status in {StatusAccepted, StatusNotFound}
  {
    var call := Severities.Delete(c, StringOf(prior.id), reply);
    Step(call.sent, Unchanged, DeleteFailure(call.result))
  }

  predicate MutableKnown(d: SeverityData) {
    d.name.Known? && d.description.Known? && d.rank.Known?
  }

  /** A create followed by an echoing read gives back the state the create stored. */
  lemma {:induction false} CreateReadRoundTrip(
    c: Client, plan: SeverityData,
    created: Severities.SeverityResponse, echoed: Severities.SeverityResponse,
    raw1: string, raw2: string, e1: Option<ApiError>, e2: Option<ApiError>)
    requires MutableKnown(plan)
    requires created.severity.id != "" && echoed.severity.id == created.severity.id
    requires echoed.severity.fields == Submitted(plan)
    ensures Create(c, plan, Received(StatusCreated, Body(raw1, Some(created), e1))).effect.Stored?
    ensures Read(c, Create(c, plan, Received(StatusCreated, Body(raw1, Some(created), e1))).effect.state,
                 Received(StatusOK, Body(raw2, Some(echoed), e2))).effect
         == Create(c, plan, Received(StatusCreated, Body(raw1, Some(created), e1))).effect
  {
  }

  /**
   The bounds are in bytes, not characters: any name of at most 12 characters
   fits, none of more than 50 does, and 26 copies of 'é' (two bytes each) are
   refused although they are only 26 characters.
   */
  lemma {:induction false} NameLengthInBytes(name: string)
    ensures |name| <= 12 ==> Validators.ValidateLength(NameLength, "name", Known(name)) == []
    ensures |name| > 50 ==> Validators.ValidateLength(NameLength, "name", Known(name)) != []
    ensures Validators.ValidateLength(NameLength, "name", Known(seq(26, _ => 'é'))) != []
  {
    Validators.LengthByCharacters(NameLength, "name", name);
    var wide := seq(26, _ => 'é');
    assert forall i :: 0 <= i < |wide| ==> Validators.Utf8Width(wide[i]) == 2;
    Validators.Utf8LenUniform(wide, 2);
  }

  /** A description of up to 250 characters always fits; one of more than 1000 never does. */
  lemma {:induction false} DescriptionLengthInBytes(description: string)
    ensures |description| <= 250 ==> Validators.ValidateLength(DescriptionLength, "description", Known(description)) == []
    ensures |description| > 1000 ==> Validators.ValidateLength(DescriptionLength, "description", Known(description)) != []
  {
    Validators.LengthByCharacters(DescriptionLength, "description", description);
  }
}
