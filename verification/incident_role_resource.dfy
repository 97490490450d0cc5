/**
 The incident role resource (internal/provider/incident_role_resource.go):
 configuration, and how create, read, update and delete move Terraform state.
 */
module IncidentRoleResource {
  import opened Wrappers
  import opened Api
  import opened TfTypes
  import opened Lifecycle
  import IncidentRoles

  /** The resource's Terraform attributes. */
  datatype IncidentRoleData = IncidentRoleData(
    id: TfString,
    name: TfString,
    description: TfString,
    required: TfBool,
    instructions: TfString,
    shortForm: TfString)

  /**
   The provider data is asserted to be a client without a check, so anything
   other than nothing or a client is outside what the source can handle.
   */
  function Configure(current: Option<Client>, data: ProviderData): (r: Option<Client>)
    requires !data.OtherData?
    ensures data.NoProviderData? ==> r == current
    ensures data.ClientData? ==> r == Some(data.client)
  {
    match data
    case NoProviderData => current
    case ClientData(client) => Some(client)
  }

  function Submitted(data: IncidentRoleData): IncidentRoles.IncidentRole {
    IncidentRoles.IncidentRole(
      StringOf(data.name), StringOf(data.description), BoolOf(data.required),
      StringOf(data.instructions), StringOf(data.shortForm))
  }

  /** The attributes a response describes; the role type is not one of them. */
  function Described(m: IncidentRoles.IncidentRoleMetadata): IncidentRoleData {
    IncidentRoleData(
      Known(m.id), Known(m.fields.name), Known(m.fields.description), Known(m.fields.required),
      Known(m.fields.instructions), Known(m.fields.shortForm))
  }

  function Create(c: Client, plan: IncidentRoleData, reply: Reply<IncidentRoles.IncidentRoleResponse>): (r: Step<IncidentRoles.IncidentRole, IncidentRoleData>)
    ensures r.sent.Some? && r.sent.value.verb == POST && r.sent.value.url == JoinUrl(c.hostUrl, "/v1/incident_roles")
    ensures r.sent.value.body == Some(IncidentRoles.IncidentRole(
      StringOf(plan.name), StringOf(plan.description), BoolOf(plan.required),
      StringOf(plan.instructions), StringOf(plan.shortForm)))
    ensures r.failure.None? <==> Decodes(reply) && reply.status == StatusCreated
    ensures r.failure.Some? ==> r.effect == Unchanged
    ensures r.failure.None? ==> r.effect == Stored(plan.(id := Known(reply.body.asTarget.value.incidentRole.id)))
  {
    var call := IncidentRoles.Create(c, Submitted(plan), reply);
    match call.result
    case Failure(e) => Step(call.sent, Unchanged, Some(e))
    case Success(response) => Step(call.sent, Stored(plan.(id := Known(response.incidentRole.id))), None)
  }

  /** Only a 404 reply removes the state; any other decodable reply is taken as the role. */
  function Read(c: Client, prior: IncidentRoleData, reply: Reply<IncidentRoles.IncidentRoleResponse>): (r: Step<(), IncidentRoleData>)
    ensures r.sent.Some? <==> StringOf(prior.id) != ""
    ensures r.sent.Some? ==> r.sent.value.verb == GET && r.sent.value.url == JoinUrl(c.hostUrl, "/v1/incident_roles/" + StringOf(prior.id))
    ensures r.effect.Removed? <==> r.sent.Some? && reply.Received? && reply.status == StatusNotFound
    ensures r.effect.Stored? <==> r.sent.Some? && Decodes(reply) && reply.status != StatusNotFound
    ensures r.effect.Stored? ==> r.effect.state == Described(reply.body.asTarget.value.incidentRole)
    ensures r.failure.Some? <==> r.effect.Unchanged?
  {
    var call := IncidentRoles.Get(c, StringOf(prior.id), reply);
    match call.result
    case Failure(e) =>
      if IsErrorStatus(e, StatusNotFound) then Step(call.sent, Removed, None)
      else Step(call.sent, Unchanged, Some(e))
    case Success(response) => Step(call.sent, Stored(Described(response.incidentRole)), None)
  }

  /** The plan is stored whatever status came back, as long as the body decodes. */
  function Update(c: Client, plan: IncidentRoleData, reply: Reply<IncidentRoles.IncidentRoleResponse>): (r: Step<IncidentRoles.IncidentRole, IncidentRoleData>)
    ensures r.sent.Some? && r.sent.value.verb == PUT && r.sent.value.url == JoinUrl(c.hostUrl, "/v1/incident_roles/" + StringOf(plan.id))
    ensures r.sent.value.body == Some(Submitted(plan))
    ensures r.failure.None? <==> Decodes(reply)
    ensures r.failure.None? ==> r.effect == Stored(plan)
    ensures r.failure.Some? ==> r.effect == Unchanged
  {
    var call := IncidentRoles.Update(c, StringOf(plan.id), Submitted(plan), reply);
    match call.result
    case Failure(e) => Step(call.sent, Unchanged, Some(e))
    case Success(_) => Step(call.sent, Stored(plan), None)
  }

  /** A 404 is success: the resource is already gone. */
  function Delete(c: Client, prior: IncidentRoleData, reply: Reply<()>): (r: Step<(), IncidentRoleData>)
    requires !reply.ConnectFailed?
    ensures r.sent.Some? && r.sent.value.verb == DELETE && r.sent.value.url == JoinUrl(c.hostUrl, "/v1/incident_roles/" + StringOf(prior.id))
    ensures r.effect == Unchanged
    ensures r.failure.None? <==> reply.Received? && reply.status in {StatusNoContent, StatusNotFound}
  {
    var call := IncidentRoles.Delete(c, StringOf(prior.id), reply);
    Step(call.sent, Unchanged, DeleteFailure(call.result))
  }

  predicate MutableKnown(d: IncidentRoleData) {
    d.name.Known? && d.description.Known? && d.required.Known? && d.instructions.Known? && d.shortForm.Known?
  }

  /**
   A create followed by a read whose server echoes the submitted fields under
   the new id, with any role type, gives back the state the create stored.
   */
  lemma {:induction false} CreateReadRoundTrip(
    c: Client, plan: IncidentRoleData,
    created: IncidentRoles.IncidentRoleResponse, echoed: IncidentRoles.IncidentRoleResponse,
    raw1: string, raw2: string, e1: Option<ApiError>, e2: Option<ApiError>)
    requires MutableKnown(plan)
    requires created.incidentRole.id != "" && echoed.incidentRole.id == created.incidentRole.id
    requires echoed.incidentRole.fields == Submitted(plan)
    ensures Create(c, plan, Received(StatusCreated, Body(raw1, Some(created), e1))).effect.Stored?
    ensures Read(c, Create(c, plan, Received(StatusCreated, Body(raw1, Some(created), e1))).effect.state,
                 Received(StatusOK, Body(raw2, Some(echoed), e2))).effect
         == Create(c, plan, Received(StatusCreated, Body(raw1, Some(created), e1))).effect
  {
  }
}
