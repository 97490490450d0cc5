/**
 The custom field resource (internal/provider/custom_field_resource.go):
 how create, read, update and delete move Terraform state.
 */
module CustomFieldResource {
  import opened Wrappers
  import opened Api
  import opened TfTypes
  import opened Lifecycle
  import CustomFields

  /** The resource's Terraform attributes. */
  datatype CustomFieldData = CustomFieldData(
    id: TfString,
    name: TfString,
    description: TfString,
    required: TfString,
    showBeforeClosure: TfBool,
    showBeforeCreation: TfBool,
    fieldType: TfString)

  /** The fields a plan submits: strings cast as they are, no option list. */
  function Submitted(data: CustomFieldData): CustomFields.CustomField {
    CustomFields.CustomField(
      StringOf(data.name), StringOf(data.description), StringOf(data.required),
      BoolOf(data.showBeforeClosure), BoolOf(data.showBeforeCreation), StringOf(data.fieldType), [])
  }

  /** The attributes a response describes. */
  function Described(m: CustomFields.CustomFieldMetadata): CustomFieldData {
    CustomFieldData(
      Known(m.id), Known(m.fields.name), Known(m.fields.description), Known(m.fields.required),
      Known(m.fields.showBeforeClosure), Known(m.fields.showBeforeCreation), Known(m.fields.fieldType))
  }

  /** POST the planned fields; on success store the plan under the id the server assigned. */
  function Create(c: Client, plan: CustomFieldData, reply: Reply<CustomFields.CustomFieldResponse>): (r: Step<CustomFields.CustomField, CustomFieldData>)
    ensures r.sent.Some? && r.sent.value.verb == POST && r.sent.value.url == JoinUrl(c.hostUrl, "/v1/custom_fields")
    ensures r.sent.value.body == Some(CustomFields.CustomField(
      StringOf(plan.name), StringOf(plan.description), StringOf(plan.required),
      BoolOf(plan.showBeforeClosure), BoolOf(plan.showBeforeCreation), StringOf(plan.fieldType), []))
    ensures r.failure.None? <==> Decodes(reply) && reply.status == StatusCreated
    ensures r.failure.Some? ==> r.effect == Unchanged
    ensures r.failure.None? ==> r.effect == Stored(plan.(id := Known(reply.body.asTarget.value.customField.id)))
  {
    var call := CustomFields.Create(c, Submitted(plan), reply);
    match call.result
    case Failure(e) => Step(call.sent, Unchanged, Some(e))
    case Success(response) => Step(call.sent, Stored(plan.(id := Known(response.customField.id))), None)
  }

  function Read(c: Client, prior: CustomFieldData, reply: Reply<CustomFields.CustomFieldResponse>): (r: Step<(), CustomFieldData>)
    ensures r.sent.Some? <==> StringOf(prior.id) != ""
    ensures r.sent.Some? ==> r.sent.value.verb == GET && r.sent.value.url == JoinUrl(c.hostUrl, "/v1/custom_fields/" + StringOf(prior.id))
    ensures r.effect.Removed? <==>
      r.sent.Some? && reply.Received? && reply.status != StatusOK && ErrorSays(reply, StatusNotFound)
    ensures r.effect.Stored? <==> r.sent.Some? && Decodes(reply) && reply.status == StatusOK
    ensures r.effect.Stored? ==> r.effect.state == Described(reply.body.asTarget.value.customField)
    ensures r.failure.Some? <==> r.effect.Unchanged?
  {
    var call := CustomFields.Get(c, StringOf(prior.id), reply);
    match call.result
    case Failure(e) =>
      if IsErrorStatus(e, StatusNotFound) then Step(call.sent, Removed, None)
      else Step(call.sent, Unchanged, Some(e))
    case Success(response) => Step(call.sent, Stored(Described(response.customField)), None)
  }

  /** The plan is stored as it is; the reply's body is not looked at beyond decoding. */
  function Update(c: Client, plan: CustomFieldData, reply: Reply<CustomFields.CustomFieldResponse>): (r: Step<CustomFields.CustomField, CustomFieldData>)
    ensures r.sent.Some? && r.sent.value.verb == PUT && r.sent.value.url == JoinUrl(c.hostUrl, "/v1/custom_fields/" + StringOf(plan.id))
    ensures r.sent.value.body == Some(Submitted(plan))
    ensures r.failure.None? <==> Decodes(reply) && reply.status == StatusOK
    ensures r.failure.None? ==> r.effect == Stored(plan)
    ensures r.failure.Some? ==> r.effect == Unchanged
  {
    var call := CustomFields.Update(c, StringOf(plan.id), Submitted(plan), reply);
    match call.result
    case Failure(e) => Step(call.sent, Unchanged, Some(e))
    case Success(_) => Step(call.sent, Stored(plan), None)
  }

  /** A 404 is success: the resource is already gone. */
  function Delete(c: Client, prior: CustomFieldData, reply: Reply<()>): (r: Step<(), CustomFieldData>)
    requires !reply.ConnectFailed?
    ensures r.sent.Some? && r.sent.value.verb == DELETE && r.sent.value.url == JoinUrl(c.hostUrl, "/v1/custom_fields/" + StringOf(prior.id))
    ensures r.effect == Unchanged
    ensures r.failure.None? <==> reply.Received? && reply.status in {StatusNoContent, StatusNotFound}
  {
    var call := CustomFields.Delete(c, StringOf(prior.id), reply);
    Step(call.sent, Unchanged, DeleteFailure(call.result))
  }

  /** Every attribute a plan submits is known. */
  predicate MutableKnown(d: CustomFieldData) {
    d.name.Known? && d.description.Known? && d.required.Known? &&
    d.showBeforeClosure.Known? && d.showBeforeCreation.Known? && d.fieldType.Known?
  }

  /**
   A create followed by a read whose server echoes the submitted fields under
   the new id gives back exactly the state the create stored.
   */
  lemma {:induction false} CreateReadRoundTrip(
    c: Client, plan: CustomFieldData,
    created: CustomFields.CustomFieldResponse, echoed: CustomFields.CustomFieldResponse,
    raw1: string, raw2: string, e1: Option<ApiError>, e2: Option<ApiError>)
    requires MutableKnown(plan)
    requires created.customField.id != "" && echoed.customField.id == created.customField.id
    requires echoed.customField.fields.(options := []) == Submitted(plan)
    ensures Create(c, plan, Received(StatusCreated, Body(raw1, Some(created), e1))).effect.Stored?
    ensures Read(c, Create(c, plan, Received(StatusCreated, Body(raw1, Some(created), e1))).effect.state,
                 Received(StatusOK, Body(raw2, Some(echoed), e2))).effect
         == Create(c, plan, Received(StatusCreated, Body(raw1, Some(created), e1))).effect
  {
  }
}
