/**
 The custom field option resource
 (internal/provider/custom_field_option_resource.go): how create, read,
 update and delete move Terraform state.
 */
module CustomFieldOptionResource {
  import opened Wrappers
  import opened Api
  import opened TfTypes
  import opened Lifecycle
  import CustomFieldOptions

  /** The resource's Terraform attributes. */
  datatype CustomFieldOptionData = CustomFieldOptionData(id: TfString, customFieldId: TfString, value: TfString, sortKey: TfInt64)

  function Submitted(data: CustomFieldOptionData): CustomFieldOptions.CustomFieldOption {
    CustomFieldOptions.CustomFieldOption(StringOf(data.customFieldId), Int64Of(data.sortKey), StringOf(data.value))
  }

  function Described(m: CustomFieldOptions.CustomFieldOptionMetadata): CustomFieldOptionData {
    CustomFieldOptionData(Known(m.id), Known(m.fields.customFieldId), Known(m.fields.value), Known(m.fields.sortKey))
  }

  function Create(c: Client, plan: CustomFieldOptionData, reply: Reply<CustomFieldOptions.CustomFieldOptionResponse>): (r: Step<CustomFieldOptions.CustomFieldOption, CustomFieldOptionData>)
    ensures r.sent.Some? && r.sent.value.verb == POST && r.sent.value.url == JoinUrl(c.hostUrl, "/v1/custom_field_options")
    ensures r.sent.value.body == Some(CustomFieldOptions.CustomFieldOption(StringOf(plan.customFieldId), Int64Of(plan.sortKey), StringOf(plan.value)))
    ensures r.failure.None? <==> Decodes(reply) && reply.status == StatusCreated
    ensures r.failure.Some? ==> r.effect == Unchanged
    ensures r.failure.None? ==> r.effect == Stored(plan.(id := Known(reply.body.asTarget.value.customFieldOption.id)))
  {
    var call := CustomFieldOptions.Create(c, Submitted(plan), reply);
    match call.result
    case Failure(e) => Step(call.sent, Unchanged, Some(e))
    case Success(response) => Step(call.sent, Stored(plan.(id := Known(response.customFieldOption.id))), None)
  }

  function Read(c: Client, prior: CustomFieldOptionData, reply: Reply<CustomFieldOptions.CustomFieldOptionResponse>): (r: Step<(), CustomFieldOptionData>)
    ensures r.sent.Some? <==> StringOf(prior.id) != ""
    ensures r.sent.Some? ==> r.sent.value.verb == GET && r.sent.value.url == JoinUrl(c.hostUrl, "/v1/custom_field_options/" + StringOf(prior.id))
    ensures r.effect.Removed? <==>
      r.sent.Some? && reply.Received? && reply.status != StatusOK && ErrorSays(reply, StatusNotFound)
    ensures r.effect.Stored? <==> r.sent.Some? && Decodes(reply) && reply.status == StatusOK
    ensures r.effect.Stored? ==> r.effect.state == Described(reply.body.asTarget.value.customFieldOption)
    ensures r.failure.Some? <==> r.effect.Unchanged?
  {
    var call := CustomFieldOptions.Get(c, StringOf(prior.id), reply);
    match call.result
    case Failure(e) =>
      if IsErrorStatus(e, StatusNotFound) then Step(call.sent, Removed, None)
      else Step(call.sent, Unchanged, Some(e))
    case Success(response) => Step(call.sent, Stored(Described(response.customFieldOption)), None)
  }

  function Update(c: Client, plan: CustomFieldOptionData, reply: Reply<CustomFieldOptions.CustomFieldOptionResponse>): (r: Step<CustomFieldOptions.CustomFieldOption, CustomFieldOptionData>)
    ensures r.sent.Some? && r.sent.value.verb == PUT && r.sent.value.url == JoinUrl(c.hostUrl, "/v1/custom_field_options/" + StringOf(plan.id))
    ensures r.sent.value.body == Some(Submitted(plan))
    ensures r.failure.None? <==> Decodes(reply) && reply.status == StatusOK
    ensures r.failure.None? ==> r.effect == Stored(plan)
    ensures r.failure.Some? ==> r.effect == Unchanged
  {
    var call := CustomFieldOptions.Update(c, StringOf(plan.id), Submitted(plan), reply);
    match call.result
    case Failure(e) => Step(call.sent, Unchanged, Some(e))
    case Success(_) => Step(call.sent, Stored(plan), None)
  }

  /** A 404 is success: the resource is already gone. */
  function Delete(c: Client, prior: CustomFieldOptionData, reply: Reply<()>): (r: Step<(), CustomFieldOptionData>)
    requires !reply.ConnectFailed?
    ensures r.sent.Some? && r.sent.value.verb == DELETE && r.sent.value.url == JoinUrl(c.hostUrl, "/v1/custom_field_options/" + StringOf(prior.id))
    ensures r.effect == Unchanged
    ensures r.failure.None? <==> reply.Received? && reply.status in {StatusNoContent, StatusNotFound}
  {
    var call := CustomFieldOptions.Delete(c, StringOf(prior.id), reply);
    Step(call.sent, Unchanged, DeleteFailure(call.result))
  }

  predicate MutableKnown(d: CustomFieldOptionData) {
    d.customFieldId.Known? && d.value.Known? && d.sortKey.Known?
  }

  /** A create followed by an echoing read gives back the state the create stored. */
  lemma {:induction false} CreateReadRoundTrip(
    c: Client, plan: CustomFieldOptionData,
    created: CustomFieldOptions.CustomFieldOptionResponse, echoed: CustomFieldOptions.CustomFieldOptionResponse,
    raw1: string, raw2: string, e1: Option<ApiError>, e2: Option<ApiError>)
    requires MutableKnown(plan)
    requires created.customFieldOption.id != "" && echoed.customFieldOption.id == created.customFieldOption.id
    requires echoed.customFieldOption.fields == Submitted(plan)
    ensures Create(c, plan, Received(StatusCreated, Body(raw1, Some(created), e1))).effect.Stored?
    ensures Read(c, Create(c, plan, Received(StatusCreated, Body(raw1, Some(created), e1))).effect.state,
                 Received(StatusOK, Body(raw2, Some(echoed), e2))).effect
         == Create(c, plan, Received(StatusCreated, Body(raw1, Some(created), e1))).effect
  {
  }
}
