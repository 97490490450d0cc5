/**
 What the provider's resource operations do to Terraform state, shared by the
 four resources: the state a step stores or removes, the request it sent and
 the client error it reports as a diagnostic.
 */
module Lifecycle {
  import opened Wrappers
  import opened Api

  /** What an operation does to the resource's state. */
  datatype Effect<D> =
      /** nothing is written */
    | Unchanged
      /** the state is set to this record */
    | Stored(state: D)
      /** the resource is removed from state */
    | Removed

  /**
   One resource operation: the request it sent, its effect on state, and the
   client error it reported as a "Client Error" diagnostic, if any.
   */
  datatype Step<I, D> = Step(sent: Option<Request<I>>, effect: Effect<D>, failure: Option<ClientError>)

  /** What the provider hands a resource when configuring it. */
  datatype ProviderData = NoProviderData | ClientData(client: Client) | OtherData

  /** The client a resource holds after configuration and whether a diagnostic was raised. */
  datatype Configured = Configured(client: Option<Client>, failed: bool)

  /** A reply whose body decodes into the operation's target shape. */
  predicate Decodes<R>(reply: Reply<R>) {
    reply.Received? && reply.body.asTarget.Some?
  }

  /** A reply whose body decodes as an API error stating the status `code`. */
  predicate ErrorSays<R>(reply: Reply<R>, code: int) {
    reply.Received? && reply.body.asError.Some? && reply.body.asError.value.status == code
  }

  /** After a delete: a 404 error counts as already deleted; any other error is reported. */
  function DeleteFailure(result: Result<(), ClientError>): (failure: Option<ClientError>)
    ensures failure.None? <==> result.Success? || IsErrorStatus(result.error, StatusNotFound)
    ensures failure.Some? ==> result == Failure(failure.value)
  {
    match result
    case Success(_) => None
    case Failure(e) => if IsErrorStatus(e, StatusNotFound) then None else Some(e)
  }

  /**
   Configuration of a resource that checks what it is given: nothing happens
   until the provider is configured, a client is taken as the resource's
   client, and anything else is reported without touching the client.
   */
  function ConfigureChecked(current: Option<Client>, data: ProviderData): (r: Configured)
    ensures r.failed <==> data.OtherData?
    ensures data.ClientData? ==> r.client == Some(data.client)
    ensures !data.ClientData? ==> r.client == current
  {
    match data
    case NoProviderData => Configured(current, false)
    case ClientData(client) => Configured(Some(client), false)
    case OtherData => Configured(current, true)
  }
}
