/**
 The generic get/create/update/delete helpers of the client
 (incidentio/client.go), parameterised by the resource's URL part.
 */
module Crud {
  import opened Wrappers
  import opened Api
  import Policy

  /** What a non-success status turns into: the decoded API error body. */
  function Rejected<R>(body: Body<R>): Result<R, ClientError> {
    Failure(DecodeError(body))
  }

  function Get<R(==)>(c: Client, urlPart: string, id: string, reply: Reply<R>): (r: Call<(), R>)
    ensures Policy.Conforms(Policy.GenericRule(Policy.Get), id, reply, r)
    ensures Policy.SentTo(r, c, Policy.Get, Policy.ResourcePath(urlPart, Policy.Get, id), None)
  {
    if id == "" then Call(None, Failure(MissingId))
    else
      var req := Issue(c, GET, "/v1/" + urlPart + "/" + id, None);
      match reply
      case ConnectFailed => Call(Some(req), Failure(TransportFailed))
      case ReadFailed(_) => Call(Some(req), Failure(TransportFailed))
      case Received(status, body) =>
        if status != StatusOK then Call(Some(req), Rejected(body))
        else Call(Some(req), DecodeTarget(body))
  }

  function Create<I(==), R(==)>(c: Client, urlPart: string, input: I, reply: Reply<R>): (r: Call<I, R>)
    ensures Policy.Conforms(Policy.GenericRule(Policy.Create), "", reply, r)
    ensures Policy.SentTo(r, c, Policy.Create, Policy.ResourcePath(urlPart, Policy.Create, ""), Some(input))
  {
    var req := Issue(c, POST, "/v1/" + urlPart, Some(input));
    match reply
    case ConnectFailed => Call(Some(req), Failure(TransportFailed))
    case ReadFailed(_) => Call(Some(req), Failure(TransportFailed))
    case Received(status, body) =>
      if status != StatusCreated then Call(Some(req), Rejected(body))
      else Call(Some(req), DecodeTarget(body))
  }

  function Update<I(==), R(==)>(c: Client, urlPart: string, id: string, input: I, reply: Reply<R>): (r: Call<I, R>)
    ensures Policy.Conforms(Policy.GenericRule(Policy.Update), id, reply, r)
    ensures Policy.SentTo(r, c, Policy.Update, Policy.ResourcePath(urlPart, Policy.Update, id), Some(input))
  {
    if id == "" then Call(None, Failure(MissingId))
    else
      var req := Issue(c, PUT, "/v1/" + urlPart + "/" + id, Some(input));
      match reply
      case ConnectFailed => Call(Some(req), Failure(TransportFailed))
      case ReadFailed(_) => Call(Some(req), Failure(TransportFailed))
      case Received(status, body) =>
        if status != StatusOK then Call(Some(req), Rejected(body))
        else Call(Some(req), DecodeTarget(body))
  }

  function Delete(c: Client, urlPart: string, id: string, reply: Reply<()>): (r: Call<(), ()>)
    ensures Policy.Conforms(Policy.GenericRule(Policy.Delete), id, reply, r)
    ensures Policy.SentTo(r, c, Policy.Delete, Policy.ResourcePath(urlPart, Policy.Delete, id), None)
  {
    if id == "" then Call(None, Failure(MissingId))
    else
      var req := Issue(c, DELETE, "/v1/" + urlPart + "/" + id, None);
      match reply
      case ConnectFailed => Call(Some(req), Failure(TransportFailed))
      case ReadFailed(_) => Call(Some(req), Failure(TransportFailed))
      case Received(status, body) =>
        if status != StatusNoContent && status != StatusAccepted then Call(Some(req), Rejected(body))
        else Call(Some(req), Success(()))
  }

  /** A generic delete refuses a 404 even when the body decodes: the caller sees the API error. */
  lemma {:induction false} GenericDeleteRefusesNotFound(c: Client, urlPart: string, id: string, body: Body<()>)
    requires id != ""
    ensures Delete(c, urlPart, id, Received(StatusNotFound, body)).result == Failure(DecodeError(body))
  {
  }
}
