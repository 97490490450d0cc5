/**
 The request policy of every accessor, written as data: which resource path a
 verb uses, whether an empty id is refused before any request, and which
 response statuses count as success. Each accessor of the client is proved to
 behave as its row of this table says, so the table is the one place where
 the differences between resource kinds can be read and compared.
 */
module Policy {
  import opened Wrappers
  import opened Api

  datatype Kind = CustomFieldKind | CustomFieldOptionKind | IncidentRoleKind | SeverityKind

  datatype Verb = Get | Create | Update | Delete

  /** The URL segment of each resource kind. */
  function Segment(k: Kind): string {
    match k
    case CustomFieldKind => "custom_fields"
    case CustomFieldOptionKind => "custom_field_options"
    case IncidentRoleKind => "incident_roles"
    case SeverityKind => "severities"
  }

  /** `/v1/{segment}` for create, `/v1/{segment}/{id}` for the other verbs. */
  function ResourcePath(segment: string, v: Verb, id: string): string {
    if v == Create then "/v1/" + segment else "/v1/" + segment + "/" + id
  }

  function VerbMethod(v: Verb): Method {
    match v
    case Get => GET
    case Create => POST
    case Update => PUT
    case Delete => DELETE
  }

  /** How a response status is judged. */
  datatype StatusCheck =
      /** success on exactly these statuses */
    | AcceptOnly(accepted: set<int>)
      /** failure on exactly these statuses */
    | RejectOnly(rejected: set<int>)
      /** the status is never looked at */
    | Unchecked

  predicate Passes(check: StatusCheck, status: int) {
    match check
    case AcceptOnly(ok) => status in ok
    case RejectOnly(bad) => status !in bad
    case Unchecked => true
  }

  /** What a rejected status is reported as. */
  datatype Rejection =
      /** the body decoded as an API error */
    | DecodedApiError
      /** an error carrying the status and the raw body */
    | StatusAndBody

  /**
   One accessor's policy. `decodesBody` says whether success decodes the body;
   `statusBeforeReadError` says whether the status is judged before a failed
   body read is reported.
   */
  datatype Rule = Rule(checksId: bool, check: StatusCheck, onReject: Rejection, decodesBody: bool, statusBeforeReadError: bool)

  /** The generic helpers of the client. */
  function GenericRule(v: Verb): Rule {
    match v
    case Get => Rule(true, AcceptOnly({StatusOK}), DecodedApiError, true, false)
    case Create => Rule(false, AcceptOnly({StatusCreated}), DecodedApiError, true, false)
    case Update => Rule(true, AcceptOnly({StatusOK}), DecodedApiError, true, false)
    case Delete => Rule(true, AcceptOnly({StatusNoContent, StatusAccepted}), DecodedApiError, false, false)
  }

  /** The per-kind accessors. */
  function KindRule(k: Kind, v: Verb): Rule {
    match (k, v)
    case (_, Create) => Rule(false, AcceptOnly({StatusCreated}), DecodedApiError, true, false)
    case (IncidentRoleKind, Get) => Rule(true, RejectOnly({StatusNotFound}), StatusAndBody, true, false)
    case (SeverityKind, Get) => Rule(true, RejectOnly({StatusNotFound}), StatusAndBody, true, false)
    case (_, Get) => Rule(true, AcceptOnly({StatusOK}), DecodedApiError, true, false)
    case (IncidentRoleKind, Update) => Rule(false, Unchecked, DecodedApiError, true, false)
    case (_, Update) => Rule(false, AcceptOnly({StatusOK}), DecodedApiError, true, false)
    case (SeverityKind, Delete) => Rule(false, AcceptOnly({StatusAccepted, StatusNotFound}), StatusAndBody, false, true)
    case (_, Delete) => Rule(false, AcceptOnly({StatusNoContent, StatusNotFound}), StatusAndBody, false, true)
  }

  /** The outcome a rule prescribes for an id and a transport reply. */
  datatype Expected =
    | NoRequest
    | TransportError
    | Decoded
    | ApiErrorFromBody
    | StatusError
    | Done

  function Expect<R>(rule: Rule, id: string, reply: Reply<R>): Expected {
    if id == "" && rule.checksId then NoRequest
    else
      match reply
      case ConnectFailed => TransportError
      case ReadFailed(s) =>
        if rule.statusBeforeReadError && !Passes(rule.check, s) then StatusError else TransportError
      case Received(s, _) =>
        if Passes(rule.check, s) then
          (if rule.decodesBody then Decoded else Done)
        else if rule.onReject == DecodedApiError then ApiErrorFromBody
        else StatusError
  }

  /** Whether a call's request and result are the ones an expected outcome describes. */
  predicate Matches<I, R(==)>(e: Expected, call: Call<I, R>, reply: Reply<R>) {
    match e
    case NoRequest => call.sent.None? && call.result == Failure(MissingId)
    case TransportError => call.sent.Some? && call.result == Failure(TransportFailed)
    case Decoded => call.sent.Some? && reply.Received? && call.result == DecodeTarget(reply.body)
    case ApiErrorFromBody => call.sent.Some? && reply.Received? && call.result == Failure(DecodeError(reply.body))
    case StatusError =>
      call.sent.Some? && !reply.ConnectFailed? && call.result == Failure(UnexpectedStatus(reply.status, RawOf(reply)))
    case Done => call.sent.Some? && call.result.Success?
  }

  /** A call follows a rule: its outcome is the one the rule prescribes. */
  predicate Conforms<I, R(==)>(rule: Rule, id: string, reply: Reply<R>, call: Call<I, R>) {
    Matches(Expect(rule, id, reply), call, reply)
  }

  /** A call that sent a request sent it with the verb's method, the given path and body, authenticated. */
  predicate SentTo<I(==), R>(call: Call<I, R>, c: Client, v: Verb, path: string, body: Option<I>) {
    call.sent.Some? ==> call.sent.value == Issue(c, VerbMethod(v), path, body)
  }

  /** A per-kind accessor call follows its row of the table and sent the request the table names. */
  predicate Follows<I(==), R(==)>(c: Client, k: Kind, v: Verb, id: string, body: Option<I>, reply: Reply<R>, call: Call<I, R>) {
    && Conforms(KindRule(k, v), id, reply, call)
    && SentTo(call, c, v, ResourcePath(Segment(k), v, id), body)
  }

  /**
   The delete policies differ by kind: severities confirm with 202 where the
   other kinds confirm with 204, every kind accepts 404, and the generic helper
   accepts both 202 and 204 but not 404.
   */
  lemma DeletePolicies(k: Kind)
    ensures Passes(KindRule(k, Delete).check, StatusNotFound)
    ensures k == SeverityKind ==> Passes(KindRule(k, Delete).check, StatusAccepted) && !Passes(KindRule(k, Delete).check, StatusNoContent)
    ensures k != SeverityKind ==> Passes(KindRule(k, Delete).check, StatusNoContent) && !Passes(KindRule(k, Delete).check, StatusAccepted)
    ensures Passes(GenericRule(Delete).check, StatusNoContent) && Passes(GenericRule(Delete).check, StatusAccepted)
    ensures !Passes(GenericRule(Delete).check, StatusNotFound)
  {
  }

  /**
   Only incident roles and severities read a non-200 status other than 404 as a
   success; incident roles are the only kind whose update never fails on a status.
   */
  lemma TolerantAccessors(k: Kind, status: int)
    requires status != StatusOK && status != StatusNotFound
    ensures Passes(KindRule(k, Get).check, status) <==> (k == IncidentRoleKind || k == SeverityKind)
    ensures Passes(KindRule(k, Update).check, status) <==> k == IncidentRoleKind
  {
  }

  /** Only get refuses an empty id among the per-kind accessors; the generic helpers refuse it on every verb but create. */
  lemma EmptyIdChecks(k: Kind, v: Verb)
    ensures KindRule(k, v).checksId <==> v == Get
    ensures GenericRule(v).checksId <==> v != Create
  {
  }
}
