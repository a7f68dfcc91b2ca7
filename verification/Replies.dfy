/** What comes back from a request, and what the clients make of it. */
module Replies {
  import opened Wrappers
  import opened Errors
  import opened Json
  import opened HttpPolicy
  import opened Responses
  import opened State

  /** How a request can fail without a response. */
  datatype Fault = TimedOut | Disconnected | OtherHttpError | Crashed | Interrupted

  /**
   * A response: status, decoded body if it is JSON, whether a redirect in it stays on the
   * trusted origin, and whether a session cookie is held once its cookies are stored.
   */
  datatype Reply = Failed(fault: Fault) | Http(status: int, body: Option<Json>, sameOrigin: bool, session: bool)

  // ----- Railway

  /** The `data` object of a GraphQL response. */
  function DataOf(reply: Reply): Option<seq<(string, Json)>> {
    if reply.Http? && reply.status < 400 && reply.body.Some? && reply.body.value.Obj?
       && !Truthy(Get(reply.body.value.entries, "errors")) && Get(reply.body.value.entries, "data").Obj?
    then Some(Get(reply.body.value.entries, "data").entries)
    else None
  }

  /** Replies after which a read is tried again: timeouts, transport errors and the listed statuses. */
  predicate CanRetry(retry: RetryPolicy, reply: Reply) {
    match reply
    case Failed(fault) => fault.TimedOut? || fault.Disconnected?
    case Http(status, _, _, _) => status >= 400 && status != 401 && status != 403 && status in retry.statuses
  }

  lemma RetryReads(retry: RetryPolicy, reply: Reply)
    ensures CanRetry(retry, reply) <==>
      || reply == Failed(TimedOut) || reply == Failed(Disconnected)
      || (reply.Http? && reply.status in retry.statuses && reply.status >= 400 && reply.status !in {401, 403})
  {
  }

  // ----- Hermes

  datatype Op = LoginOp | StatusOp | RestartOp

  function HealthOf(reply: Reply): HealthProbe {
    if reply.Http? && reply.status == 200 && reply.body.Some? && reply.body.value.Obj? then
      Some(HealthResult(true, Get(reply.body.value.entries, "gateway_running") == Bool(true),
                        Platforms(Get(reply.body.value.entries, "gateway_platforms"))))
    else None
  }

  /** A login that was accepted and left a session cookie. */
  predicate LoginOk(reply: Reply) {
    && reply.Http? && reply.status == 200 && reply.session
    && reply.body.Some? && reply.body.value.Obj? && Get(reply.body.value.entries, "ok") == Bool(true)
  }

  predicate Unauthorized(reply: Reply) {
    reply.Http? && reply.status == 401
  }

  predicate UnsafeRedirect(reply: Reply) {
    reply.Http? && 300 <= reply.status < 400 && !reply.sameOrigin
  }

  /** What a response to the restart request means once it is not a 401 any more. */
  function RestartVerdict(reply: Reply): Result<(), Error>
    requires reply.Http?
  {
    if reply.status >= 400 then Err(HermesHttp)
    else if reply.body.None? || !reply.body.value.Obj? then Ok(())
    else if Get(reply.body.value.entries, "ok") == Bool(false) then Err(HermesHttp)
    else if Has(reply.body.value.entries, "error") then Err(HermesHttp)
    else Ok(())
  }

  /** A response below 400 on the trusted origin that does not report failure itself. */
  predicate RestartAccepted(reply: Reply) {
    reply.Http? && !UnsafeRedirect(reply) && RestartVerdict(reply).Ok?
  }

  /** When a restart request counts as accepted, in the fields of its response. */
  lemma AcceptedReads(reply: Reply)
    ensures RestartAccepted(reply) <==>
      && reply.Http? && (reply.status < 300 || (reply.status < 400 && reply.sameOrigin))
      && !(reply.body.Some? && reply.body.value.Obj?
           && (Get(reply.body.value.entries, "ok") == Bool(false)
               || exists i | 0 <= i < |reply.body.value.entries| :: reply.body.value.entries[i].0 == "error"))
  {
  }

  function ErrorOf(fault: Fault): Error {
    match fault
    case TimedOut => HermesTimeout
    case Disconnected => HermesHttp
    case OtherHttpError => HermesHttp
    case Crashed => Unexpected
    case Interrupted => Interrupt
  }

  /** The error of a request that got no usable response, else what the operation makes of the response. */
  function RequestError(reply: Reply, otherwise: Error): Error {
    if reply.Failed? then ErrorOf(reply.fault) else if UnsafeRedirect(reply) then HermesProtocol else otherwise
  }

  /** The error an operation's last reply calls for; nothing when it succeeded. */
  function FailureOf(op: Op, reply: Reply): Option<Error> {
    match op
    case LoginOp => if LoginOk(reply) then None else Some(RequestError(reply, HermesAuth))
    case RestartOp => if RestartAccepted(reply) then None else Some(RequestError(reply, HermesHttp))
    case StatusOp =>
      if HealthOf(reply).Some? then None
      else Some(RequestError(reply,
        if Unauthorized(reply) then HermesAuth
        else if reply.Http? && reply.status == 200 then HermesProtocol
        else HermesHttp))
  }

  // ----- the web UI

  /** The web UI answers: with a page, or with a redirect to its login. */
  predicate WebOk(reply: Reply) {
    reply.Http? && (reply.status == 200 || reply.status == 302)
  }
}
