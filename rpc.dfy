/**
  One RPC round trip of the blocking HTTP connection: the request message,
  the headers derived from the session, the transport's outcome and the
  checks applied to the decoded response.
*/
module Rpc {
  import opened Wrappers
  import opened Values

  /** The RPC verbs the connection issues. */
  datatype RpcMethod =
    | Authenticate | Invalidate | SignUp | SignIn | Info | Use | Query
    | Create | Delete | Insert | InsertRelation | Merge | Patch | Select
    | Update | Version | Upsert

  /** A request message: its id, its verb and its keyword arguments. */
  datatype Message = Message(id: string, verb: RpcMethod, params: map<string, Value>)

  /** What is posted to the server: the headers and the message. */
  datatype Request = Request(headers: map<string, string>, message: Message)

  /** The decoded response: a dictionary. */
  type Payload = map<string, Value>

  /** What the transport gives back: a decoded payload, or a failed post (network error or error status). */
  datatype Reply = Received(payload: Payload) | TransportFailed

  /** Why an operation did not complete. */
  datatype Failure =
    | TransportError                              // the post failed or returned an error status
    | RemoteError(operation: string, detail: Value) // the response carries an "error" entry
    | NoResult(operation: string)                 // the response has no "result" entry
    | Malformed                                   // result[0]["result"] does not exist
    | KeyNotBound(key: string)                    // unset of a variable that is not bound

  const CborMediaType: string := "application/cbor"

  /** `if self.token:` — a token is sent only when set and truthy. */
  predicate TokenSet(token: Option<Value>) {
    token.Some? && Truthy(token.value)
  }

  /** `if self.namespace:` / `if self.database:` — set and non-empty. */
  predicate NonEmpty(name: Option<string>) {
    name.Some? && name.value != ""
  }

  /** The headers `_send` attaches, derived from the session fields. */
  function Headers(token: Option<Value>, namespace: Option<string>, database: Option<string>): (h: map<string, string>)
    ensures "Accept" in h && h["Accept"] == CborMediaType
    ensures "Content-Type" in h && h["Content-Type"] == CborMediaType
    ensures "Authorization" in h <==> TokenSet(token)
    ensures TokenSet(token) ==> h["Authorization"] == "Bearer " + Render(token.value)
    ensures "Surreal-NS" in h <==> NonEmpty(namespace)
    ensures NonEmpty(namespace) ==> h["Surreal-NS"] == namespace.value
    ensures "Surreal-DB" in h <==> NonEmpty(database)
    ensures NonEmpty(database) ==> h["Surreal-DB"] == database.value
    ensures h.Keys <= {"Accept", "Content-Type", "Authorization", "Surreal-NS", "Surreal-DB"}
  {
    var fixed := map["Accept" := CborMediaType, "Content-Type" := CborMediaType];
    var withAuth := if TokenSet(token) then fixed["Authorization" := "Bearer " + Render(token.value)] else fixed;
    var withNs := if NonEmpty(namespace) then withAuth["Surreal-NS" := namespace.value] else withAuth;
    if NonEmpty(database) then withNs["Surreal-DB" := database.value] else withNs
  }

  /**
    The end of `_send`: a failed post is a transport error; otherwise the
    payload is returned, after the error check unless `bypass` is set.
  */
  function Checked(reply: Reply, operation: string, bypass: bool): (r: Result<Payload, Failure>)
    ensures reply.TransportFailed? ==> r == Err(TransportError)
    ensures reply.Received? && bypass ==> r == Ok(reply.payload)
    ensures reply.Received? && !bypass ==> (r.Ok? <==> "error" !in reply.payload)
    ensures r.Ok? ==> reply.Received? && r.value == reply.payload
    ensures reply.Received? && r.Err? ==> r.error == RemoteError(operation, reply.payload["error"])
  {
    match reply
    case TransportFailed => Err(TransportError)
    case Received(payload) =>
      if !bypass && "error" in payload then Err(RemoteError(operation, payload["error"]))
      else Ok(payload)
  }

  /** The result check followed by `response["result"]`. */
  function ResultField(payload: Payload, operation: string): (r: Result<Value, Failure>)
    ensures r.Ok? <==> "result" in payload
    ensures r.Ok? ==> r.value == payload["result"]
    ensures r.Err? ==> r.error == NoResult(operation)
  {
    if "result" in payload then Ok(payload["result"]) else Err(NoResult(operation))
  }

  /** A validated call: send without bypass, check the result, return `response["result"]`. */
  function Validated(reply: Reply, operation: string): (r: Result<Value, Failure>)
    ensures r.Ok? <==> reply.Received? && "error" !in reply.payload && "result" in reply.payload
    ensures r.Ok? ==> r.value == reply.payload["result"]
    ensures reply.Received? && "error" in reply.payload ==> r == Err(RemoteError(operation, reply.payload["error"]))
  {
    var payload :- Checked(reply, operation, false);
    ResultField(payload, operation)
  }

  /** `result[0]["result"]`: the result of the first statement of a query. */
  function FirstStatementResult(result: Value): (r: Result<Value, Failure>)
    ensures r.Ok? <==> result.List? && |result.items| > 0 && result.items[0].Dict?
                       && "result" in result.items[0].entries
    ensures r.Ok? ==> r.value == result.items[0].entries["result"]
    ensures r.Err? ==> r.error == Malformed
  {
    match result
    case List(items) =>
      if |items| > 0 && items[0].Dict? && "result" in items[0].entries
      then Ok(items[0].entries["result"])
      else Err(Malformed)
    case _ => Err(Malformed)
  }

  /**
    What `query` returns for a reply: `response["result"][0]["result"]` when
    the post went through, the response has no error, has a result, and that
    result is a list whose first element is a dictionary with a "result" key;
    otherwise the first of these conditions that fails decides the failure.
  */
  function QueryOutcome(reply: Reply): (r: Result<Value, Failure>)
    ensures r.Ok? <==> reply.Received? && "error" !in reply.payload && "result" in reply.payload
                       && reply.payload["result"].List? && |reply.payload["result"].items| > 0
                       && reply.payload["result"].items[0].Dict?
                       && "result" in reply.payload["result"].items[0].entries
    ensures r.Ok? ==> r.value == reply.payload["result"].items[0].entries["result"]
    ensures reply.TransportFailed? ==> r == Err(TransportError)
    ensures reply.Received? && "error" in reply.payload ==> r == Err(RemoteError("query", reply.payload["error"]))
    ensures reply.Received? && "error" !in reply.payload && "result" !in reply.payload ==> r == Err(NoResult("query"))
    ensures reply.Received? && "error" !in reply.payload && "result" in reply.payload && r.Err? ==> r == Err(Malformed)
  {
    var result :- Validated(reply, "query");
    FirstStatementResult(result)
  }

  /** A query response with one statement unwraps to that statement's result. */
  lemma QueryUnwrapsSingleStatement(rows: Value)
    ensures QueryOutcome(Received(map["result" := List([Dict(map["result" := rows])])])) == Ok(rows)
  {
  }

  /** A response carrying an error fails every validated call with that error, and passes the bypass unchanged. */
  lemma ErrorSurfaces(payload: Payload, operation: string)
    requires "error" in payload
    ensures Validated(Received(payload), operation) == Err(RemoteError(operation, payload["error"]))
    ensures Checked(Received(payload), operation, true) == Ok(payload)
  {
  }
}
