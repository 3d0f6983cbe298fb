/**
  The synchronous HTTP connection: a session (token, namespace, database,
  bound variables and the id of the last message) that each RPC method reads
  to build its request and updates before or after the round trip.

  The network is a parameter: every sending method receives the `Reply` the
  transport would produce and the fresh message id the message would carry,
  and returns the `Request` it posts next to its result.
*/
module BlockingHttp {
  import opened Wrappers
  import opened Values
  import opened Things
  import opened Rpc

  /** `url.rstrip("/")`: the URL without its trailing slashes. */
  function TrimTrailingSlashes(url: string): (r: string)
    ensures r <= url
    ensures r == [] || r[|r| - 1] != '/'
    ensures forall k :: |r| <= k < |url| ==> url[k] == '/'
    decreases |url|
  {
    if url != [] && url[|url| - 1] == '/' then TrimTrailingSlashes(url[..|url| - 1]) else url
  }

  /**
    The parameters `query` and `query_raw` transmit: the caller's parameters
    (or none) with every bound variable written over them.
  */
  function WithBoundVars(params: Option<map<string, Value>>, bound: map<string, Value>): (r: map<string, Value>)
    ensures r.Keys == params.GetOr(map[]).Keys + bound.Keys
    ensures forall k :: k in bound ==> r[k] == bound[k]
    ensures forall k :: k in params.GetOr(map[]) && k !in bound ==> r[k] == params.value[k]
  {
    params.GetOr(map[]) + bound
  }

  /**
    The session's token after `self.token = response["result"]`: a None
    result leaves no token, any other value is the token.
  */
  function StoredToken(result: Value): (t: Option<Value>)
    ensures t.None? <==> result == Null
    ensures t.Some? ==> t.value == result
    ensures TokenSet(t) <==> Truthy(result)
  {
    if result == Null then None else Some(result)
  }

  class Conn {
    const rawUrl: string
    var token: Option<Value>
    var id: string
    var namespace: Option<string>
    var database: Option<string>
    var vars: map<string, Value>

    /** A new connection: no token, no namespace or database, no bound variable. */
    constructor (url: string, freshId: string)
      ensures rawUrl == TrimTrailingSlashes(url) && id == freshId
      ensures token == None && namespace == None && database == None && vars == map[]
    {
      rawUrl := TrimTrailingSlashes(url);
      token := None;
      id := freshId;
      namespace := None;
      database := None;
      vars := map[];
    }

    /**
      `_send`: post the message with the headers the session calls for, then
      check the decoded reply for an error unless `bypass` is set. The session
      is only read.
    */
    method Send(message: Message, operation: string, bypass: bool, reply: Reply)
      returns (r: Result<Payload, Failure>, sent: Request)
      ensures sent.message == message
      ensures sent.headers == Headers(token, namespace, database)
      ensures r == Checked(reply, operation, bypass)
    {
      var headers := map["Accept" := CborMediaType, "Content-Type" := CborMediaType];
      if TokenSet(token) {
        headers := headers["Authorization" := "Bearer " + Render(token.value)];
      }
      if NonEmpty(namespace) {
        headers := headers["Surreal-NS" := namespace.value];
      }
      if NonEmpty(database) {
        headers := headers["Surreal-DB" := database.value];
      }
      sent := Request(headers, message);
      r := Checked(reply, operation, bypass);
    }

    /**
      The pattern shared by the operations that return `response["result"]`:
      record the message id, send with the error check, then check for and
      return the result. The session is otherwise untouched.
    */
    method Call(verb: RpcMethod, params: map<string, Value>, operation: string, msgId: string, reply: Reply)
      returns (r: Result<Value, Failure>, sent: Request)
      modifies this`id
      ensures id == msgId
      ensures sent == Request(Headers(token, namespace, database), Message(msgId, verb, params))
      ensures r == Validated(reply, operation)
    {
      id := msgId;
      var checked;
      checked, sent := Send(Message(msgId, verb, params), operation, false, reply);
      if checked.Err? {
        r := Err(checked.error);
      } else {
        r := ResultField(checked.value, operation);
      }
    }

    /** `set_token`: only the token changes. */
    method SetToken(newToken: string)
      modifies this`token
      ensures token == Some(Text(newToken))
    {
      token := Some(Text(newToken));
    }

    /**
      `authenticate`: the token is stored before the send, so it stays stored
      when the send fails, and the request already carries it.
    */
    method Authenticate(newToken: string, msgId: string, reply: Reply)
      returns (r: Result<(), Failure>, sent: Request)
      modifies this`token, this`id
      ensures token == Some(Text(newToken)) && id == msgId
      ensures sent == Request(Headers(Some(Text(newToken)), namespace, database),
                              Message(msgId, RpcMethod.Authenticate, map["token" := Text(newToken)]))
      ensures r.Ok? <==> Checked(reply, "authenticating", false).Ok?
      ensures r.Err? ==> r.error == Checked(reply, "authenticating", false).error
    {
      token := Some(Text(newToken));
      id := msgId;
      var checked;
      checked, sent := Send(Message(msgId, RpcMethod.Authenticate, map["token" := Text(newToken)]), "authenticating", false, reply);
      r := if checked.Err? then Err(checked.error) else Ok(());
    }

    /** `invalidate`: the token is cleared only once the send has succeeded. */
    method Invalidate(msgId: string, reply: Reply)
      returns (r: Result<(), Failure>, sent: Request)
      modifies this`token, this`id
      ensures id == msgId
      ensures sent == Request(Headers(old(token), namespace, database), Message(msgId, RpcMethod.Invalidate, map[]))
      ensures r.Ok? <==> Checked(reply, "invalidating", false).Ok?
      ensures r.Ok? ==> token == None
      ensures r.Err? ==> token == old(token) && r.error == Checked(reply, "invalidating", false).error
    {
      id := msgId;
      var checked;
      checked, sent := Send(Message(msgId, RpcMethod.Invalidate, map[]), "invalidating", false, reply);
      if checked.Err? {
        r := Err(checked.error);
        return;
      }
      token := None;
      r := Ok(());
    }

    /** `signup`: the token becomes `response["result"]`, only once both checks pass. */
    method Signup(credentials: map<string, Value>, msgId: string, reply: Reply)
      returns (r: Result<Value, Failure>, sent: Request)
      modifies this`token, this`id
      ensures id == msgId
      ensures sent == Request(Headers(old(token), namespace, database),
                              Message(msgId, RpcMethod.SignUp, map["data" := Dict(credentials)]))
      ensures r == Validated(reply, "signup")
      ensures r.Ok? ==> token == StoredToken(r.value)
      ensures r.Err? ==> token == old(token)
    {
      r, sent := Call(RpcMethod.SignUp, map["data" := Dict(credentials)], "signup", msgId, reply);
      if r.Ok? {
        token := StoredToken(r.value);
      }
    }

    /**
      `signin`: the keyword arguments are looked up in the caller's dictionary;
      the token becomes `response["result"]` once both checks pass, and its
      string form is returned.
    */
    method Signin(credentials: map<string, Value>, msgId: string, reply: Reply)
      returns (r: Result<string, Failure>, sent: Request)
      modifies this`token, this`id
      ensures id == msgId
      ensures sent == Request(Headers(old(token), namespace, database),
                              Message(msgId, RpcMethod.SignIn, SigninParams(credentials)))
      ensures Validated(reply, "signing in").Ok? ==>
                token == StoredToken(Validated(reply, "signing in").value)
                && r == Ok(Render(Validated(reply, "signing in").value))
      ensures Validated(reply, "signing in").Err? ==>
                token == old(token) && r == Err(Validated(reply, "signing in").error)
    {
      var result;
      result, sent := Call(RpcMethod.SignIn, SigninParams(credentials), "signing in", msgId, reply);
      if result.Err? {
        r := Err(result.error);
        return;
      }
      token := StoredToken(result.value);
      r := Ok(Render(result.value));
    }

    /** `info`: the validated result; only the id changes. */
    method Info(msgId: string, reply: Reply) returns (r: Result<Value, Failure>, sent: Request)
      modifies this`id
      ensures id == msgId
      ensures sent == Request(Headers(token, namespace, database), Message(msgId, RpcMethod.Info, map[]))
      ensures r == Validated(reply, "getting database information")
    {
      r, sent := Call(RpcMethod.Info, map[], "getting database information", msgId, reply);
    }

    /**
      `use`: namespace and database are both written, together, only once the
      send has succeeded; on failure neither changes.
    */
    method Use(ns: string, db: string, msgId: string, reply: Reply)
      returns (r: Result<(), Failure>, sent: Request)
      modifies this`namespace, this`database, this`id
      ensures id == msgId
      ensures sent == Request(Headers(token, old(namespace), old(database)),
                              Message(msgId, RpcMethod.Use, map["namespace" := Text(ns), "database" := Text(db)]))
      ensures r.Ok? <==> Checked(reply, "use", false).Ok?
      ensures r.Ok? ==> namespace == Some(ns) && database == Some(db)
      ensures r.Err? ==> namespace == old(namespace) && database == old(database)
                         && r.error == Checked(reply, "use", false).error
    {
      id := msgId;
      var checked;
      checked, sent := Send(Message(msgId, RpcMethod.Use, map["namespace" := Text(ns), "database" := Text(db)]), "use", false, reply);
      if checked.Err? {
        r := Err(checked.error);
        return;
      }
      namespace := Some(ns);
      database := Some(db);
      r := Ok(());
    }

    /**
      The loop of `query` and `query_raw`: start from the caller's parameters
      (or an empty dictionary) and write every bound variable into them.
    */
    method MergeParams(params: Option<map<string, Value>>) returns (merged: map<string, Value>)
      ensures merged == WithBoundVars(params, vars)
    {
      merged := if params.Some? then params.value else map[];
      var pending := vars.Keys;
      while pending != {}
        invariant pending <= vars.Keys
        invariant merged.Keys == params.GetOr(map[]).Keys + (vars.Keys - pending)
        invariant forall k :: k in vars.Keys - pending ==> merged[k] == vars[k]
        invariant forall k :: k in params.GetOr(map[]) && k !in vars.Keys - pending ==> merged[k] == params.value[k]
        decreases pending
      {
        var key :| key in pending;
        merged := merged[key := vars[key]];
        pending := pending - {key};
      }
    }

    /**
      `query`: the bound variables override the caller's parameters, and the
      result is `result[0]["result"]` of the validated response.
    */
    method Query(query: string, params: Option<map<string, Value>>, msgId: string, reply: Reply)
      returns (r: Result<Value, Failure>, sent: Request)
      modifies this`id
      ensures id == msgId
      ensures sent == Request(Headers(token, namespace, database),
                              Message(msgId, RpcMethod.Query, map["query" := Text(query), "params" := Dict(WithBoundVars(params, vars))]))
      ensures r == QueryOutcome(reply)
    {
      var merged := MergeParams(params);
      var result;
      result, sent := Call(RpcMethod.Query, map["query" := Text(query), "params" := Dict(merged)], "query", msgId, reply);
      if result.Err? {
        r := Err(result.error);
        return;
      }
      r := FirstStatementResult(result.value);
    }

    /**
      `query_raw`: the same parameters as `query`, sent with the error check
      bypassed; the decoded payload is returned as it is.
    */
    method QueryRaw(query: string, params: Option<map<string, Value>>, msgId: string, reply: Reply)
      returns (r: Result<Payload, Failure>, sent: Request)
      modifies this`id
      ensures id == msgId
      ensures sent == Request(Headers(token, namespace, database),
                              Message(msgId, RpcMethod.Query, map["query" := Text(query), "params" := Dict(WithBoundVars(params, vars))]))
      ensures reply.Received? ==> r == Ok(reply.payload)
      ensures reply.TransportFailed? ==> r == Err(TransportError)
    {
      var merged := MergeParams(params);
      id := msgId;
      r, sent := Send(Message(msgId, RpcMethod.Query, map["query" := Text(query), "params" := Dict(merged)]), "query", true, reply);
    }

    /** `create`: a "table:id" string is turned into a record reference before sending. */
    method Create(thing: Thing, data: Value, msgId: string, reply: Reply)
      returns (r: Result<Value, Failure>, sent: Request)
      modifies this`id
      ensures id == msgId
      ensures sent == Request(Headers(token, namespace, database),
                              Message(msgId, RpcMethod.Create, map["collection" := ThingValue(Normalise(thing)), "data" := data]))
      ensures r == Validated(reply, "create")
    {
      var collection := thing;
      if thing.Str? && ':' in thing.s {
        var pieces := Split(thing.s, ':');
        collection := Rec(pieces[0], pieces[1]);
      }
      r, sent := Call(RpcMethod.Create, map["collection" := ThingValue(collection), "data" := data], "create", msgId, reply);
    }

    /** `delete`: the thing is sent as given. */
    method Delete(thing: Thing, msgId: string, reply: Reply)
      returns (r: Result<Value, Failure>, sent: Request)
      modifies this`id
      ensures id == msgId
      ensures sent == Request(Headers(token, namespace, database),
                              Message(msgId, RpcMethod.Delete, map["record_id" := ThingValue(thing)]))
      ensures r == Validated(reply, "delete")
    {
      r, sent := Call(RpcMethod.Delete, map["record_id" := ThingValue(thing)], "delete", msgId, reply);
    }

    /** `insert` */
    method Insert(table: Thing, data: Value, msgId: string, reply: Reply)
      returns (r: Result<Value, Failure>, sent: Request)
      modifies this`id
      ensures id == msgId
      ensures sent == Request(Headers(token, namespace, database),
                              Message(msgId, RpcMethod.Insert, map["collection" := ThingValue(table), "params" := data]))
      ensures r == Validated(reply, "insert")
    {
      r, sent := Call(RpcMethod.Insert, map["collection" := ThingValue(table), "params" := data], "insert", msgId, reply);
    }

    /** `insert_relation` */
    method InsertRelation(table: Thing, data: Value, msgId: string, reply: Reply)
      returns (r: Result<Value, Failure>, sent: Request)
      modifies this`id
      ensures id == msgId
      ensures sent == Request(Headers(token, namespace, database),
                              Message(msgId, RpcMethod.InsertRelation, map["table" := ThingValue(table), "params" := data]))
      ensures r == Validated(reply, "insert_relation")
    {
      r, sent := Call(RpcMethod.InsertRelation, map["table" := ThingValue(table), "params" := data], "insert_relation", msgId, reply);
    }

    /** `let`: bind `key` to `value`; every other binding stays. */
    method Let(key: string, value: Value)
      modifies this`vars
      ensures vars == old(vars)[key := value]
      ensures key in vars && vars[key] == value
      ensures vars.Keys == old(vars).Keys + {key}
      ensures forall k :: k in old(vars) && k != key ==> vars[k] == old(vars)[k]
    {
      vars := vars[key := value];
    }

    /**
      `unset`: remove the binding of `key`; every other binding stays. Removing
      a key that is not bound fails (the dictionary's `pop` raises) and
      changes nothing.
    */
    method Unset(key: string) returns (r: Result<(), Failure>)
      modifies this`vars
      ensures r.Ok? <==> key in old(vars)
      ensures r.Ok? ==> vars == old(vars) - {key}
      ensures r.Ok? ==> vars.Keys == old(vars).Keys - {key}
                        && forall k :: k in vars ==> vars[k] == old(vars)[k]
      ensures r.Err? ==> vars == old(vars) && r.error == KeyNotBound(key)
    {
      if key !in vars {
        r := Err(KeyNotBound(key));
        return;
      }
      vars := vars - {key};
      r := Ok(());
    }

    /** `merge`: the thing is sent as given. */
    method Merge(thing: Thing, data: Value, msgId: string, reply: Reply)
      returns (r: Result<Value, Failure>, sent: Request)
      modifies this`id
      ensures id == msgId
      ensures sent == Request(Headers(token, namespace, database),
                              Message(msgId, RpcMethod.Merge, map["record_id" := ThingValue(thing), "data" := data]))
      ensures r == Validated(reply, "merge")
    {
      r, sent := Call(RpcMethod.Merge, map["record_id" := ThingValue(thing), "data" := data], "merge", msgId, reply);
    }

    /** `patch` */
    method Patch(thing: Thing, data: Value, msgId: string, reply: Reply)
      returns (r: Result<Value, Failure>, sent: Request)
      modifies this`id
      ensures id == msgId
      ensures sent == Request(Headers(token, namespace, database),
                              Message(msgId, RpcMethod.Patch, map["collection" := ThingValue(thing), "params" := data]))
      ensures r == Validated(reply, "patch")
    {
      r, sent := Call(RpcMethod.Patch, map["collection" := ThingValue(thing), "params" := data], "patch", msgId, reply);
    }

    /** `select`: the thing travels as a one-element list. */
    method Select(thing: Thing, msgId: string, reply: Reply)
      returns (r: Result<Value, Failure>, sent: Request)
      modifies this`id
      ensures id == msgId
      ensures sent == Request(Headers(token, namespace, database),
                              Message(msgId, RpcMethod.Select, map["params" := List([ThingValue(thing)])]))
      ensures r == Validated(reply, "select")
    {
      r, sent := Call(RpcMethod.Select, map["params" := List([ThingValue(thing)])], "select", msgId, reply);
    }

    /** `update`: the thing is sent as given. */
    method Update(thing: Thing, data: Value, msgId: string, reply: Reply)
      returns (r: Result<Value, Failure>, sent: Request)
      modifies this`id
      ensures id == msgId
      ensures sent == Request(Headers(token, namespace, database),
                              Message(msgId, RpcMethod.Update, map["record_id" := ThingValue(thing), "data" := data]))
      ensures r == Validated(reply, "update")
    {
      r, sent := Call(RpcMethod.Update, map["record_id" := ThingValue(thing), "data" := data], "update", msgId, reply);
    }

    /** `version` */
    method Version(msgId: string, reply: Reply) returns (r: Result<Value, Failure>, sent: Request)
      modifies this`id
      ensures id == msgId
      ensures sent == Request(Headers(token, namespace, database), Message(msgId, RpcMethod.Version, map[]))
      ensures r == Validated(reply, "getting database version")
    {
      r, sent := Call(RpcMethod.Version, map[], "getting database version", msgId, reply);
    }

    /** `upsert`: the thing is sent as given. */
    method Upsert(thing: Thing, data: Value, msgId: string, reply: Reply)
      returns (r: Result<Value, Failure>, sent: Request)
      modifies this`id
      ensures id == msgId
      ensures sent == Request(Headers(token, namespace, database),
                              Message(msgId, RpcMethod.Upsert, map["record_id" := ThingValue(thing), "data" := data]))
      ensures r == Validated(reply, "upsert")
    {
      r, sent := Call(RpcMethod.Upsert, map["record_id" := ThingValue(thing), "data" := data], "upsert", msgId, reply);
    }
  }

  /** The keyword arguments `signin` builds with `vars.get(...)`: absent keys are sent as None. */
  function SigninParams(credentials: map<string, Value>): (p: map<string, Value>)
    ensures p.Keys == {"username", "password", "access", "database", "namespace", "variables"}
    ensures forall k :: k in p ==> p[k] == Get(credentials, k)
  {
    map["username" := Get(credentials, "username"),
        "password" := Get(credentials, "password"),
        "access" := Get(credentials, "access"),
        "database" := Get(credentials, "database"),
        "namespace" := Get(credentials, "namespace"),
        "variables" := Get(credentials, "variables")]
  }

  /** After a successful `use`, requests carry both headers. */
  method UseThenCreate()
  {
    var conn := new Conn("http://localhost:8000/", "m0");
    var used, sent := conn.Use("ns1", "db1", "m1", Received(map["result" := Null]));
    assert used.Ok?;
    var created, createSent := conn.Create(Str("person"), Null, "m2", Received(map["result" := Text("row")]));
    assert created == Ok(Text("row"));
    assert NonEmpty(conn.namespace) && NonEmpty(conn.database);
    assert createSent.headers["Surreal-NS"] == "ns1" && createSent.headers["Surreal-DB"] == "db1";
  }

  /** A bound variable wins over a query parameter of the same name. */
  method BoundVariableWins()
  {
    var conn := new Conn("http://localhost:8000", "m0");
    conn.Let("x", Int(1));
    var rows, querySent := conn.Query("RETURN $x", Some(map["x" := Int(2)]), "m1", TransportFailed);
    assert rows == Err(TransportError);
    assert querySent.message.params["params"].entries["x"] == Int(1);
  }

  /** The token from `signin` is sent on the next request, and no longer after `invalidate`. */
  method SigninThenInvalidate()
  {
    var conn := new Conn("http://localhost:8000", "m0");
    var signedIn, signinSent := conn.Signin(map[], "m1", Received(map["result" := Text("abc")]));
    assert signedIn == Ok("abc");
    assert TokenSet(conn.token);
    var info, infoSent := conn.Info("m2", Received(map["error" := Text("boom")]));
    assert infoSent.headers["Authorization"] == "Bearer abc";
    var invalidated, invalidateSent := conn.Invalidate("m3", Received(map[]));
    assert invalidated.Ok?;
    var version, versionSent := conn.Version("m4", Received(map["result" := Text("2.0")]));
    assert "Authorization" !in versionSent.headers;
  }
}
