# Blocking HTTP connection of the SurrealDB Python client, in Dafny

This project models `BlockingHttpSurrealConnection`, the synchronous HTTP
connection of the SurrealDB Python client. The connection keeps a small
session: an authentication token, the selected namespace and database, the
variables bound with `let`, and the id of the last message. `set_token`, `let`
and `unset` only change the session. Every other method builds a request
message, records its id, and posts it with headers derived from the session.
What happens to the decoded response depends on the method:

- `query_raw` skips the error check and returns the whole payload.
- `use`, `authenticate` and `invalidate` check it for an error and return
  nothing.
- `query` also checks for a result and returns `result[0]["result"]`.
- All other methods check for an error and for a result, and return `result`;
  `signin` returns `str(result)`.

`authenticate` updates the session before the round trip. `use`,
`invalidate`, `signin` and `signup` update it only after the round trip
succeeds.

The model keeps the network out. A sending method receives two extra inputs.
One is the `Reply` the transport would produce: a decoded payload, or a failed
post. The other is the fresh id the new message would carry. Next to its
result, the method returns the `Request` it posts, so its contract can state
which headers and parameters go out.

Files:

- `wrappers.dfy`: `Option` and `Result`.
- `values.dfy`: `Value`, the decoded data. It also defines Python truthiness
  (`Truthy`), `dict.get` (`Get`) and `str()` (`Render`).
- `things.dfy`: `Thing`, the string / RecordID / Table argument. It defines
  Python's `split` (`Split`, with `Join` as its inverse) and the normalisation
  `create` applies to a `"table:id"` string.
- `rpc.dfy`: the request message, the request, the transport reply and the
  failures. It holds the header computation and the checks on a decoded response.
- `blocking_http.dfy`: the class `Conn` with the session fields and one method
  per RPC. Three client methods (`UseThenCreate`, `BoundVariableWins`,
  `SigninThenInvalidate`) show what a caller can conclude from the contracts.

Notes on the behaviour of `blocking_http.py` that the model keeps:

- The `Surreal-NS` and `Surreal-DB` headers are decided independently of each
  other. Each appears when its own field is non-empty, whether or not the
  other is.
- Only `create` turns a `"table:id"` string into a record reference.
  `delete`, `merge`, `update`, `upsert`, `patch`, `select`, `insert` and
  `insert_relation` send the thing as given.
- The string is cut with `split(":")`, not split once. The identifier is the
  text between the first and second `:`, and anything after a second `:` is
  dropped.
- `unset` of an unbound variable fails, because `dict.pop` raises. It is not a
  no-op.
- Bound variables override same-named query parameters.

## Model

| member | source | states |
|---|---|---|
| `Rpc.Headers` | src/surrealdb/connections/blocking_http.py:33-42 | `Accept` and `Content-Type` are always `application/cbor`. `Authorization` is present exactly when the token is set and truthy, with value `"Bearer " + str(token)`. `Surreal-NS` is present exactly when the namespace is non-empty, and `Surreal-DB` exactly when the database is non-empty, each with its own value. No other header is sent. |
| `BlockingHttp.Conn.Send` | src/surrealdb/connections/blocking_http.py:28-53 | Posts exactly the given message with the session's headers. It reads the session without changing it. A failed post is a transport error. Otherwise the payload is returned, after the error check unless `bypass` is set. |
| `Rpc.Checked` | src/surrealdb/connections/blocking_http.py:44-53 | A failed post gives a transport error. With `bypass`, the payload comes back unmodified. Without it, the call fails exactly when the payload has an `error` entry, and the failure carries that entry and the operation label. |
| `Rpc.ResultField` | src/surrealdb/connections/blocking_http.py:153-154 | Succeeds exactly when the payload has a `result` entry, and returns that entry. Otherwise it fails with "no result" for the operation. |
| `Rpc.Validated` | src/surrealdb/connections/blocking_http.py:159-161 | A validated call succeeds exactly when the post went through, there is no `error` entry and there is a `result` entry. It then returns `response["result"]`. An error entry always surfaces as the remote error. |
| `Rpc.FirstStatementResult` | src/surrealdb/connections/blocking_http.py:125 | `result[0]["result"]` exists exactly when the result is a non-empty list whose first element is a dictionary with a `result` key. It then returns that entry, and otherwise fails. |
| `Rpc.QueryOutcome` | src/surrealdb/connections/blocking_http.py:122-125 | `query` succeeds exactly when the post went through, the response has no `error` entry, has a `result` entry, and that result is a non-empty list whose first element is a dictionary with a `result` key. It then returns `response["result"][0]["result"]`. A failed post is a transport error, an `error` entry is the remote error, a missing `result` is "no result", and any other shape is malformed. |
| `Rpc.QueryUnwrapsSingleStatement` | src/surrealdb/connections/blocking_http.py:125 | A response `{result: [{result: rows}]}` makes `query` return `rows`. |
| `Rpc.ErrorSurfaces` | src/surrealdb/connections/blocking_http.py:50-53 | A payload with an `error` entry fails every validated call with that error. The bypass path returns the same payload unmodified. |
| `Values.Get` | src/surrealdb/connections/blocking_http.py:81-86 | `vars.get(k)` is the bound value when `k` is present and None otherwise. |
| `Values.Render` | src/surrealdb/connections/blocking_http.py:38 | A string token is rendered as itself in the `Authorization` header. |
| `Things.Split` | src/surrealdb/connections/blocking_http.py:148 | `split` gives at least one piece. No piece contains the separator. There are two or more pieces exactly when the separator occurs. |
| `Things.JoinSplit` | src/surrealdb/connections/blocking_http.py:148 | Joining the pieces of `split` with the separator gives back the string. |
| `Things.SplitJoin` | src/surrealdb/connections/blocking_http.py:148 | Splitting the join of separator-free pieces gives back the pieces. |
| `Things.Normalise` | src/surrealdb/connections/blocking_http.py:146-149 | The result is a record reference exactly when the argument is one already or is a string containing `:`. Everything else (a string without `:`, a table) passes through unchanged. |
| `Things.NormaliseSplitsAtFirstColons` | src/surrealdb/connections/blocking_http.py:146-149 | For a string with `:`, the table is the text before the first `:` and the identifier the text between the first and second `:` (or the end). Neither contains `:`, and anything after a second `:` is dropped. |
| `BlockingHttp.TrimTrailingSlashes` | src/surrealdb/connections/blocking_http.py:19 | `rstrip("/")` returns a prefix of the URL that does not end in `/`. Everything it removed was `/`. |
| `BlockingHttp.WithBoundVars` | src/surrealdb/connections/blocking_http.py:112-116 | The transmitted parameters have the keys of the caller's parameters (or none) plus the bound keys. Every bound key maps to its bound value, overriding the caller's value. A key only the caller has keeps the caller's value. |
| `BlockingHttp.SigninParams` | src/surrealdb/connections/blocking_http.py:79-87 | `signin` always sends the six keyword arguments `username`, `password`, `access`, `database`, `namespace` and `variables`. Each is looked up with `vars.get`. |
| `BlockingHttp.Conn.constructor` | src/surrealdb/connections/blocking_http.py:17-26 | A new connection has no token, namespace, database or bound variable. Its id is the fresh id, and its raw URL has no trailing slash. |
| `BlockingHttp.Conn.Call` | src/surrealdb/connections/blocking_http.py:151-154 | The tail the result-returning operations share. The message id is recorded, and the message is posted with the session's headers. The result is `response["result"]` once the error check and the result check pass, and otherwise the failure. Only the id changes. |
| `BlockingHttp.Conn.SetToken` | src/surrealdb/connections/blocking_http.py:55-56 | Only the token changes, and it becomes the given string. |
| `BlockingHttp.Conn.Authenticate` | src/surrealdb/connections/blocking_http.py:58-62 | The token is set before sending. It stays set whether or not the send fails, and the request already carries it. Success mirrors the error check. |
| `BlockingHttp.Conn.Invalidate` | src/surrealdb/connections/blocking_http.py:64-68 | The request still carries the old token. The token is cleared only when the send succeeds, and a failure leaves it as it was. |
| `BlockingHttp.Conn.Signup` | src/surrealdb/connections/blocking_http.py:70-76 | The credentials are sent as `data`. When both checks pass, the token becomes `response["result"]` (no token when that is None), and the result is returned. On failure the token is unchanged. |
| `BlockingHttp.Conn.Signin` | src/surrealdb/connections/blocking_http.py:78-92 | When both checks pass, the token becomes `response["result"]` (no token when that is None) and its `str()` is returned. On failure the token is unchanged and the failure is returned. |
| `BlockingHttp.StoredToken` | src/surrealdb/connections/blocking_http.py:75 | Storing a None result leaves no token; any other result becomes the token. The stored token produces an `Authorization` header exactly when the result is truthy. |
| `BlockingHttp.Conn.Info` | src/surrealdb/connections/blocking_http.py:94-99 | Returns the validated result. Only the message id changes. |
| `BlockingHttp.Conn.Use` | src/surrealdb/connections/blocking_http.py:101-110 | The request carries the old namespace and database. Both are set together, only after a successful send. On failure neither changes. |
| `BlockingHttp.Conn.MergeParams` | src/surrealdb/connections/blocking_http.py:113-116 | The loop over the bound variables yields exactly the caller's parameters with every bound variable written over them. |
| `BlockingHttp.Conn.Query` | src/surrealdb/connections/blocking_http.py:112-125 | Sends the query with the merged parameters. It returns `result[0]["result"]` of the validated response, or the failure. Only the message id changes. |
| `BlockingHttp.Conn.QueryRaw` | src/surrealdb/connections/blocking_http.py:127-139 | Sends the same merged parameters as `query`. A payload that arrived is returned unmodified, even one with an `error` entry. Only a failed post fails. |
| `BlockingHttp.Conn.Create` | src/surrealdb/connections/blocking_http.py:141-154 | The collection sent is the normalised thing (`"table:id"` becomes a record reference). The result is the validated result. |
| `BlockingHttp.Conn.Delete` | src/surrealdb/connections/blocking_http.py:156-161 | The thing is sent unchanged as `record_id`. The result is the validated result, and only the id changes. |
| `BlockingHttp.Conn.Insert` | src/surrealdb/connections/blocking_http.py:163-170 | Sends `collection` and `params` as given. The result is the validated result, and only the id changes. |
| `BlockingHttp.Conn.InsertRelation` | src/surrealdb/connections/blocking_http.py:172-181 | Sends `table` and `params` as given. The result is the validated result, and only the id changes. |
| `BlockingHttp.Conn.Let` | src/surrealdb/connections/blocking_http.py:183-184 | After `let(k, v)`, `vars[k] == v`. Every other binding is unchanged and no other key appears. |
| `BlockingHttp.Conn.Unset` | src/surrealdb/connections/blocking_http.py:186-187 | Removes `k` and keeps every other binding. It fails, changing nothing, exactly when `k` is not bound. |
| `BlockingHttp.Conn.Merge` | src/surrealdb/connections/blocking_http.py:189-196 | The thing is sent unchanged as `record_id` with `data`. The result is the validated result, and only the id changes. |
| `BlockingHttp.Conn.Patch` | src/surrealdb/connections/blocking_http.py:198-205 | The thing is sent unchanged as `collection` with `params`. The result is the validated result, and only the id changes. |
| `BlockingHttp.Conn.Select` | src/surrealdb/connections/blocking_http.py:207-212 | The thing is sent unchanged inside a one-element list. The result is the validated result, and only the id changes. |
| `BlockingHttp.Conn.Update` | src/surrealdb/connections/blocking_http.py:214-221 | The thing is sent unchanged as `record_id` with `data`. The result is the validated result, and only the id changes. |
| `BlockingHttp.Conn.Version` | src/surrealdb/connections/blocking_http.py:223-228 | Returns the validated result. Only the message id changes. |
| `BlockingHttp.Conn.Upsert` | src/surrealdb/connections/blocking_http.py:230-237 | The thing is sent unchanged as `record_id` with `data`. The result is the validated result, and only the id changes. |

## Left out

- The HTTP post, `raise_for_status`, the 30-second timeout and the `requests`
  session opened by `__enter__` and closed by `__exit__`. These are network
  I/O. A failed post or error status is the `TransportFailed` reply.
- The CBOR encoding of the message and the decoding of the response. The
  message is a record of id, verb and keyword arguments, and the decoded
  response is a dictionary of `Value`s. A decoded body that is not a
  dictionary is not modelled.
- `uuid.uuid4()`: the message id is a parameter. That ids never repeat is
  therefore not a property of the model.
- The `Url` class, which supplies `host`, `port` and the post target. Only
  `rstrip("/")` on the raw URL is modelled.
- `check_response_for_error` and `check_response_for_result` belong to
  `UtilsMixin`, which is not part of this model. Two rules stand in for them:
  a payload with an `error` entry fails, and a payload without a `result`
  entry fails. The exception types and messages they raise are collapsed into
  the `Failure` cases.
- The Python exceptions raised by `result[0]["result"]` (IndexError, KeyError,
  TypeError) and by `pop` (KeyError) become the `Malformed` and `KeyNotBound`
  failures.
- BlockingHttp.Conn.Query: the source writes the bound variables into the
  caller's own dictionary, so the caller sees them afterwards. The model builds
  the merged map as a value and does not capture that aliasing. The same holds
  for BlockingHttp.Conn.QueryRaw.
- Values.Render: Python's `str()` of a list or dictionary token is not
  reproduced; those get a fixed placeholder. The source types the token as
  `str` (lines 22, 55, 70).
- Values.Value keeps only the eight shapes the connection inspects (None,
  booleans, integers, strings, lists, dictionaries, RecordID and Table). Floats,
  bytes, datetimes, UUIDs and the other types the CBOR decoder can produce are
  not modelled, nor are their truthiness and `str()` as a stored token.
- The truthiness of a RecordID or Table value is taken to be true, since their
  classes are not part of this model.
- Values.Render: the `str()` of a RecordID is taken to be `table:id` and that
  of a Table its name. Both are assumptions, since those classes are not part
  of this model.
- `tests/unit_tests/connections/signin/test_async_ws.py`,
  `tests/unit_tests/connections/update/test_async_http.py` and
  `tests/unit_tests/connections/live/test_async_http.py` drive the
  asynchronous WebSocket and HTTP connections against a running server. They
  test other classes than this one, and what they check depends on the
  server's answers.
