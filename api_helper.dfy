/** Request and error handling shared by every API route
    (back/src/helpers/ApiHelper.ts): collecting validation messages, shaping
    error responses, turning the database envelope into a value or an
    exception, and choosing where request parameters come from. */
module ApiHelper {
  import opened Wrappers
  import opened Js
  import opened ApiErrors
  import opened ServerErrors
  import opened ErrorMessages

  /** Parameters made of a single identifier. */
  datatype IdParams = IdParams(id: int)

  /** A result made of a single identifier. */
  datatype IdResult = IdResult(id: int)

  /* ---------------------------------------------------------------------
     Validation errors
     --------------------------------------------------------------------- */

  /** A class-validator error node: the messages of its failed constraints (the
      values of its `constraints` object, in order; an absent object is empty)
      and its child errors (absent children are empty). */
  datatype ValidationError = ValidationError(property: string, constraints: seq<string>, children: seq<ValidationError>)

  /** The messages of one node and of its whole subtree, node first. */
  function NodeMessages(e: ValidationError): (r: seq<string>)
    ensures |r| >= |e.constraints| && r[..|e.constraints|] == e.constraints
    decreases e, 1
  {
    e.constraints + AllMessages(e.children)
  }

  /** The messages of a list of error trees, tree after tree. */
  function AllMessages(es: seq<ValidationError>): (r: seq<string>)
    ensures forall i, m :: 0 <= i < |es| && m in es[i].constraints ==> m in r
    decreases es, 0
  {
    if es == [] then []
    else
      var head, rest := NodeMessages(es[0]), AllMessages(es[1..]);
      assert forall i :: 1 <= i < |es| ==> es[i] == es[1..][i - 1];
      assert forall m :: m in es[0].constraints ==> m in head[..|es[0].constraints|];
      head + rest
  }

  lemma {:induction false} AllMessagesAppend(a: seq<ValidationError>, b: seq<ValidationError>)
    ensures AllMessages(a + b) == AllMessages(a) + AllMessages(b)
  {
    if a != [] {
      assert (a + b)[0] == a[0] && (a + b)[1..] == a[1..] + b;
      AllMessagesAppend(a[1..], b);
    } else {
      assert a + b == b;
    }
  }

  /** Reference traversal: every node of the forest in pre-order. */
  function PreOrder(es: seq<ValidationError>): seq<ValidationError>
    decreases es
  {
    if es == [] then [] else [es[0]] + PreOrder(es[0].children) + PreOrder(es[1..])
  }

  /** The constraint messages of a list of nodes, node after node. */
  function ConstraintsOf(ns: seq<ValidationError>): seq<string> {
    if ns == [] then [] else ns[0].constraints + ConstraintsOf(ns[1..])
  }

  function ConstraintCount(ns: seq<ValidationError>): nat {
    if ns == [] then 0 else |ns[0].constraints| + ConstraintCount(ns[1..])
  }

  lemma {:induction false} ConstraintsOfAppend(a: seq<ValidationError>, b: seq<ValidationError>)
    ensures ConstraintsOf(a + b) == ConstraintsOf(a) + ConstraintsOf(b)
  {
    if a != [] {
      assert (a + b)[0] == a[0] && (a + b)[1..] == a[1..] + b;
      ConstraintsOfAppend(a[1..], b);
    } else {
      assert a + b == b;
    }
  }

  lemma {:induction false} ConstraintCountIsLength(ns: seq<ValidationError>)
    ensures |ConstraintsOf(ns)| == ConstraintCount(ns)
  {
    if ns != [] {
      ConstraintCountIsLength(ns[1..]);
    }
  }

  /** The collected messages are the constraint messages of the nodes in
      pre-order: a node's own messages before its children's, trees in order,
      and a node without constraints contributes nothing. */
  lemma {:induction false} AllMessagesIsPreOrder(es: seq<ValidationError>)
    ensures AllMessages(es) == ConstraintsOf(PreOrder(es))
    decreases es
  {
    if es != [] {
      var e, rest := es[0], es[1..];
      AllMessagesIsPreOrder(e.children);
      AllMessagesIsPreOrder(rest);
      var below, after := PreOrder(e.children), PreOrder(rest);
      assert PreOrder(es) == [e] + (below + after);
      ConstraintsOfAppend(below, after);
      assert ConstraintsOf([e] + (below + after)) == e.constraints + ConstraintsOf(below + after) by {
        assert ([e] + (below + after))[0] == e;
        assert ([e] + (below + after))[1..] == below + after;
      }
    }
  }

  /** There are exactly as many messages as constraint entries in the forest. */
  lemma AllMessagesLength(es: seq<ValidationError>)
    ensures |AllMessages(es)| == ConstraintCount(PreOrder(es))
  {
    AllMessagesIsPreOrder(es);
    ConstraintCountIsLength(PreOrder(es));
  }

  /** The inner `extractErrors` closure: pushes the node's constraint messages
      onto the accumulator, then visits the children in turn. */
  method ExtractErrors(err: ValidationError, allerrs: seq<string>) returns (acc: seq<string>)
    ensures acc == allerrs + NodeMessages(err)
    decreases err
  {
    acc := allerrs + err.constraints;
    var i := 0;
    while i < |err.children|
      invariant 0 <= i <= |err.children|
      invariant acc == allerrs + err.constraints + AllMessages(err.children[..i])
    {
      assert err.children[..i + 1] == err.children[..i] + [err.children[i]];
      AllMessagesAppend(err.children[..i], [err.children[i]]);
      acc := ExtractErrors(err.children[i], acc);
      i := i + 1;
    }
    assert err.children[..i] == err.children;
  }

  /** `getValidationErrors(errors)`: every constraint message of the error
      forest, in pre-order. */
  method GetValidationErrors(errors: seq<ValidationError>) returns (allerrs: seq<string>)
    ensures allerrs == AllMessages(errors)
    ensures allerrs == ConstraintsOf(PreOrder(errors))
  {
    allerrs := [];
    for i := 0 to |errors|
      invariant allerrs == AllMessages(errors[..i])
    {
      assert errors[..i + 1] == errors[..i] + [errors[i]];
      AllMessagesAppend(errors[..i], [errors[i]]);
      allerrs := ExtractErrors(errors[i], allerrs);
    }
    assert errors[..|errors|] == errors;
    AllMessagesIsPreOrder(errors);
  }

  /* ---------------------------------------------------------------------
     Error responses
     --------------------------------------------------------------------- */

  /** What a handler's `catch` receives: a validation array or a ServerError. */
  datatype ApiError = Invalid(errors: seq<ValidationError>) | Server(error: ServerError)

  /** The status and JSON body `sendError` writes. */
  datatype ErrorResponse = ErrorResponse(status: int, body: ErrorMessage)

  /** `sendError(res, status?, message?)(error)`. `freshKey` stands for the
      `nanoid()` drawn when the error carries no key of its own. */
  function SendError(status: Option<int>, message: Option<string>, error: ApiError, freshKey: string): (r: ErrorResponse)
    ensures status.Some? && status.value != 0 ==> r.status == status.value
    ensures (status.None? || status.value == 0) && error.Invalid? ==> r.status == 500
    ensures (status.None? || status.value == 0) && error.Server? ==>
              r.status == (if error.error.status != 0 then error.error.status else 500)
    ensures r.status != 0
    ensures error.Invalid? ==>
              r.body == ErrorMessage(freshKey, ConstraintsOf(PreOrder(error.errors)), Undefined)
    ensures error.Server? ==>
              && r.body.messages == [if message.Some? && message.value != "" then message.value else error.error.message]
              && r.body.data == error.error.data
              && r.body.key == (if error.error.key != "" then error.error.key else freshKey)
  {
    var errStatus := if error.Invalid? then 500 else NumOr(Some(error.error.status), 500);
    var key := if error.Invalid? then freshKey else StrOr(Some(error.error.key), freshKey);
    var msg := if error.Invalid? then AllMessages(error.errors) else [StrOr(message, error.error.message)];
    AllMessagesIsPreOrder(if error.Invalid? then error.errors else []);
    ErrorResponse(NumOr(status, errStatus), ErrorMessage(key, msg, if error.Invalid? then Undefined else error.error.data))
  }

  /** The token check answers 401 with the single message `unauthorized`,
      whatever error the token library raised. */
  lemma UnauthorizedResponse(e: ServerError, freshKey: string)
    ensures SendError(Some(401), Some(UNAUTHORIZED), Server(e), freshKey).status == 401
    ensures SendError(Some(401), Some(UNAUTHORIZED), Server(e), freshKey).body.messages == [UNAUTHORIZED]
  {
  }

  /** `throwError(status, errorMessage, data?)(error?)`: the error it throws.
      `key` stands for the key a new ServerError draws. */
  function ThrowError(status: int, errorMessage: Option<string>, data: Value, error: Option<ServerError>, key: string): (e: ServerError)
    ensures error.Some? ==> e == error.value
    ensures error.None? ==> e.message == (if errorMessage.Some? && errorMessage.value != "" then errorMessage.value else UNAUTHORIZED)
    ensures error.None? ==> e.status == (if status != 0 then status else 500)
    ensures error.None? ==> e.data == data && e.key == key
  {
    if error.Some? then error.value
    else NewServerError(Some(StrOr(errorMessage, UNAUTHORIZED)), Some(NumOr(Some(status), 500)), data, key)
  }

  /* ---------------------------------------------------------------------
     Database functions
     --------------------------------------------------------------------- */

  /** A positional parameter of a stored-procedure call. */
  datatype DbParam = PStr(s: string) | PNum(n: int) | PNull

  /** A call of the stored procedure `name` with positional `params`. */
  datatype DbCall = DbCall(name: string, params: seq<DbParam>)

  /** The `{isok, message, errorcode, data}` envelope every stored procedure returns. */
  datatype DbMessage<T> = DbMessage(isok: bool, message: Option<string>, errorcode: Option<int>, data: T)

  /** What the database connection gives back: an envelope, or an exception. */
  datatype GatewayReply<T> = Replied(msg: DbMessage<T>) | Raised(error: ServerError)

  /** The database connection, as a function of the call it receives. */
  type Gateway<T> = DbCall -> GatewayReply<T>

  /** `executeDbFunction(name, params)`: the envelope's data when `isok`,
      otherwise the error `throwError(errorcode || 400, message)` raises.
      `key` stands for that error's generated key. */
  function ExecuteDbFunction<T>(gateway: Gateway<T>, call: DbCall, key: string): (r: Result<T, ServerError>)
    ensures gateway(call).Raised? ==> r == Failure(gateway(call).error)
    ensures gateway(call).Replied? && gateway(call).msg.isok ==> r == Success(gateway(call).msg.data)
    ensures gateway(call).Replied? && !gateway(call).msg.isok ==>
              && r.Failure?
              && r.error.status == NumOr(gateway(call).msg.errorcode, 400)
              && r.error.message == StrOr(gateway(call).msg.message, UNAUTHORIZED)
              && r.error.data == Undefined && r.error.key == key
  {
    match gateway(call)
    case Raised(e) => Failure(e)
    case Replied(msg) =>
      if !msg.isok then Failure(ThrowError(NumOr(msg.errorcode, 400), msg.message, Undefined, None, key))
      else Success(msg.data)
  }

  /* ---------------------------------------------------------------------
     Request handling
     --------------------------------------------------------------------- */

  /** The raw parameters handed to validation: query and body merged (the body
      wins on a clash) for GET, the body alone for every other method. */
  function RequestParams(httpMethod: string, query: map<string, Value>, body: map<string, Value>): (p: map<string, Value>)
    ensures httpMethod == "GET" ==> p.Keys == query.Keys + body.Keys
    ensures httpMethod == "GET" ==> forall k :: k in body ==> p[k] == body[k]
    ensures httpMethod == "GET" ==> forall k :: k in query && k !in body ==> p[k] == query[k]
    ensures httpMethod != "GET" ==> p == body
  {
    if httpMethod == "GET" then query + body else body
  }

  /** The arguments the worker is called with: the JWT username first only when
      the worker declares more than one parameter. */
  function WorkerArguments(arity: nat, username: string, data: Value): (args: seq<Value>)
    ensures |args| == if arity > 1 then 2 else 1
    ensures args[|args| - 1] == data
    ensures arity > 1 ==> args[0] == Str(username)
  {
    if arity > 1 then [Str(username), data] else [data]
  }

  /** What a request handler answers. */
  datatype Reply = Ok(status: int, data: Value) | Error(response: ErrorResponse)

  /** `req(inputClass)(worker)(req, res)`: validate the chosen parameters, run
      the worker, answer 200 with its result, or send the error. `validate`
      stands for the validation library, `worker` for the route's worker
      applied to its argument list. */
  function ApiRequest(
    httpMethod: string, query: map<string, Value>, body: map<string, Value>, username: string,
    validate: map<string, Value> -> Result<Value, seq<ValidationError>>,
    arity: nat, worker: seq<Value> -> Result<Value, ServerError>, freshKey: string): (r: Reply)
    ensures validate(RequestParams(httpMethod, query, body)).Failure? ==>
              r == Error(SendError(None, None, Invalid(validate(RequestParams(httpMethod, query, body)).error), freshKey))
    ensures validate(RequestParams(httpMethod, query, body)).Failure? ==> r.response.status == 500
    ensures validate(RequestParams(httpMethod, query, body)).Success? ==>
              var args := WorkerArguments(arity, username, validate(RequestParams(httpMethod, query, body)).value);
              r == match worker(args)
                   case Success(v) => Ok(200, v)
                   case Failure(e) => Error(SendError(None, None, Server(e), freshKey))
  {
    match validate(RequestParams(httpMethod, query, body))
    case Failure(errs) => Error(SendError(None, None, Invalid(errs), freshKey))
    case Success(params) =>
      match worker(WorkerArguments(arity, username, params))
      case Success(v) => Ok(200, v)
      case Failure(e) => Error(SendError(None, None, Server(e), freshKey))
  }
}
