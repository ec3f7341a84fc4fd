/** The client base class: its configuration, building an HTTP request from a
    registered method's tables and call arguments, resolving a response by
    status, and the decorator that registers a method and wraps its calls. */
module Core {
  import opened Strings
  import opened Values
  import opened Constants
  import opened Exceptions
  import opened Utils

  /** The library defaults (`lima_default_*` settings). */
  const DEFAULT_HTTP_RETRIES: int := 0
  const DEFAULT_HTTP_TIMEOUT: int := 15
  const DEFAULT_RESPONSE_CODE: int := 200
  /** `(None, "")` */
  const DEFAULT_UNDEFINED_VALUES: seq<Value> := [Null, Str("")]

  const NO_CLIENT_MSG := "Cliente no inicializado"
  const SYNC_ON_ASYNC_MSG := "Función síncrona en cliente asíncrono"
  const ASYNC_ON_SYNC_MSG := "Función asíncrona en cliente síncrono"
  const MAPPED_MSG := "Http Code in response_mapping"
  const UNMAPPED_MSG := "Http Code not in response_mapping"
  const JSON_CONTENT_TYPE := "application/json"

  /** The `client` attribute: none yet, or an httpx client whose `send` is a
      plain function (sync) or a coroutine function (async). */
  datatype ClientState = NoClient | SyncClient | AsyncClient

  /** An exception class is named by its class name. */
  type ExceptionClass = string

  /** The body keyword passed to `build_request`: exactly one of `json=` and
      `data=`. */
  datatype BodyArg = JsonArg(json: Option<Value>) | DataArg(data: Option<Value>)

  /** What `client.build_request(...)` is given. */
  datatype Request = Request(
    httpMethod: string,
    url: string,
    params: seq<Field>,
    headers: map<string, string>,
    timeout: int,
    body: BodyArg)

  /** The keyword arguments of the `get`/`post`/... decorator. */
  datatype CallOptions = CallOptions(
    timeout: Option<int>,
    defaultResponseCode: Option<int>,
    responseMapping: Option<map<int, ExceptionClass>>,
    undefinedValues: Option<seq<Value>>,
    headers: Option<map<string, string>>,
    defaultException: Option<ExceptionClass>)

  function NoOptions(): CallOptions
  {
    CallOptions(None, None, None, None, None, None)
  }

  /** `d.update(u)` on string maps: the keys of `u` win. */
  function MergeHeaders(base: Option<map<string, string>>, call: Option<map<string, string>>): (r: map<string, string>)
    ensures forall k :: k in r <==> (base.Some? && k in base.value) || (call.Some? && k in call.value)
    ensures forall k :: call.Some? && k in call.value ==> r[k] == call.value[k]
    ensures forall k :: base.Some? && k in base.value && !(call.Some? && k in call.value) ==> r[k] == base.value[k]
  {
    var b: map<string, string> := if base.Some? then map[] + base.value else map[];
    if call.Some? then b + call.value else b
  }

  /** `_headers.get("content-type", "application/json") == "application/json"` */
  predicate SendsJson(headers: map<string, string>)
  {
    (if "content-type" in headers then headers["content-type"] else JSON_CONTENT_TYPE) == JSON_CONTENT_TYPE
  }

  /** The keyword names a path or query binding claims. */
  function UsedNames(path: seq<LimaParams>, query: seq<LimaParams>): (r: set<string>)
    ensures forall i :: 0 <= i < |path| ==> path[i].kwargsName in r
    ensures forall i :: 0 <= i < |query| ==> query[i].kwargsName in r
    ensures forall x :: x in r ==>
              (exists i :: 0 <= i < |path| && path[i].kwargsName == x) || (exists i :: 0 <= i < |query| && query[i].kwargsName == x)
  {
    (set i | 0 <= i < |path| :: path[i].kwargsName) + (set i | 0 <= i < |query| :: query[i].kwargsName)
  }

  /** The keyword arguments left over for the body. */
  function BodyKwargs(kwargs: map<string, Value>, used: set<string>): (r: map<string, Value>)
    ensures forall k :: k in r <==> k in kwargs && k !in used
    ensures forall k :: k in r ==> r[k] == kwargs[k]
  {
    map k | k in kwargs && k !in used :: kwargs[k]
  }

  class LimaApiBase {
    var baseUrl: string
    var retries: int
    var timeout: int
    var defaultResponseCode: int
    var defaultException: ExceptionClass
    var responseMapping: map<int, ExceptionClass>
    var undefinedValues: seq<Value>
    var headers: Option<map<string, string>>
    var client: ClientState
    var clientKwargs: map<string, Value>

    /** `LimaApiBase.__init__`: no client yet, a missing mapping or client
        options become empty, a missing default exception becomes
        `LimaException`. */
    constructor (baseUrl: string, retries: int := DEFAULT_HTTP_RETRIES, timeout: int := DEFAULT_HTTP_TIMEOUT,
                 headers: Option<map<string, string>> := None,
                 defaultResponseCode: int := DEFAULT_RESPONSE_CODE,
                 responseMapping: Option<map<int, ExceptionClass>> := None,
                 undefinedValues: seq<Value> := DEFAULT_UNDEFINED_VALUES,
                 defaultException: Option<ExceptionClass> := Some("LimaException"),
                 clientKwargs: Option<map<string, Value>> := None)
      ensures this.baseUrl == baseUrl && this.retries == retries && this.timeout == timeout
      ensures this.headers == headers && this.defaultResponseCode == defaultResponseCode
      ensures this.responseMapping == (if responseMapping.Some? then responseMapping.value else map[])
      ensures this.undefinedValues == undefinedValues
      ensures this.defaultException == (if defaultException.Some? then defaultException.value else "LimaException")
      ensures this.client == NoClient
      ensures this.clientKwargs == (if clientKwargs.Some? then clientKwargs.value else map[])
    {
      this.baseUrl := baseUrl;
      this.retries := retries;
      this.timeout := timeout;
      this.defaultResponseCode := defaultResponseCode;
      this.defaultException := if defaultException.Some? then defaultException.value else "LimaException";
      this.responseMapping := if responseMapping.Some? then responseMapping.value else map[];
      this.undefinedValues := undefinedValues;
      this.headers := headers;
      this.client := NoClient;
      this.clientKwargs := if clientKwargs.Some? then clientKwargs.value else map[];
    }

    /** Installs a started client (what `start_client` leaves behind). */
    method AttachClient(c: ClientState)
      modifies this
      ensures client == c
      ensures baseUrl == old(baseUrl) && timeout == old(timeout) && headers == old(headers)
      ensures responseMapping == old(responseMapping) && defaultResponseCode == old(defaultResponseCode)
      ensures defaultException == old(defaultException) && undefinedValues == old(undefinedValues)
      ensures retries == old(retries) && clientKwargs == old(clientKwargs)
    {
      client := c;
    }

    /** The client-state check that opens `_create_request`. */
    function ClientCheck(sync: bool): (r: Option<Error>)
      reads this
      ensures r.None? <==> (sync && client == SyncClient) || (!sync && client == AsyncClient)
    {
      match client
      case NoClient => Some(Raised(NewLimaException(NO_CLIENT_MSG)))
      case AsyncClient => if sync then Some(Raised(NewLimaException(SYNC_ON_ASYNC_MSG))) else None
      case SyncClient => if !sync then Some(Raised(NewLimaException(ASYNC_ON_SYNC_MSG))) else None
    }

    /** `_create_request(...)`: what is handed to `build_request`, or the
        exception raised first. */
    function RequestFor(sync: bool, verb: string, path: string, pathMapping: seq<LimaParams>,
                        kwargs: map<string, Value>, bodyMapping: Option<LimaParams>,
                        queryMapping: seq<LimaParams>, opts: CallOptions, validate: Validator): Result<Request>
      reads this
    {
      match ClientCheck(sync)
      case Some(e) => Err(e)
      case None =>
        var undefined := if opts.undefinedValues.Some? then opts.undefinedValues.value else undefinedValues;
        match RequestParams(queryMapping, kwargs, undefined)
        case Err(e) => Err(e)
        case Ok(params) => RequestBuilt(verb, path, pathMapping, kwargs, bodyMapping, queryMapping, params, opts, validate)
    }

    /** The rest of `_create_request` once the query parameters are known:
        the body, the URL, the merged headers and the body keyword. */
    function RequestBuilt(verb: string, path: string, pathMapping: seq<LimaParams>,
                          kwargs: map<string, Value>, bodyMapping: Option<LimaParams>,
                          queryMapping: seq<LimaParams>, params: seq<Field>, opts: CallOptions,
                          validate: Validator): Result<Request>
      reads this
    {
      match Body(bodyMapping, BodyKwargs(kwargs, UsedNames(pathMapping, queryMapping)), validate)
      case Err(e) => Err(e)
      case Ok(body) =>
        match FinalUrl(baseUrl + path, pathMapping, kwargs)
        case Err(e) => Err(e)
        case Ok(url) =>
          var hs := MergeHeaders(headers, opts.headers);
          Ok(Request(verb, url, params, hs,
                     if opts.timeout.Some? then opts.timeout.value else timeout,
                     if SendsJson(hs) then JsonArg(body) else DataArg(body)))
    }

    /** `_create_request`, step by step as the source builds it. */
    method CreateRequest(sync: bool, verb: string, path: string, pathMapping: seq<LimaParams>,
                         kwargs: map<string, Value>, bodyMapping: Option<LimaParams>,
                         queryMapping: seq<LimaParams>, opts: CallOptions, validate: Validator)
      returns (r: Result<Request>)
      ensures r == RequestFor(sync, verb, path, pathMapping, kwargs, bodyMapping, queryMapping, opts, validate)
    {
      if client == NoClient {
        return Err(Raised(NewLimaException(NO_CLIENT_MSG)));
      }
      if sync && client == AsyncClient {
        return Err(Raised(NewLimaException(SYNC_ON_ASYNC_MSG)));
      } else if !sync && client == SyncClient {
        return Err(Raised(NewLimaException(ASYNC_ON_SYNC_MSG)));
      }
      var undefined := if opts.undefinedValues.Some? then opts.undefinedValues.value else undefinedValues;
      var params := GetRequestParams(queryMapping, kwargs, undefined);
      if params.Err? {
        return Err(params.error);
      }
      r := BuildRequest(verb, path, pathMapping, kwargs, bodyMapping, queryMapping, params.value, opts, validate);
    }

    /** The body, URL and headers of `_create_request`. */
    method BuildRequest(verb: string, path: string, pathMapping: seq<LimaParams>,
                        kwargs: map<string, Value>, bodyMapping: Option<LimaParams>,
                        queryMapping: seq<LimaParams>, params: seq<Field>, opts: CallOptions,
                        validate: Validator)
      returns (r: Result<Request>)
      ensures r == RequestBuilt(verb, path, pathMapping, kwargs, bodyMapping, queryMapping, params, opts, validate)
    {
      var used := UsedNames(pathMapping, queryMapping);
      var body := Body(bodyMapping, BodyKwargs(kwargs, used), validate);
      if body.Err? {
        return Err(body.error);
      }
      var finalUrl := GetFinalUrl(baseUrl + path, pathMapping, kwargs);
      if finalUrl.Err? {
        return Err(finalUrl.error);
      }
      var hs: map<string, string> := map[];
      if headers.Some? {
        hs := hs + headers.value;
      }
      if opts.headers.Some? {
        hs := hs + opts.headers.value;
      }
      var bodyArg: BodyArg;
      if SendsJson(hs) {
        bodyArg := JsonArg(body.value);
      } else {
        bodyArg := DataArg(body.value);
      }
      r := Ok(Request(verb, finalUrl.value, params, hs,
                      if opts.timeout.Some? then opts.timeout.value else timeout, bodyArg));
    }

    /** The status table a call resolves against: the instance mapping, with
        the call's mapping layered over a copy when it is non-empty. */
    function EffectiveMapping(call: Option<map<int, ExceptionClass>>): (r: map<int, ExceptionClass>)
      reads this
      ensures forall s :: s in r <==> s in responseMapping || (call.Some? && s in call.value)
      ensures forall s :: call.Some? && s in call.value ==> r[s] == call.value[s]
      ensures forall s :: s in responseMapping && !(call.Some? && s in call.value) ==> r[s] == responseMapping[s]
    {
      if call.Some? && |call.value| > 0 then responseMapping + call.value else responseMapping
    }

    /** `_create_response(...)`: the decoded body on the success status,
        otherwise the exception raised. */
    function ResponseFor(status: int, content: seq<byte>, returnClass: Option<PyType>,
                         opts: CallOptions, decode: Decoder): Result<Value>
      reads this
    {
      var mapping := EffectiveMapping(opts.responseMapping);
      var expCls := if opts.defaultException.Some? then opts.defaultException.value else defaultException;
      var success := if opts.defaultResponseCode.Some? then opts.defaultResponseCode.value else defaultResponseCode;
      if status == success then ParseData(returnClass, content, decode)
      else if status in mapping then Err(Raised(NewLimaException(MAPPED_MSG, status, content, mapping[status])))
      else Err(Raised(NewLimaException(UNMAPPED_MSG, status, content, expCls)))
    }

    /** `_create_response`, with its copy-then-update of the mapping. The
        instance mapping is not written (the method modifies nothing). */
    method CreateResponse(status: int, content: seq<byte>, returnClass: Option<PyType>,
                          opts: CallOptions, decode: Decoder) returns (r: Result<Value>)
      ensures r == ResponseFor(status, content, returnClass, opts, decode)
    {
      var mapping := responseMapping;
      if opts.responseMapping.Some? && |opts.responseMapping.value| > 0 {
        mapping := responseMapping;
        mapping := mapping + opts.responseMapping.value;
      }
      var expCls := if opts.defaultException.Some? then opts.defaultException.value else defaultException;
      if status == (if opts.defaultResponseCode.Some? then opts.defaultResponseCode.value else defaultResponseCode) {
        r := ParseData(returnClass, content, decode);
      } else if status in mapping {
        r := Err(Raised(NewLimaException(MAPPED_MSG, status, content, mapping[status])));
      } else {
        r := Err(Raised(NewLimaException(UNMAPPED_MSG, status, content, expCls)));
      }
    }

    // ---------------------------------------------------------------
    // What request building promises
    // ---------------------------------------------------------------

    /** Without a client nothing is built: the call fails first. */
    lemma NoClientFails(sync: bool, verb: string, path: string, pathMapping: seq<LimaParams>,
                        kwargs: map<string, Value>, bodyMapping: Option<LimaParams>,
                        queryMapping: seq<LimaParams>, opts: CallOptions, validate: Validator)
      requires client == NoClient
      ensures RequestFor(sync, verb, path, pathMapping, kwargs, bodyMapping, queryMapping, opts, validate)
           == Err(Raised(NewLimaException(NO_CLIENT_MSG)))
    {
    }

    /** A request is built only for a method whose kind matches the client:
        a sync method on an async client and an async method on a sync
        client fail with their own messages. */
    lemma ClientKindChecked(sync: bool, verb: string, path: string, pathMapping: seq<LimaParams>,
                            kwargs: map<string, Value>, bodyMapping: Option<LimaParams>,
                            queryMapping: seq<LimaParams>, opts: CallOptions, validate: Validator)
      ensures var r := RequestFor(sync, verb, path, pathMapping, kwargs, bodyMapping, queryMapping, opts, validate);
        && (sync && client == AsyncClient ==> r == Err(Raised(NewLimaException(SYNC_ON_ASYNC_MSG))))
        && (!sync && client == SyncClient ==> r == Err(Raised(NewLimaException(ASYNC_ON_SYNC_MSG))))
        && (r.Ok? ==> (sync <==> client == SyncClient) && client != NoClient)
    {
    }

    /** A built request carries the method, the substituted URL under the
        base URL, the query map, the instance headers overridden by the call
        headers, the call timeout unless absent, and the body under `json=`
        exactly when the effective content type is JSON. */
    lemma RequestContents(sync: bool, verb: string, path: string, pathMapping: seq<LimaParams>,
                          kwargs: map<string, Value>, bodyMapping: Option<LimaParams>,
                          queryMapping: seq<LimaParams>, opts: CallOptions, validate: Validator)
      requires RequestFor(sync, verb, path, pathMapping, kwargs, bodyMapping, queryMapping, opts, validate).Ok?
      ensures var req := RequestFor(sync, verb, path, pathMapping, kwargs, bodyMapping, queryMapping, opts, validate).value;
        var undefined := if opts.undefinedValues.Some? then opts.undefinedValues.value else undefinedValues;
        && req.httpMethod == verb
        && FinalUrl(baseUrl + path, pathMapping, kwargs) == Ok(req.url)
        && RequestParams(queryMapping, kwargs, undefined) == Ok(req.params)
        && (forall k :: opts.headers.Some? && k in opts.headers.value ==> k in req.headers && req.headers[k] == opts.headers.value[k])
        && (forall k :: headers.Some? && k in headers.value && !(opts.headers.Some? && k in opts.headers.value) ==>
              k in req.headers && req.headers[k] == headers.value[k])
        && req.timeout == (if opts.timeout.Some? then opts.timeout.value else timeout)
        && (req.body.JsonArg? <==> SendsJson(req.headers))
        && var body := if req.body.JsonArg? then req.body.json else req.body.data;
           Body(bodyMapping, BodyKwargs(kwargs, UsedNames(pathMapping, queryMapping)), validate) == Ok(body)
    {
    }

    /** A keyword argument claimed by a path or query binding never reaches
        the body: a body binding of the same name raises KeyError. */
    lemma ClaimedKwargsNotInBody(sync: bool, verb: string, path: string, pathMapping: seq<LimaParams>,
                                 kwargs: map<string, Value>, pm: LimaParams,
                                 queryMapping: seq<LimaParams>, opts: CallOptions, validate: Validator, i: nat)
      requires i < |queryMapping| && queryMapping[i].kwargsName == pm.kwargsName
      requires ClientCheck(sync).None?
      requires RequestParams(queryMapping, kwargs,
                             if opts.undefinedValues.Some? then opts.undefinedValues.value else undefinedValues).Ok?
      ensures RequestFor(sync, verb, path, pathMapping, kwargs, Some(pm), queryMapping, opts, validate)
           == Err(KeyError(pm.kwargsName))
    {
    }

    // ---------------------------------------------------------------
    // What response resolution promises
    // ---------------------------------------------------------------

    /** The three outcomes: the success status decodes the content; any other
        status raises the mapped class (call mapping first) with "Http Code in
        response_mapping", or else the default exception (call default first)
        with "Http Code not in response_mapping"; both carry the status and
        the content. */
    lemma ResponseOutcomes(status: int, content: seq<byte>, returnClass: Option<PyType>,
                           opts: CallOptions, decode: Decoder)
      ensures var r := ResponseFor(status, content, returnClass, opts, decode);
        var success := if opts.defaultResponseCode.Some? then opts.defaultResponseCode.value else defaultResponseCode;
        var call := opts.responseMapping;
        && (status == success ==> r == ParseData(returnClass, content, decode))
        && (status != success && call.Some? && status in call.value ==>
              r == Err(Raised(LimaException(call.value[status], MAPPED_MSG, status, content))))
        && (status != success && !(call.Some? && status in call.value) && status in responseMapping ==>
              r == Err(Raised(LimaException(responseMapping[status], MAPPED_MSG, status, content))))
        && (status != success && !(call.Some? && status in call.value) && status !in responseMapping ==>
              r == Err(Raised(LimaException(
                     if opts.defaultException.Some? then opts.defaultException.value else defaultException,
                     UNMAPPED_MSG, status, content))))
    {
    }

    /** With the instance defaults, 200 is the success status and an
        unmapped failure is a plain `LimaException`. */
    lemma OutOfTheBoxResolution(status: int, content: seq<byte>, returnClass: Option<PyType>, decode: Decoder)
      requires defaultResponseCode == DEFAULT_RESPONSE_CODE && defaultException == "LimaException"
      requires responseMapping == map[]
      ensures status == 200 ==> ResponseFor(status, content, returnClass, NoOptions(), decode)
                                == ParseData(returnClass, content, decode)
      ensures status != 200 ==> ResponseFor(status, content, returnClass, NoOptions(), decode)
                                == Err(Raised(LimaException("LimaException", UNMAPPED_MSG, status, content)))
    {
    }
  }

  // -----------------------------------------------------------------
  // Registration and calls: `method_factory`
  // -----------------------------------------------------------------

  /** A registered API method: its verb, its space-free path, the tables the
      call uses (query, path, body), its return class, whether it is a
      coroutine, and the decorator options. */
  datatype Endpoint = Endpoint(
    verb: string,
    path: string,
    query: seq<LimaParams>,
    pathParams: seq<LimaParams>,
    body: Option<LimaParams>,
    returnClass: Option<PyType>,
    isAsync: bool,
    opts: CallOptions)

  /** `get(path, ...)(func)` and its siblings: strip the spaces of the path,
      then classify the parameters. */
  function Register(verb: string, path: string, params: seq<ParamDecl>, returnClass: Option<PyType>,
                    isAsync: bool, opts: CallOptions): (r: Result<Endpoint>)
    ensures r.Ok? ==> ' ' !in r.value.path
    ensures r.Ok? <==> Mappings(ReplaceAll(path, " ", ""), params, verb).Ok?
    ensures r.Err? ==> r.error == Mappings(ReplaceAll(path, " ", ""), params, verb).error
    ensures r.Ok? ==> r.value.path == ReplaceAll(path, " ", "") && r.value.verb == verb
    ensures r.Ok? ==> var t := Mappings(ReplaceAll(path, " ", ""), params, verb).value;
              r.value.query == t.query && r.value.pathParams == t.path && r.value.body == t.body
    ensures r.Ok? ==> r.value.returnClass == returnClass && r.value.isAsync == isAsync && r.value.opts == opts
  {
    var stripped := ReplaceAll(path, " ", "");
    ReplaceCharRemoves(path, ' ');
    match Mappings(stripped, params, verb)
    case Err(e) => Err(e)
    case Ok(t) => Ok(Endpoint(verb, stripped, t.query, t.path, t.body, returnClass, isAsync, opts))
  }

  /** A path without spaces is registered as written. */
  lemma RegisterKeepsPlainPath(verb: string, path: string, params: seq<ParamDecl>, returnClass: Option<PyType>,
                               isAsync: bool, opts: CallOptions)
    requires ' ' !in path
    requires Register(verb, path, params, returnClass, isAsync, opts).Ok?
    ensures Register(verb, path, params, returnClass, isAsync, opts).value.path == path
  {
    ReplaceCharAbsent(path, ' ', "");
  }

  /** What `client.send` gives: a response, or an httpx transport error with
      the request URL, the rendered exception class and its message. */
  datatype SendOutcome = Response(status: int, content: seq<byte>) | HttpError(url: string, cls: string, msg: string)

  type Transport = Request -> SendOutcome

  function ConnectionMessage(url: string, cls: string, msg: string): string
  {
    "Problemas conectando a " + url + " - " + cls + " - " + msg
  }

  /** One call of a registered method: build, send, resolve. */
  function CallResult(api: LimaApiBase, ep: Endpoint, kwargs: map<string, Value>,
                      send: Transport, validate: Validator, decode: Decoder): Result<Value>
    reads api
  {
    match api.RequestFor(!ep.isAsync, ep.verb, ep.path, ep.pathParams, kwargs, ep.body, ep.query, ep.opts, validate)
    case Err(e) => Err(e)
    case Ok(req) =>
      match send(req)
      case HttpError(url, cls, msg) => Err(Raised(NewLimaException(ConnectionMessage(url, cls, msg))))
      case Response(status, content) => api.ResponseFor(status, content, ep.returnClass, ep.opts, decode)
  }

  /** The wrapper `method_factory` installs in place of the declared method. */
  method Call(api: LimaApiBase, ep: Endpoint, kwargs: map<string, Value>,
              send: Transport, validate: Validator, decode: Decoder) returns (r: Result<Value>)
    ensures r == CallResult(api, ep, kwargs, send, validate, decode)
  {
    var req := api.CreateRequest(!ep.isAsync, ep.verb, ep.path, ep.pathParams, kwargs, ep.body, ep.query, ep.opts, validate);
    if req.Err? {
      return Err(req.error);
    }
    var outcome := send(req.value);
    if outcome.HttpError? {
      return Err(Raised(NewLimaException(ConnectionMessage(outcome.url, outcome.cls, outcome.msg))));
    }
    r := api.CreateResponse(outcome.status, outcome.content, ep.returnClass, ep.opts, decode);
  }

  /** A transport error becomes a `LimaException` naming the URL, the error
      class and its text, and no response is resolved: the outcome does
      not depend on the decoder. */
  lemma TransportErrorWrapped(api: LimaApiBase, ep: Endpoint, kwargs: map<string, Value>,
                              send: Transport, validate: Validator, decode: Decoder, decode2: Decoder)
    requires var req := api.RequestFor(!ep.isAsync, ep.verb, ep.path, ep.pathParams, kwargs, ep.body, ep.query, ep.opts, validate);
      req.Ok? && send(req.value).HttpError?
    ensures var req := api.RequestFor(!ep.isAsync, ep.verb, ep.path, ep.pathParams, kwargs, ep.body, ep.query, ep.opts, validate);
      var o := send(req.value);
      CallResult(api, ep, kwargs, send, validate, decode)
        == Err(Raised(LimaException("LimaException", ConnectionMessage(o.url, o.cls, o.msg), 0, [])))
      && CallResult(api, ep, kwargs, send, validate, decode) == CallResult(api, ep, kwargs, send, validate, decode2)
  {
  }
}
