/**
 * `Ncio::Api::V1` (lib/ncio/api/v1.rb): the node classifier API client. It
 * keeps one memoised HTTP connection, sends requests either through the
 * retry loop or directly, and turns each response into the parsed groups,
 * `true` for a finished import, or the exception the Ruby code raises.
 *
 * `JSON.parse` is a parameter (`None` when it raises `JSON::ParserError`),
 * and so are the server's replies and the clock, as in the retry loop.
 */
module Api {
  import opened Wrappers
  import opened Json
  import opened Strings
  import opened Http
  import opened RetryAction

  /**
   * The global options the API reads; `host` and `port` come from
   * `URI(opts[:uri])`. The connect timeout is in whole seconds.
   */
  datatype ApiOptions = ApiOptions(cert: Value, key: Value, cacert: Value,
                                   connectTimeout: Option<int>, retryConnections: Value)

  /** What the API methods raise. */
  datatype ApiFault =
    | ApiError(message: string)
    | ApiAuthenticationError(msg: Value)
    | ParserError(text: string)             // `JSON::ParserError`
    | NotIndexable(parsed: Value)           // `obj['msg']` on a body neither a hash nor a string: NoMethodError or TypeError
    | RequestFailed(error: RetryError)      // an exception out of `request`

  /** `JSON.parse`: the parsed document, or `None` when the text is not JSON. */
  type Parser = string -> Option<Value>

  const UnauthenticatedSignature := "rbac/user-unauthenticated"
  const DefaultAuthenticationMessage := "401 User Unauthenticated Error"
  const DefaultHeaders: seq<(string, string)> := [("Content-Type", "application/json")]
  const BasePath := "/classifier-api/v1/"
  const RetriedExceptions: seq<ExceptionClass> := ["Errno::ECONNREFUSED"]

  /** A timeout in seconds on the retry loop's clock, which counts tenths of a second. */
  function InTenths(seconds: Option<int>): Option<int>
  {
    if seconds.Some? then Some(10 * seconds.value) else None
  }

  function Repeat<T>(x: T, n: nat): (r: seq<T>)
    ensures |r| == n && forall i :: 0 <= i < n ==> r[i] == x
  {
    if n == 0 then [] else Repeat(x, n - 1) + [x]
  }

  /** `URI.encode_www_form(params)`: `key=value` pairs joined by `&` (no escaping). */
  function FormEncode(params: seq<(string, string)>): (q: string)
  {
    if |params| == 0 then ""
    else if |params| == 1 then params[0].0 + "=" + params[0].1
    else FormEncode(params[..|params| - 1]) + "&" + params[|params| - 1].0 + "=" + params[|params| - 1].1
  }

  /** Encoding a parameter list is encoding its two halves and joining them with `&`. */
  lemma {:induction false} FormEncodeAppend(front: seq<(string, string)>, back: seq<(string, string)>)
    requires |front| > 0 && |back| > 0
    ensures FormEncode(front + back) == FormEncode(front) + "&" + FormEncode(back)
    decreases |back|
  {
    var all := front + back;
    var n := |back| - 1;
    if n == 0 {
      assert all[..|all| - 1] == front;
    } else {
      assert all[..|all| - 1] == front + back[..n];
      FormEncodeAppend(front, back[..n]);
      assert back[..n] == back[..|back| - 1];
    }
  }

  /** The first parameter's text leads the query, joined to the others' by `&`. */
  lemma FormEncodeFirst(params: seq<(string, string)>)
    requires |params| > 1
    ensures FormEncode(params) == params[0].0 + "=" + params[0].1 + "&" + FormEncode(params[1..])
  {
    var one, more := params[..1], params[1..];
    assert one + more == params;
    FormEncodeAppend(one, more);
  }

  /** Every parameter's `key=value` text appears in the encoded query. */
  lemma FormEncodeEach(params: seq<(string, string)>, i: nat)
    requires i < |params|
    ensures Contains(FormEncode(params), params[i].0 + "=" + params[i].1)
  {
    var kv := params[i].0 + "=" + params[i].1;
    var tail := params[i..];
    var rest := if i + 1 < |params| then "&" + FormEncode(tail[1..]) else "";
    assert FormEncode(tail) == kv + rest by {
      if i + 1 < |params| {
        FormEncodeFirst(tail);
      }
    }
    var before := if i > 0 then FormEncode(params[..i]) + "&" else "";
    var q := FormEncode(params);
    assert q == before + FormEncode(tail) by {
      if i > 0 {
        var front := params[..i];
        assert front + tail == params;
        FormEncodeAppend(front, tail);
      } else {
        assert tail == params;
      }
    }
    JoinThree(before, kv, rest);
    assert q[|before|..|before| + |kv|] == kv;
    assert OccursAt(q, kv, |before|);
  }

  /** `obj[key]` on a parsed body: a hash looks the key up, a string answers with the key when it contains it. */
  function Index(obj: Value, key: string): (r: Result<Value, ApiFault>)
    ensures r.Ok? <==> obj.Obj? || obj.Str?
    ensures obj.Obj? ==> r.value == Get(obj.fields, key)
    ensures obj.Str? ==> (Truthy(r.value) <==> Contains(obj.s, key))
    ensures obj.Str? ==> r.value == (if Contains(obj.s, key) then Str(key) else Null)
  {
    match obj
    case Obj(fields) => Ok(Get(fields, key))
    case Str(s) => Ok(if Contains(s, key) then Str(key) else Null)
    case _ => Err(NotIndexable(obj))
  }

  /** The `ApiError` message for a response that is not the expected one. */
  function ErrorMessage(expected: int, resp: Response): string
  {
    "Expected " + IntToString(expected) + " response, got " + resp.code + " body: " + resp.body
  }

  /** The response is the classifier's "not authenticated" answer. */
  predicate Unauthenticated(resp: Response) {
    resp.code == "401" && Contains(resp.body, UnauthenticatedSignature)
  }

  /**
   * The signature may sit anywhere in the body, and only a 401 is ever read
   * as unauthenticated.
   */
  lemma UnauthenticatedAnywhere(code: string, before: string, after: string)
    ensures Unauthenticated(Response(code, before + UnauthenticatedSignature + after)) <==> code == "401"
  {
    ContainsMiddle(before, UnauthenticatedSignature, after);
  }

  /**
   * `raise_on_non_200(resp, expected)`: an unauthenticated 401 raises
   * `ApiAuthenticationError` with the body's `msg` (or a default message);
   * every other response raises `ApiError` naming the codes and the body.
   */
  function RaiseOnNon200(resp: Response, expected: int, parse: Parser): (f: ApiFault)
    ensures f.ApiError? <==> !Unauthenticated(resp)
    ensures f.ApiError? ==> f.message == ErrorMessage(expected, resp)
    ensures f.ApiAuthenticationError? ==> Truthy(f.msg)
    ensures Unauthenticated(resp) ==>
      (f.ParserError? <==> parse(resp.body).None?) &&
      (f.NotIndexable? <==> parse(resp.body).Some? && Index(parse(resp.body).value, "msg").Err?)
    ensures Unauthenticated(resp) && parse(resp.body).None? ==> f == ParserError(resp.body)
    ensures Unauthenticated(resp) && parse(resp.body).Some? && Index(parse(resp.body).value, "msg").Ok? ==>
      var m := Index(parse(resp.body).value, "msg").value;
      f == ApiAuthenticationError(if Truthy(m) then m else Str(DefaultAuthenticationMessage))
  {
    if Unauthenticated(resp) then
      match parse(resp.body)
      case None => ParserError(resp.body)
      case Some(obj) =>
        match Index(obj, "msg")
        case Err(e) => e
        case Ok(msg) => ApiAuthenticationError(if Truthy(msg) then msg else Str(DefaultAuthenticationMessage))
    else
      ApiError(ErrorMessage(expected, resp))
  }

  /** What `groups` makes of the outcome of its request. */
  function GroupsResult(outcome: Outcome<Response>, parse: Parser): (r: Result<Value, ApiFault>)
    ensures r.Ok? <==> outcome.Done? && outcome.value.code == "200" && parse(outcome.value.body).Some?
    ensures r.Ok? ==> r.value == parse(outcome.value.body).value
    ensures outcome.Failed? ==> r == Err(RequestFailed(outcome.error))
    ensures outcome.Done? && outcome.value.code != "200" ==> r == Err(RaiseOnNon200(outcome.value, 200, parse))
    ensures outcome.Done? && outcome.value.code == "200" && parse(outcome.value.body).None? ==>
      r == Err(ParserError(outcome.value.body))
  {
    match outcome
    case Failed(e) => Err(RequestFailed(e))
    case Done(resp) =>
      if resp.code == "200" then
        match parse(resp.body)
        case None => Err(ParserError(resp.body))
        case Some(obj) => Ok(obj)
      else
        Err(RaiseOnNon200(resp, 200, parse))
  }

  /** What `import_hierarchy` makes of the outcome of its request. */
  function ImportResult(outcome: Outcome<Response>, parse: Parser): (r: Result<bool, ApiFault>)
    ensures r.Ok? <==> outcome.Done? && outcome.value.code == "204"
    ensures r.Ok? ==> r.value
    ensures outcome.Failed? ==> r == Err(RequestFailed(outcome.error))
    ensures outcome.Done? && outcome.value.code != "204" ==> r == Err(RaiseOnNon200(outcome.value, 204, parse))
  {
    match outcome
    case Failed(e) => Err(RequestFailed(e))
    case Done(resp) => if resp.code == "204" then Ok(true) else Err(RaiseOnNon200(resp, 204, parse))
  }

  /** A request made without the retry loop: the reply, or its exception raised unchanged. */
  function Direct(reply: Reply): (r: Outcome<Response>)
    ensures reply.Returned? <==> r.Done?
    ensures reply.Returned? ==> r.value == reply.value
    ensures reply.Raised? ==> r == Failed(Reraised(reply.cls))
  {
    match reply
    case Returned(resp) => Done(resp)
    case Raised(cls) => Failed(Reraised(cls))
  }

  class V1 {
    const opts: ApiOptions
    const host: Value
    const port: Value
    /** `@connection`, built on first use. */
    var connection: HttpClient?

    /** `initialize(opts)`: the host and port are those of `opts[:uri]`, taken as given. */
    constructor (opts: ApiOptions, host: Value, port: Value)
      ensures this.opts == opts && this.host == host && this.port == port
      ensures connection == null
      ensures Valid()
    {
      this.opts := opts;
      this.host := host;
      this.port := port;
      connection := null;
    }

    ghost function Footprint(): set<object>
      reads this, connection
    {
      {this} + (if connection != null then connection.Footprint() else {})
    }

    /** The connection, once built, uses this API's host, port and certificate files over HTTPS. */
    ghost predicate Valid()
      reads this, connection, Footprint()
    {
      connection != null ==>
        && connection.Valid()
        && connection.host == host && connection.port == port
        && connection.cert == opts.cert && connection.key == opts.key && connection.cacert == opts.cacert
        && connection.useSsl == Bool(true) && connection.protocol == "https"
    }

    /** Every request handed to the connection's Net::HTTP object so far. */
    ghost function Sent(): seq<(HttpRequest, Option<string>)>
      reads this, connection, Footprint()
    {
      if connection != null && connection.http != null then connection.http.sent else []
    }

    /** `connection`: one `HttpClient` for host, port and the certificate files, built on the first call. */
    method Connection(hostname: string) returns (c: HttpClient)
      requires Valid()
      modifies this
      ensures Valid()
      ensures connection == c
      ensures old(connection) != null ==> c == old(connection)
      ensures old(connection) == null ==> fresh(c) && c.uri == null && c.http == null
      ensures Footprint() == old(Footprint()) + c.Footprint()
      ensures fresh(Footprint() - old(Footprint()))
      ensures Sent() == old(Sent())
    {
      if connection != null {
        return connection;
      }
      var connOpts := map["host" := host, "port" := port,
                          "cert" := opts.cert, "key" := opts.key, "cacert" := opts.cacert];
      c := new HttpClient(hostname, connOpts);
      connection := c;
    }

    /** `connection.request(req)`: one request over the memoised connection. */
    method RequestOnce(req: HttpRequest, hostname: string, reply: Reply) returns (r: Reply)
      requires Valid()
      modifies Footprint()
      ensures Valid()
      ensures fresh(Footprint() - old(Footprint()))
      ensures r == reply
      ensures Sent() == old(Sent()) + [(req, None)]
      ensures old(connection) != null ==> connection == old(connection)
      ensures old(connection) != null && old(connection.uri) != null ==>
        connection.uri == old(connection.uri) &&
        connection.uri.path == old(connection.uri.path) && connection.uri.query == old(connection.uri.query)
    {
      var c := Connection(hostname);
      r := c.Request(req, reply);
    }

    /** The runs of the block `retry_action` made: each hands `req` to the connection once. */
    method SendRepeatedly(req: HttpRequest, hostname: string, network: nat -> Reply, attempts: nat)
      requires Valid()
      modifies Footprint()
      ensures Valid()
      ensures fresh(Footprint() - old(Footprint()))
      ensures Sent() == old(Sent()) + Repeat((req, None), attempts)
      ensures old(connection) != null ==> connection == old(connection)
      ensures old(connection) != null && old(connection.uri) != null ==>
        connection.uri == old(connection.uri) &&
        connection.uri.path == old(connection.uri.path) && connection.uri.query == old(connection.uri.query)
    {
      var k := 0;
      while k < attempts
        invariant k <= attempts
        invariant Valid()
        invariant fresh(Footprint() - old(Footprint()))
        invariant Sent() == old(Sent()) + Repeat((req, None), k)
        invariant old(connection) != null ==> connection == old(connection)
        invariant old(connection) != null && old(connection.uri) != null ==>
          connection.uri == old(connection.uri) &&
          connection.uri.path == old(connection.uri.path) && connection.uri.query == old(connection.uri.query)
      {
        var _ := RequestOnce(req, hostname, network(k));
        var sent: (HttpRequest, Option<string>) := (req, None);
        assert Repeat(sent, k + 1) == Repeat(sent, k) + [sent];
        k := k + 1;
      }
    }

    /**
     * `request(req)`: through `retry_action` with the connect timeout and
     * only `Errno::ECONNREFUSED` retried when `retry_connections` is set,
     * otherwise straight to the connection. Every run of the block hands
     * `req` to the connection once.
     */
    method Request(req: HttpRequest, hostname: string, network: nat -> Reply, took: nat -> nat)
      returns (r: Outcome<Response>, attempts: nat, sleeps: seq<nat>)
      requires Valid()
      modifies Footprint()
      ensures Valid()
      ensures fresh(Footprint() - old(Footprint()))
      ensures Truthy(opts.retryConnections) ==>
        Behaviour(true, InTenths(opts.connectTimeout), Some(RetriedExceptions), network, took, r, attempts, sleeps)
      ensures !Truthy(opts.retryConnections) ==> r == Direct(network(0)) && attempts == 1 && sleeps == []
      ensures Sent() == old(Sent()) + Repeat((req, None), attempts)
      ensures old(connection) != null ==> connection == old(connection)
      ensures old(connection) != null && old(connection.uri) != null ==>
        connection.uri == old(connection.uri) &&
        connection.uri.path == old(connection.uri.path) && connection.uri.query == old(connection.uri.query)
    {
      if Truthy(opts.retryConnections) {
        r, attempts, sleeps := Retry(true, InTenths(opts.connectTimeout), Some(RetriedExceptions), network, took);
        SendRepeatedly(req, hostname, network, attempts);
      } else {
        var reply := RequestOnce(req, hostname, network(0));
        r, attempts, sleeps := Direct(reply), 1, [];
      }
    }

    /**
     * `build_uri(path, params)`: the connection's one URI object, with its
     * path and query overwritten; every caller shares that object.
     */
    method BuildUri(path: string, params: seq<(string, string)>, hostname: string) returns (u: Uri)
      requires Valid()
      modifies Footprint()
      ensures Valid()
      ensures fresh(Footprint() - old(Footprint()))
      ensures connection != null && connection.uri == u
      ensures old(connection) != null ==> connection == old(connection)
      ensures old(connection) != null && old(connection.uri) != null ==> u == old(connection.uri)
      ensures u.scheme == "https" && u.host == host && u.port == port
      ensures u.path == BasePath + path && u.query == Some(FormEncode(params))
      ensures Sent() == old(Sent())
    {
      var c := Connection(hostname);
      u := c.GetUri();
      u.path := BasePath + path;
      u.query := Some(FormEncode(params));
    }

    /**
     * `groups(inherited = false)`: GET the groups with `inherited` sent as text;
     * the parsed body on a 200, otherwise the exception of `raise_on_non_200`.
     */
    method Groups(hostname: string, network: nat -> Reply, took: nat -> nat, parse: Parser, inherited: bool := false)
      returns (r: Result<Value, ApiFault>, response: Outcome<Response>, attempts: nat)
      requires Valid()
      modifies Footprint()
      ensures Valid()
      ensures fresh(Footprint() - old(Footprint()))
      ensures r == GroupsResult(response, parse)
      ensures Truthy(opts.retryConnections) ==>
        exists sleeps :: Behaviour(true, InTenths(opts.connectTimeout), Some(RetriedExceptions), network, took, response, attempts, sleeps)
      ensures !Truthy(opts.retryConnections) ==> response == Direct(network(0)) && attempts == 1
      ensures connection != null && connection.uri != null
      ensures connection.uri.path == BasePath + "groups"
      ensures connection.uri.query == Some("inherited=" + (if inherited then "true" else "false"))
      ensures Sent() == old(Sent()) + Repeat((HttpRequest("GET", connection.uri.ToString(), DefaultHeaders, None), None), attempts)
    {
      var flag := if inherited then "true" else "false";
      assert FormEncode([("inherited", flag)]) == "inherited=" + flag;
      var u := BuildUri("groups", [("inherited", flag)], hostname);
      var req := HttpRequest("GET", u.ToString(), DefaultHeaders, None);
      var sleeps;
      response, attempts, sleeps := Request(req, hostname, network, took);
      r := GroupsResult(response, parse);
    }

    /**
     * `import_hierarchy(stream)`: POST the hierarchy in chunks, its body read
     * from `stream`; `true` on a 204, otherwise the exception of
     * `raise_on_non_200` for an expected 204.
     */
    method ImportHierarchy(stream: string, hostname: string, network: nat -> Reply, took: nat -> nat, parse: Parser)
      returns (r: Result<bool, ApiFault>, response: Outcome<Response>, attempts: nat)
      requires Valid()
      modifies Footprint()
      ensures Valid()
      ensures fresh(Footprint() - old(Footprint()))
      ensures r == ImportResult(response, parse)
      ensures Truthy(opts.retryConnections) ==>
        exists sleeps :: Behaviour(true, InTenths(opts.connectTimeout), Some(RetriedExceptions), network, took, response, attempts, sleeps)
      ensures !Truthy(opts.retryConnections) ==> response == Direct(network(0)) && attempts == 1
      ensures connection != null && connection.uri != null
      ensures connection.uri.path == BasePath + "import-hierarchy" && connection.uri.query == Some("")
      ensures Sent() == old(Sent()) + Repeat((HttpRequest("POST", connection.uri.ToString(),
                                                          DefaultHeaders + [("Transfer-Encoding", "chunked")], Some(stream)), None), attempts)
    {
      var u := BuildUri("import-hierarchy", [], hostname);
      var req := HttpRequest("POST", u.ToString(), DefaultHeaders + [("Transfer-Encoding", "chunked")], Some(stream));
      var sleeps;
      response, attempts, sleeps := Request(req, hostname, network, took);
      r := ImportResult(response, parse);
    }
  }

  /** The `ApiError` message names the expected code, the code received and the body. */
  lemma ErrorMessageMentions(expected: int, resp: Response)
    ensures Contains(ErrorMessage(expected, resp), IntToString(expected))
    ensures Contains(ErrorMessage(expected, resp), resp.code)
    ensures Contains(ErrorMessage(expected, resp), resp.body)
  {
    var m := ErrorMessage(expected, resp);
    var e := IntToString(expected);
    var a := "Expected ";
    var b := " response, got ";
    var c := " body: ";
    assert m == a + e + b + resp.code + c + resp.body;
    assert OccursAt(m, e, |a|);
    assert OccursAt(m, resp.code, |a| + |e| + |b|);
    assert OccursAt(m, resp.body, |m| - |resp.body|);
  }

  lemma PlainBodyMessage()
    ensures ErrorMessage(200, Response("401", "error")) == "Expected 200 response, got 401 body: error"
  {
    TwoHundred();
  }

  lemma TwoHundred()
    ensures IntToString(200) == "200"
  {
    assert NatToString(2) == "2";
    assert NatToString(20) == "20";
  }

  /** A 401 whose body lacks the signature is an ordinary `ApiError`, as a plain `error` body shows. */
  lemma UnauthorizedPlainBody(parse: Parser)
    ensures GroupsResult(Done(Response("401", "error")), parse)
         == Err(ApiError("Expected 200 response, got 401 body: error"))
  {
    assert !Unauthenticated(Response("401", "error")) by {
      assert !Contains("error", UnauthenticatedSignature);
    }
    PlainBodyMessage();
    assert RaiseOnNon200(Response("401", "error"), 200, parse) == ApiError("Expected 200 response, got 401 body: error");
  }

  /** An unauthenticated 401 without a `msg` field raises the default authentication message. */
  lemma UnauthenticatedDefaultMessage(resp: Response, fields: seq<(string, Value)>, parse: Parser, expected: int)
    requires Unauthenticated(resp)
    requires parse(resp.body) == Some(Obj(fields))
    requires forall i :: 0 <= i < |fields| ==> fields[i].0 != "msg"
    ensures RaiseOnNon200(resp, expected, parse) == ApiAuthenticationError(Str(DefaultAuthenticationMessage))
  {
  }

  /** An unauthenticated 401 whose `msg` is a string raises that message. */
  lemma UnauthenticatedMessage(resp: Response, fields: seq<(string, Value)>, parse: Parser, expected: int, msg: string)
    requires Unauthenticated(resp)
    requires parse(resp.body) == Some(Obj(fields))
    requires Get(fields, "msg") == Str(msg)
    ensures RaiseOnNon200(resp, expected, parse) == ApiAuthenticationError(Str(msg))
  {
  }
}
