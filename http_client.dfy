/**
 * `Ncio::HttpClient` (lib/ncio/http_client.rb): the connection settings
 * merged over the defaults, the protocol chosen from `use_ssl`, and the
 * memoised `uri` and Net::HTTP objects through which requests pass.
 *
 * The local host name (`Socket.gethostname`) is a parameter, and the network
 * is one too: a request hands over whatever the server's reply is, or the
 * exception the connection raises.
 */
module Http {
  import opened Wrappers
  import opened Json
  import opened Strings
  import RetryAction

  /** An options hash keyed by the option's symbol name. */
  type Options = map<string, Value>

  /** What one request over the connection yields: a response, or a raised exception. */
  type Reply = RetryAction.Attempt<Response>

  datatype Response = Response(code: string, body: string)

  /**
   * A Net::HTTP request object: its verb, the URI text it was built from, its
   * headers, and the stream its body is read from, if one was set.
   */
  datatype HttpRequest = HttpRequest(verb: string, target: string, headers: seq<(string, string)>,
                                     bodyStream: Option<string>)

  /** The SSL settings `setup_ssl` puts on the Net::HTTP object: peer verification with these files. */
  datatype SslSettings = SslSettings(caFile: Value, certFile: Value, keyFile: Value)

  const SslDir := "/etc/puppetlabs/puppet/ssl"

  /** `OPTION_DEFAULTS`, for a machine whose host name is `hostname`. */
  function OptionDefaults(hostname: string): (d: Options)
    ensures d.Keys == {"host", "port", "use_ssl", "cert", "key", "cacert"}
  {
    map["host" := Str(hostname),
        "port" := Int(4433),
        "use_ssl" := Bool(true),
        "cert" := Str(SslDir + "/certs/" + hostname + ".pem"),
        "key" := Str(SslDir + "/private_keys/" + hostname + ".pem"),
        "cacert" := Str(SslDir + "/certs/ca.pem")]
  }

  /** `defaults.merge(opts)`: a key given by the caller wins, even when its value is `nil`. */
  function Merge(defaults: Options, opts: Options): (m: Options)
    ensures m.Keys == defaults.Keys + opts.Keys
    ensures forall k :: k in opts ==> m[k] == opts[k]
    ensures forall k :: k in defaults && k !in opts ==> m[k] == defaults[k]
  {
    defaults + opts
  }

  /** `opts[key]`: `nil` for a key the hash does not hold. */
  function Fetch(opts: Options, key: string): (v: Value)
    ensures key !in opts ==> v == Null
    ensures key in opts ==> v == opts[key]
  {
    if key in opts then opts[key] else Null
  }

  /** Ruby string interpolation of a scalar; arrays and hashes are not interpolated here. */
  function Interpolate(v: Value): string
  {
    match v
    case Null => ""
    case Bool(b) => if b then "true" else "false"
    case Int(i) => IntToString(i)
    case Other(literal) => literal
    case Str(s) => s
    case _ => ""
  }

  /** The URI scheme: HTTPS when `use_ssl` is truthy, plain HTTP otherwise. */
  function Protocol(useSsl: Value): (p: string)
    ensures p == "https" <==> Truthy(useSsl)
    ensures p == "http" <==> !Truthy(useSsl)
  {
    if Truthy(useSsl) then "https" else "http"
  }

  /** The `URI` object of the service: fixed scheme, host and port; path and query are assignable. */
  class Uri {
    const scheme: string
    const host: Value
    const port: Value
    var path: string
    var query: Option<string>

    constructor (scheme: string, host: Value, port: Value)
      ensures this.scheme == scheme && this.host == host && this.port == port
      ensures path == "" && query == None
    {
      this.scheme := scheme;
      this.host := host;
      this.port := port;
      path := "";
      query := None;
    }

    /** `to_s`: scheme, authority, then the path and any query. */
    function ToString(): (s: string)
      reads this
      ensures |s| >= |scheme| + 3 && s[..|scheme| + 3] == scheme + "://"
    {
      scheme + "://" + Interpolate(host) + ":" + Interpolate(port) + path
        + (if query.Some? then "?" + query.value else "")
    }
  }

  /** The Net::HTTP object: where it connects, how SSL is set up, and every request it was handed. */
  class NetHttp {
    const address: Value
    const port: Value
    var ssl: Option<SslSettings>
    var sent: seq<(HttpRequest, Option<string>)>

    constructor (address: Value, port: Value)
      ensures this.address == address && this.port == port
      ensures ssl == None && sent == []
    {
      this.address := address;
      this.port := port;
      ssl := None;
      sent := [];
    }

    /** `setup_ssl`: peer verification against `cacert`, with the client certificate and key. */
    method SetupSsl(cacert: Value, cert: Value, key: Value)
      modifies this
      ensures ssl == Some(SslSettings(cacert, cert, key))
      ensures sent == old(sent)
    {
      ssl := Some(SslSettings(cacert, cert, key));
    }

    /** `request(req, body)`: the request is sent as it is and the reply handed back. */
    method Request(req: HttpRequest, body: Option<string>, reply: Reply) returns (r: Reply)
      modifies this
      ensures r == reply
      ensures sent == old(sent) + [(req, body)] && ssl == old(ssl)
    {
      sent := sent + [(req, body)];
      r := reply;
    }
  }

  class HttpClient {
    const host: Value
    const port: Value
    const useSsl: Value
    const cert: Value
    const key: Value
    const cacert: Value
    const protocol: string
    /** `@uri`, built on first use. */
    var uri: Uri?
    /** `@http`, built on first use. */
    var http: NetHttp?

    /** `initialize(opts)`: every setting is the caller's option, else the default. */
    constructor (hostname: string, opts: Options)
      ensures var settings := Merge(OptionDefaults(hostname), opts);
        && host == Fetch(settings, "host") && port == Fetch(settings, "port")
        && useSsl == Fetch(settings, "use_ssl") && cert == Fetch(settings, "cert")
        && key == Fetch(settings, "key") && cacert == Fetch(settings, "cacert")
      ensures protocol == Protocol(useSsl)
      ensures uri == null && http == null
      ensures Valid()
    {
      var settings := Merge(OptionDefaults(hostname), opts);
      useSsl := Fetch(settings, "use_ssl");
      host := Fetch(settings, "host");
      port := Fetch(settings, "port");
      cert := Fetch(settings, "cert");
      key := Fetch(settings, "key");
      cacert := Fetch(settings, "cacert");
      protocol := Protocol(Fetch(settings, "use_ssl"));
      uri := null;
      http := null;
    }

    ghost function Footprint(): set<object>
      reads this
    {
      {this} + (if uri != null then {uri} else {}) + (if http != null then {http} else {})
    }

    /**
     * The memoised objects agree with the settings: the URI is the service's
     * origin, the Net::HTTP object connects to the URI's host and port, and
     * it has SSL set up exactly when `use_ssl` is truthy.
     */
    ghost predicate Valid()
      reads this, http
    {
      && (uri != null ==> uri.scheme == protocol && uri.host == host && uri.port == port)
      && (http != null ==>
            && uri != null
            && http.address == host && http.port == port
            && http.ssl == (if Truthy(useSsl) then Some(SslSettings(cacert, cert, key)) else None))
    }

    /** `uri`: the same object on every call, built from protocol, host and port the first time. */
    method GetUri() returns (u: Uri)
      requires Valid()
      modifies this
      ensures Valid()
      ensures old(uri) != null ==> u == old(uri)
      ensures old(uri) == null ==> fresh(u) && u.path == "" && u.query == None
      ensures uri == u && http == old(http)
      ensures u.scheme == protocol && u.host == host && u.port == port
      ensures Footprint() == old(Footprint()) + {u}
    {
      if uri != null {
        return uri;
      }
      u := new Uri(protocol, host, port);
      uri := u;
    }

    /** `http`: one Net::HTTP object for the URI's host and port, with SSL only when `use_ssl` is truthy. */
    method GetHttp() returns (h: NetHttp)
      requires Valid()
      modifies this
      ensures Valid()
      ensures old(http) != null ==> h == old(http)
      ensures old(uri) != null ==> uri == old(uri)
      ensures old(http) == null ==> fresh(h) && h.sent == []
      ensures http == h && uri != null
      ensures fresh(Footprint() - old(Footprint()))
    {
      if http != null {
        return http;
      }
      var u := GetUri();
      h := new NetHttp(u.host, u.port);
      if Truthy(useSsl) {
        h.SetupSsl(cacert, cert, key);
      }
      http := h;
    }

    /** `request(req)`: handed to the Net::HTTP object as it is, with no body. */
    method Request(req: HttpRequest, reply: Reply) returns (r: Reply)
      requires Valid()
      modifies Footprint()
      ensures Valid()
      ensures r == reply
      ensures http != null
      ensures old(http) != null ==> http == old(http) && http.sent == old(http.sent) + [(req, None)]
      ensures old(http) == null ==> fresh(http) && http.sent == [(req, None)]
      ensures old(uri) != null ==> uri == old(uri) && uri.path == old(uri.path) && uri.query == old(uri.query)
      ensures fresh(Footprint() - old(Footprint()))
    {
      var h := GetHttp();
      r := h.Request(req, None, reply);
    }
  }

  /** With no options, the client talks HTTPS to port 4433 of this host, with the host's Puppet certificate. */
  lemma DefaultSettings(hostname: string)
    ensures var settings := Merge(OptionDefaults(hostname), map[]);
      && Fetch(settings, "host") == Str(hostname)
      && Fetch(settings, "port") == Int(4433)
      && Fetch(settings, "use_ssl") == Bool(true)
      && Fetch(settings, "cert") == Str("/etc/puppetlabs/puppet/ssl/certs/" + hostname + ".pem")
      && Fetch(settings, "key") == Str("/etc/puppetlabs/puppet/ssl/private_keys/" + hostname + ".pem")
      && Fetch(settings, "cacert") == Str("/etc/puppetlabs/puppet/ssl/certs/ca.pem")
      && Protocol(Fetch(settings, "use_ssl")) == "https"
  {
  }

  /** Each setting is the caller's when given, and otherwise the default. */
  lemma SettingOverride(hostname: string, opts: Options, name: string)
    requires name in OptionDefaults(hostname)
    ensures name in opts ==> Fetch(Merge(OptionDefaults(hostname), opts), name) == opts[name]
    ensures name !in opts ==> Fetch(Merge(OptionDefaults(hostname), opts), name) == OptionDefaults(hostname)[name]
  {
  }

  /** The URI of a client built with no options prints as `https://<host>:4433`. */
  lemma DefaultUriText(hostname: string, u: Uri)
    requires u.scheme == Protocol(Bool(true)) && u.host == Str(hostname) && u.port == Int(4433)
    requires u.path == "" && u.query == None
    ensures u.ToString() == "https://" + hostname + ":4433"
  {
    assert IntToString(4433) == "4433";
  }
}
