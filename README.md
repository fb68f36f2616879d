# ncio core, modelled in Dafny

ncio backs up, restores and transforms the node classification hierarchy of
a Puppet Enterprise node classifier. The hierarchy is a JSON array of
groups, each with a `rule` tree and a `classes` hash of class parameters.
This project models the parts of ncio whose behaviour can be stated and
proved:

- **Transform** (`transform.dfy`). The hostname rewrite of a backed-up
  hierarchy. Rule trees are rewritten recursively. The parameters of
  matching classes go through the hostname map. The group hash is updated in
  place by `Transform.TransformGroup`, a method that takes a `Group` object.
- **RetryAction** (`retry.dfy`). The retry loop. It runs a block until the
  block returns. A failure after the timeout becomes `Timeout`. A failure
  whose class is not retryable is re-raised. Any other failure sleeps
  `2^n - 1` tenths of a second and runs the block again. `RetryAction.Retry`
  is the loop. It is proved against the `Behaviour` predicate, which fixes
  the result, the number of runs and the sleeps for every input.
- **Http** (`http_client.dfy`). The HTTP client's option defaults and merge,
  its protocol choice, and its memoised URI and Net::HTTP objects. The
  request pass-through is modelled too.
- **Api** (`api_v1.dfy`). The classifier API client. It holds the memoised
  connection. A request either goes through the retry loop or is made
  directly. `build_uri` writes to the connection's shared URI object. Each
  response is classified into the parsed groups, `true`, `ApiError` or
  `ApiAuthenticationError`.
- **Application** (`app.dfy`). Subcommand dispatch in `run`, `reset!`, the
  memoised API object, and the in-place `groups.map!` of `transform_groups`.
- **Json** and **Wrappers** (`json.dfy`). Parsed JSON values. A Ruby Hash is
  an ordered association list, with `hash[key]` and `hash[key] = v`. Also
  `Option`, `Result`, and a map that stops at the first failure.

Inputs the code gets from outside the modelled files are parameters:

- the hostname map (`Lookup`) and the class matcher (`Matcher`);
- `JSON.parse` (`Api.Parser`);
- the local host name;
- each request's reply from the server, or the exception it raises;
- how long each run of a block takes. The clock counts integer tenths of a
  second from the start of `retry_action`.

## Model

| member | source | states |
|---|---|---|
| Transform.GroupMatches | lib/ncio/support/transform.rb:9-15 | Succeeds iff `group['classes']` is a hash. The answer is true iff some class name in it satisfies the matcher. |
| Transform.TransformRuleField | lib/ncio/support/transform.rb:24-25 | `transform_rules(group['rule'])` succeeds iff the rule is an array or a hash, and otherwise raises `NoMethodError` for `map`. An array becomes `TransformRules` of its elements. A hash becomes an array of the same length whose i-th element is `[lookup(key_i), RewriteRule(value_i)]`. |
| Transform.RewriteRuleAt | lib/ncio/support/transform.rb:45-53 | `RewriteRule`, the recursive rewrite of one rule element: at every position of a rule tree, the rewritten tree holds an array of the same length where the input holds an array. A string leaf becomes its hostname-map lookup. Any other leaf becomes `nil`. |
| Transform.TransformRulesShape | lib/ncio/support/transform.rb:45-53 | `TransformRules`, i.e. `transform_rules` on a list, keeps the length of the rule list. It maps strings to their lookup and nested arrays to arrays of the same length. Every other element becomes `nil`. |
| Transform.RewriteRuleIdentity | lib/ncio/support/transform.rb:45-65 | Uses an identity-fallback map, taken as a hypothesis. A rule tree whose leaves are strings the map does not rename comes back unchanged. |
| Transform.RewriteRuleIdempotent | lib/ncio/support/transform.rb:45-53 | Uses an identity-fallback map with no chains of renames. Rewriting a rule tree twice gives the same tree as rewriting it once. |
| Transform.TransformRuleFieldIdempotent | lib/ncio/support/transform.rb:45-53 | Uses an identity-fallback map with no chains of renames. `transform_rules` applied to a rewritten rule field returns it unchanged. |
| Transform.TransformParams | lib/ncio/support/transform.rb:61-70 | `transform_params` succeeds iff the parameters are a hash, and then yields a hash. A JSON array raises `ArrayAsHash`. Any other value raises `NoMethodError` for `each_with_object`. |
| Transform.TransformParamsSpec | lib/ncio/support/transform.rb:61-70 | `transform_params` on a hash succeeds. The result has exactly the same keys in the same order. A string becomes its lookup. An array is looked up element-wise with its length kept. Any other value is unchanged. |
| Transform.TransformParamsPairs | lib/ncio/support/transform.rb:61-70 | For a hash with distinct keys, the i-th pair of the result is the i-th key with its rewritten value, and no pair is added. |
| Transform.RewriteParamIdempotent | lib/ncio/support/transform.rb:63-67 | Uses an identity-fallback map with no chains of renames. Rewriting a rewritten parameter value changes nothing. |
| Transform.TransformParamsIdempotent | lib/ncio/support/transform.rb:61-70 | Same map hypothesis. `transform_params` of its own result returns that result. |
| Transform.TransformClasses | lib/ncio/support/transform.rb:27-33 | `group['classes'].each_with_object({})` succeeds iff the classes are a hash and every matching class's parameters can be rewritten. It then yields a hash. A JSON array raises `ArrayAsHash`. Any other value raises `NoMethodError` for `each_with_object`. |
| Transform.RewriteClassesOk | lib/ncio/support/transform.rb:27-33 | Rewriting the classes hash succeeds iff every matching class's parameters can be rewritten. |
| Transform.RewriteClassesSpec | lib/ncio/support/transform.rb:27-33 | A successful rewrite keeps every class name in place. Matching classes get rewritten parameters. Every other class keeps its parameters. |
| Transform.TransformClassesIdempotent | lib/ncio/support/transform.rb:27-33 | Same map hypothesis, and hashes with distinct keys. Rewriting a rewritten classes hash changes nothing. |
| Transform.RuleStep | lib/ncio/support/transform.rb:24-25 | Succeeds iff a truthy rule can be rewritten. A falsy rule leaves the group as it is. Otherwise the keys keep their order, `rule` holds `TransformRuleField` of the old rule, and every other entry is unchanged. |
| Transform.RuleStepIdempotent | lib/ncio/support/transform.rb:24-25 | Same map hypothesis. The rule step applied to a transformed group changes nothing. |
| Transform.TransformedGroupSpec | lib/ncio/support/transform.rb:23-36 | `transform_group` succeeds iff the truthy rule and the classes can be rewritten. On success:<br>• every key keeps its position;<br>• no field but `rule` and `classes` changes;<br>• an absent or `nil` rule stays as it is;<br>• the class names are kept;<br>• non-matching classes are unchanged. |
| Transform.TransformedGroupIdempotent | lib/ncio/support/transform.rb:23-36 | Same map hypothesis, and every hash in the group has distinct keys. `transform_group` applied to a group it has already transformed leaves it as it is. |
| Transform.TransformGroup | lib/ncio/support/transform.rb:23-36 | Updates the group object in place to the transformed contents and returns that same object. A failure while rewriting the classes leaves the already rewritten rule in the group. |
| RetryAction.TimedOut | lib/ncio/support/retry_action.rb:17-20 | True when there is no timeout. Otherwise true iff the time since the start has reached the timeout. |
| RetryAction.TimedOutStays | lib/ncio/support/retry_action.rb:17-20 | Once timed out, any later time is timed out too. |
| RetryAction.Retry | lib/ncio/support/retry_action.rb:28-76 | The loop meets `Behaviour`:<br>• `NoBlockGiven`, then `NoTimeoutGiven`, before any run;<br>• every run but the last was a retried failure, the n-th followed by a sleep of `2^n - 1` tenths;<br>• the last run decides: its value, `Timeout` or the re-raised failure.<br>With timeout `t` it runs the block at most `max(t, 0) + 1` times. |
| RetryAction.DecideRetries | lib/ncio/support/retry_action.rb:45-73 | The rescue clause of one run retries iff the run raised, the time is not up and the class is retryable. A returning run is decided with its value. A failure that decides the call is `Timeout` iff the time is up, and otherwise the run's own exception. |
| RetryAction.DecidedAt | lib/ncio/support/retry_action.rb:45-73 | The run that decides the call is the first run the rescue clause does not retry, and its outcome is the result. |
| RetryAction.BehaviourUnique | lib/ncio/support/retry_action.rb:28-76 | The result, the number of runs and the sleeps of a call are determined by its inputs. |
| RetryAction.EmptyListOnlyTimesOut | lib/ncio/support/retry_action.rb:35-65 | With a nil or empty retry list, a failing call never re-raises. It fails only with `Timeout`, after the timeout has passed. |
| RetryAction.NotRetryableReraised | lib/ncio/support/retry_action.rb:53-65 | Assumes a non-empty list, runs 0..k-1 all retried, and a failure at run k before the timeout whose class is not listed. That failure is re-raised unchanged; the block ran k+1 times and slept k times. |
| RetryAction.TimeoutBeforeFilter | lib/ncio/support/retry_action.rb:53-57 | Assumes runs 0..k-1 all retried and a failure at run k at or after the timeout. The call fails with `Timeout`, even when the class would not be retried; the block ran k+1 times and slept k times. |
| RetryAction.SuccessNeverTimesOut | lib/ncio/support/retry_action.rb:28-46 | A run that returns ends the call with its value, even when it ends after the timeout. |
| RetryAction.ThreeRefusalsThenSuccess | lib/ncio/support/retry_action.rb:68-73 | Setting: 60 s timeout, only `Errno::ECONNREFUSED` retried, three refusals, then an answer. The result is that answer after 4 runs, with sleeps of 1, 3 and 7 tenths. |
| Http.Merge | lib/ncio/http_client.rb:57 | Every caller-supplied key overrides the default, even with `nil`. Every other default key keeps its default value. |
| Http.DefaultSettings | lib/ncio/http_client.rb:26-33 | With no options:<br>• host is the local host name;<br>• port is 4433;<br>• `use_ssl` is true and the protocol is `https`;<br>• cert and key are the host's PEM files under the Puppet SSL directory;<br>• cacert is `certs/ca.pem` there. |
| Http.SettingOverride | lib/ncio/http_client.rb:57-63 | Each setting is the caller's value when given, and otherwise the default. |
| Http.Protocol | lib/ncio/http_client.rb:64 | `https` iff `use_ssl` is truthy, otherwise `http`. |
| Http.HttpClient.constructor | lib/ncio/http_client.rb:56-65 | The settings are read from the merged options and the protocol is chosen from `use_ssl`. Nothing is memoised yet. |
| Http.HttpClient.GetUri | lib/ncio/http_client.rb:85-88 | Returns the same URI object on every call. The first call builds it from protocol, host and port, with an empty path and no query. |
| Http.DefaultUriText | lib/ncio/http_client.rb:85-88 | The URI of a client built with no options prints as `https://<host>:4433`. |
| Http.HttpClient.GetHttp | lib/ncio/http_client.rb:100-109 | Returns one Net::HTTP object for the URI's host and port, built on the first call. SSL is set up on it iff `use_ssl` is truthy. |
| Http.NetHttp.SetupSsl | lib/ncio/http_client.rb:118-131 | Sets peer verification with the CA file, the client certificate and the key. |
| Http.HttpClient.Request | lib/ncio/http_client.rb:76-78 | Hands the request, with no body, to the memoised Net::HTTP object. Returns its reply unchanged. |
| Api.V1.constructor | lib/ncio/api/v1.rb:33-38 | Keeps the options, host and port, with no connection yet. |
| Api.V1.Connection | lib/ncio/api/v1.rb:46-56 | Builds one `HttpClient` on the first call, from the host, port and certificate files over HTTPS. Returns that same object on every later call. |
| Api.V1.RequestOnce | lib/ncio/api/v1.rb:75-77 | One request over the memoised connection. It appends exactly that request to what the connection has sent. |
| Api.Direct | lib/ncio/api/v1.rb:75-77 | Without the retry loop, a reply is returned as it is and an exception propagates unchanged. |
| Api.V1.SendRepeatedly | lib/ncio/api/v1.rb:68-70 | The runs of the retried block: after n runs the connection has been handed exactly n more copies of the request, and the shared URI object is untouched. |
| Api.V1.Request | lib/ncio/api/v1.rb:62-87 | When `retry_connections` is truthy, the request goes through `retry_action` with the connect timeout (converted to tenths) and only `Errno::ECONNREFUSED` retried. Otherwise it is one direct request. Either way, the connection is handed the request once per run. |
| Api.V1.BuildUri | lib/ncio/api/v1.rb:151-156 | Overwrites path and query on the connection's one shared URI object and returns that object. |
| Api.FormEncodeAppend | lib/ncio/api/v1.rb:154 | Encoding two non-empty parameter lists one after the other is encoding each and joining the two with `&`. |
| Api.FormEncodeEach | lib/ncio/api/v1.rb:154 | Every parameter's `key=value` text occurs in the encoded query. |
| Api.Index | lib/ncio/api/v1.rb:114 | `obj['msg']` succeeds only on a hash or a string. A hash yields its entry. A string yields a truthy value iff it contains `msg`. |
| Api.UnauthenticatedAnywhere | lib/ncio/api/v1.rb:112 | A body carrying `rbac/user-unauthenticated` anywhere is read as unauthenticated iff the code is `401`. |
| Api.RaiseOnNon200 | lib/ncio/api/v1.rb:111-121 | `ApiError` iff the response is not a 401 carrying `rbac/user-unauthenticated`, with the exact `Expected … response, got … body: …` message. Otherwise:<br>• a body that does not parse raises `JSON::ParserError` for that body;<br>• a parsed value that is neither a hash nor a string raises `NoMethodError` or `TypeError` (both modelled as `NotIndexable`);<br>• else `ApiAuthenticationError` with `obj['msg']` when truthy and `401 User Unauthenticated Error` when not. |
| Api.ErrorMessageMentions | lib/ncio/api/v1.rb:117-118 | The `ApiError` message contains the expected code, the received code and the body. |
| Api.UnauthenticatedDefaultMessage | lib/ncio/api/v1.rb:112-115 | An unauthenticated 401 whose body has no `msg` field raises `401 User Unauthenticated Error`. |
| Api.UnauthenticatedMessage | lib/ncio/api/v1.rb:112-115 | An unauthenticated 401 whose `msg` is a string raises that string. |
| Api.GroupsResult | lib/ncio/api/v1.rb:97-107 | Returns the parsed body iff the reply is a 200 whose body parses. A 200 whose body does not parse raises `JSON::ParserError` for that body. A request failure propagates. Any other code raises through `raise_on_non_200` with 200 expected. |
| Api.UnauthorizedPlainBody | lib/ncio/api/v1.rb:116-119 | A 401 with body `error` raises `ApiError` with `Expected 200 response, got 401 body: error`. |
| Api.V1.Groups | lib/ncio/api/v1.rb:97-107 | GETs `/classifier-api/v1/groups?inherited=<true/false>`, with `false` when the flag is left out, over the shared URI, once per run of the request. The result is `GroupsResult` of the request's outcome. |
| Api.ImportResult | lib/ncio/api/v1.rb:129-137 | Returns `true` iff the reply is a 204. Otherwise raises through `raise_on_non_200` with 204 expected. |
| Api.V1.ImportHierarchy | lib/ncio/api/v1.rb:129-137 | POSTs to `/classifier-api/v1/import-hierarchy` with chunked transfer encoding and the given stream as the request's body stream. The result is `ImportResult` of the request's outcome. |
| Application.App.constructor | lib/ncio/app.rb:30-34 | A new application holds the parsed options and no API object. |
| Application.App.Reset | lib/ncio/app.rb:38-42 | Takes the re-parsed options and drops the memoised API object. |
| Application.App.GetApi | lib/ncio/support.rb:60-62 | Returns one `Api::V1` for the current options, built on first use. The memoised client stays consistent (`Valid`) for the current options. |
| Application.App.Run | lib/ncio/app.rb:53-65 | Backup and restore run only when `groups` is truthy. Transform always runs. Each of the three exits 0 unless its action raises, and that exception propagates unchanged. Any other subcommand runs nothing and yields `nil`. |
| Application.MapOne | lib/ncio/app.rb:119-121 | The `map!` block on one group: a matching group is transformed in place and returned. A group that does not match is returned as it is. |
| Application.TransformHierarchyGroups | lib/ncio/app.rb:119-121 | `TransformHierarchy` maps `MapStep`, the `map!` block, over the groups. The transform succeeds iff every group's step does. It then keeps the count and order of the groups, leaves every non-matching group as it was and transforms every matching one. |
| Application.TransformHierarchyFirstError | lib/ncio/app.rb:119-121 | A failed transform raises the exception of the first group whose step raises. |
| Application.MapStepIdempotent | lib/ncio/app.rb:119-121 | Uses an identity-fallback map with no chains of renames, and hashes with distinct keys. A transformed group keeps its class names, so it still matches, and the block applied to it again changes nothing. |
| Application.TransformHierarchyIdempotent | lib/ncio/app.rb:119-121 | Same hypotheses for every group. Transforming an already transformed backup gives it back unchanged. |
| Application.MapGroups | lib/ncio/app.rb:119-121 | `groups.map!` keeps every group object in its slot. On success each group holds its entry of `TransformHierarchy`. On failure it raises that transform's exception. |

## Left out

- Option parsing (lib/ncio/support/option_parsing.rb) is not part of this model. The parsed options are inputs. Its subcommand check rejects `transform`, so `run`'s transform branch cannot be reached through that parser. The shown parser also never sets `retry_connections` or `connect_timeout`.
- Logging, standard streams and file I/O are left out: `debug`, `info`, `warn`, `fatal`, `input_stream` and `write_output`. The backup, restore and transform actions are parameters that either finish or raise.
- `JSON.parse` and `JSON.pretty_generate` are left out. Parsing is a parameter that returns a value or fails with `JSON::ParserError`.
- The regular expressions are left out. The class matcher is a parameter, and the `rbac/user-unauthenticated` check is a literal substring test.
- OpenSSL, reading the PEM files and the certificate store are left out. `setup_ssl` records which files it would use.
- URI parsing (`URI(opts[:uri])`) is left out, and so is percent-escaping in `URI.encode_www_form`. The default port is always printed, where Ruby's `URI#to_s` drops it. Arrays and hashes are never interpolated into a URI.
- `Time.now` and `sleep` are left out. Time is a whole number of tenths of a second, given per run of the block, and sleeps are added to it.
- Transform.TransformParams, Transform.TransformClasses: parameters or classes given as a JSON array make the model raise `ArrayAsHash`. Ruby would instead iterate the array's elements as pairs.
- Transform.RewriteRuleIdentity: the identity fallback of the "smart map" is named only in a comment at lib/ncio/support/transform.rb:58-59. No modelled file builds it. With a plain Hash, an unmapped string becomes `nil`, so the identity and idempotence lemmas take the fallback as a hypothesis (`SmartGet`).
- Application.MapGroups: the state of the groups after an exception is not stated beyond their objects staying in place. The groups before the failing one are transformed, and the failing one may already have its rule rewritten.
- Backup data whose top level is not an array of hashes cannot be expressed. `transform_groups` takes an array of `Group` objects, each holding a hash.
- Exceptions are reduced to their class names (`ExceptionClass`) in the retry loop. Messages and exception objects are not modelled. The API's faults carry only the text or value the code raises with.
- Api.V1.Request: the connect timeout is a whole number of seconds and is multiplied by 10 for the retry loop, whose clock counts tenths. Fractional seconds are not modelled.
- Json.Get: a parser result may hold duplicate keys in a hash. `Get` reads the first entry with the key, where a Ruby Hash built by `JSON.parse` keeps the last. The well-formedness hypotheses (`UniqueKeys`, `HashesWellFormed`) rule this case out where the proofs need it.
- Api.V1.Request: the block's runs are modelled as the reply sequence the retry loop consumes. Each run's request is then replayed on the connection, so the order of connection effects relative to the sleeps is not represented.
- The transform is not pure and not total. It updates each group hash in place and raises on data of an unexpected shape. A rule element that is neither a string nor an array becomes `nil`, not itself. The model follows the code.
