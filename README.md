# PayPal REST adapter: token cache, endpoints, request shaping and retry

This project models the REST adapter of the PayPal Ruby SDK core
(`PayPal::SDK::Core::API::REST`, `lib/paypal-sdk/core/api/rest.rb`), the
subclass of the generic API client that talks to the REST endpoints. The
adapter does four things:

- It resolves where requests and token requests go: `service_endpoint`,
  `token_endpoint` and `token_uri`.
- It keeps an OAuth2 client-credentials token in three instance variables
  (`@token_hash`, `@token_request_at`, `@token_uri`). These are filled by
  `token_hash`, expired by `validate_token_hash`, set by `token=` and
  cleared by `set_config`.
- It shapes the request payload (`format_request`) and the response payload
  (`format_response`). It turns a BadRequest into a returned response
  (`handle_response`).
- It retries an API call once, with a fresh token, when the first attempt is
  rejected as unauthorized (`api_call`).

Layout, one module per file:

- `ruby.dfy` (`Ruby`): the Ruby values the adapter handles. This covers
  `nil`/`false` truthiness, `Hash#[]` with a Symbol key, `to_i`, `to_s` in
  interpolation, `String#<=>` and `String#delete`. It also has the exceptions
  and an `Outcome` datatype, so that every raise is a value.
- `env.dfy` (`Env`): the configuration and the payload entries. It also holds
  the collaborators the adapter calls but does not define: JSON, `URI.parse`,
  the base class's helpers, `pack('m')` and the HTTP transport. Each
  collaborator is a function value, so nothing is assumed about it beyond its
  type. The transport is a script indexed by the number of earlier calls.
- `endpoints.dfy` (`Endpoints`): endpoint fall-back and the `token_uri` path
  rule. The rule includes the `/^\/?$/` match with Ruby's line anchors.
- `tokens.dfy` (`Tokens`): the expiry test, `token_type`'s default, the hash
  `token=` stores, and the client-credentials request.
- `shaping.dfy` (`Shaping`): the Authorization value, header precedence,
  response classification and `handle_response`.
- `token_cache.dfy` (`TokenCache`): the token cache as a value.
  `ReadTokenHash` is one read of `token_hash`. `AuthorizationStep` is the two
  reads behind `"#{token_type} #{token}"`. Lemmas state what these reads do.
- `attempt.dfy` (`Attempt`): `format_request` as a step on the payload and the
  cache, and one call of the base class's `api_call` built from the adapter's
  hooks: `format_request`, one `http_call` checked by `handle_response`, and
  `format_response`.
- `retry.dfy` (`Retry`): `api_call` with its single retry, decided on the
  cache as the first attempt left it.
- `rest.dfy` (`Api`): the mutable objects.
  - `Payload` is the request hash that `format_request`/`format_response`
    update in place.
  - `Rest` holds the cache fields, which its methods update step by step.
    Each method is proved against the functions above; its `ensures` ties the
    new cache (`Snapshot()`) and result to them. `Valid()` keeps a cached hash
    truthy and a memoized token URI equal to what the configuration resolves
    to.
  - The clock is an integer `now` argument.

Behaviour of the code that the model keeps as written:

- A hash is kept while `@token_request_at` is unset, whatever it declares.
  This is the case after `token=` or `token_hash=` on a fresh client.
- The success test compares status codes as strings (`"200" <= code <= "299"`),
  not as numbers. `Shaping.SuccessCodeOfThreeDigits` shows the two agree on
  three-digit codes.
- `token=` always stores the type "Bearer"; it takes no token type.
- The retry replays the entries the payload had before the first attempt, taken by `dup`. The URI object that Ruby's shallow `dup` shares with the first attempt is not modelled (see `Api.Payload.Dup` under "## Left out").
- The retry is decided on `@token_hash` as the first attempt left it. That
  attempt's `format_request` may have fetched the token itself.
- `http_call` checks its response with `handle_response`. So a token request
  answered 400 is parsed and cached like any other answer.

## Model

| member | source | states |
|---|---|---|
| `Endpoints.DefaultEndpoint` | lib/paypal-sdk/core/api/rest.rb:14-17 | only the modes `sandbox` and `live` have a default endpoint, and these are the two PayPal hosts |
| `Endpoints.ServiceEndpoint` | lib/paypal-sdk/core/api/rest.rb:21-23 | the service endpoint is the first present of the configured REST endpoint, the base class's endpoint and the mode's default |
| `Endpoints.TokenEndpoint` | lib/paypal-sdk/core/api/rest.rb:26-28 | a configured token endpoint wins; otherwise the service endpoint is used |
| `Endpoints.TokenEndpointOrder` | lib/paypal-sdk/core/api/rest.rb:21-28 | the token endpoint is the first present of four sources in a fixed order; with nothing configured it is the mode's default |
| `Endpoints.RootPathMatchWithoutLineBreak` | lib/paypal-sdk/core/api/rest.rb:42 | on a path without line feeds, `/^\/?$/` matches exactly the empty path and "/" |
| `Endpoints.WithOAuthPath` | lib/paypal-sdk/core/api/rest.rb:42 | a matching path becomes `/v1/oauth2/token`, any other URI is kept; origin and query never change |
| `Endpoints.ResolveTokenUri` | lib/paypal-sdk/core/api/rest.rb:38-45 | parsing raises for a missing or malformed endpoint; otherwise the parsed endpoint gets the OAuth path rule |
| `Endpoints.TokenUriPath` | lib/paypal-sdk/core/api/rest.rb:38-45 | an endpoint with its own path is used verbatim; an empty or root path becomes the OAuth token path |
| `Tokens.DeclaredExpiry` | lib/paypal-sdk/core/api/rest.rb:79-80 | a lifetime is declared exactly when the hash has a truthy `expires_in` whose `to_i` succeeds, and it is that `to_i`; an Integer declares itself |
| `Tokens.Expired` | lib/paypal-sdk/core/api/rest.rb:77-83 | the cache is cleared exactly when a request instant is set, a truthy hash is cached, it declares a lifetime, and the elapsed time is strictly greater than it; raising happens only when the lifetime cannot be read |
| `Tokens.NoExpiryNeverExpires` | lib/paypal-sdk/core/api/rest.rb:79 | a hash without a truthy `expires_in` is never cleared |
| `Tokens.ExpiryBoundary` | lib/paypal-sdk/core/api/rest.rb:80 | a token is kept when exactly its lifetime has elapsed and cleared one second later |
| `Tokens.ExpiryIsMonotone` | lib/paypal-sdk/core/api/rest.rb:80 | once expired at an instant, a token is expired at every later instant |
| `Tokens.FreshTokenKept` | lib/paypal-sdk/core/api/rest.rb:77-83 | at the instant of its own request a token is cleared only if it declares a negative lifetime |
| `Tokens.TokenTypeOf` | lib/paypal-sdk/core/api/rest.rb:67-69 | a truthy `token_type` is used, otherwise "Bearer"; a cached value that is not a Hash raises |
| `Tokens.ExplicitTokenHash` | lib/paypal-sdk/core/api/rest.rb:72-74 | the hash `token=` stores, for any object, is truthy, yields that object as access token and "Bearer" as type, and declares no lifetime |
| `Tokens.ExplicitTokenNeverExpires` | lib/paypal-sdk/core/api/rest.rb:72-83 | a token set with `token=` is never cleared by validation, whatever the instants |
| `Tokens.BasicAuth` | lib/paypal-sdk/core/api/rest.rb:53 | the Basic credential contains no CR or LF, and holds every other character of the packed text as often as it occurs there; it is the packed text itself when that has no line break |
| `Tokens.BasicAuthOfLines` | lib/paypal-sdk/core/api/rest.rb:53 | when `pack('m')` yields lines each ended by a line feed, the credential is those lines joined in order |
| `Tokens.TokenRequest` | lib/paypal-sdk/core/api/rest.rb:53-55 | the token request is a POST of `grant_type=client_credentials` to the token URI, with the default headers plus a Basic Authorization |
| `Tokens.FetchedToken` | lib/paypal-sdk/core/api/rest.rb:55-56 | the token is the parsed response body; a transport exception or a parse error is raised instead |
| `Shaping.Authorization` | lib/paypal-sdk/core/api/rest.rb:121 | the Authorization value is "type token", read from the two hashes; it raises exactly when either is not a Hash |
| `Shaping.ExplicitTokenAuthorization` | lib/paypal-sdk/core/api/rest.rb:62-74 | for a hash set with `token=` the Authorization value is "Bearer " followed by the interpolated token: the string for a String, nothing for nil |
| `Shaping.RequestHeaders` | lib/paypal-sdk/core/api/rest.rb:120-122 | the merged headers contain exactly the four sources' keys; the caller's value always wins, then the content type, then the Authorization, then the credential headers |
| `Shaping.FormattedHeader` | lib/paypal-sdk/core/api/rest.rb:121-122 | the stored header is the merge above; an Authorization failure propagates and a missing caller header raises TypeError |
| `Shaping.SuccessCodeOfThreeDigits` | lib/paypal-sdk/core/api/rest.rb:135 | on three-digit codes the string comparison with "200" and "299" is the numeric range 200..299 |
| `Shaping.ResponseData` | lib/paypal-sdk/core/api/rest.rb:134-142 | there are three exclusive shapes: the parsed body for a success code; `{"error" => parsed body}` for a JSON failure; `{"error" => {name, message, developer_msg}}` otherwise. Only parsing raises |
| `Shaping.HandleResponse` | lib/paypal-sdk/core/api/rest.rb:103-108 | a BadRequest becomes its response; every other outcome, raised or returned, is passed on unchanged |
| `Attempt.JoinedUri` | lib/paypal-sdk/core/api/rest.rb:117 | only the path changes, to the action joined onto the old path |
| `Attempt.FormatRequestStep` | lib/paypal-sdk/core/api/rest.rb:115-126 | a payload without a URI raises with nothing changed; a formatted request has URI, header and body set and leaves a token cached; the cache invariant is kept and at most two token requests are sent |
| `Attempt.FormatRequestFormats` | lib/paypal-sdk/core/api/rest.rb:115-126 | on a payload with a URI, the path gets the action joined and the cache is what building the Authorization left; the request is formatted exactly when the Authorization was read and the caller gave a header, and then the header is the precedence merge and the body the JSON dump of the params; otherwise only the URI changed and the Authorization's error, or TypeError, is raised |
| `Attempt.SendFormatted` | lib/paypal-sdk/core/api/rest.rb:103-144 | the formatted request is sent once and logged; an error from `handle_response` is raised with the payload unchanged; otherwise the response is stored, the result is `format_response`'s data of it, and a returned result is stored as `data`; the token is untouched |
| `Attempt.BaseAttempt` | lib/paypal-sdk/core/api/rest.rb:103-144 | one base call leaves the token where its `format_request` left it; a result is the `data` that `format_response` stored from the response; at most three requests are sent and the cache invariant is kept |
| `Attempt.BaseAttemptSends` | lib/paypal-sdk/core/api/rest.rb:103-144 | a failing `format_request` sends nothing more and its error is the result; otherwise the formatted request is sent once, and the answer through `handle_response` is raised, or stored with `format_response`'s data of it as the result |
| `Retry.ApiCallRun` | lib/paypal-sdk/core/api/rest.rb:86-100 | one or two base calls on the original payload; two exactly when the first raised UnauthorizedAccess while a token is cached after it and a client id is set; the retry starts from that cache with the token cleared, and the result and cache are the last call's |
| `Retry.AlwaysUnauthorized` | lib/paypal-sdk/core/api/rest.rb:86-100 | when the first attempt and every attempt from an emptied cache raise UnauthorizedAccess, there are at most two attempts and the result is UnauthorizedAccess |
| `Retry.RefusedFetchUnauthorized` | lib/paypal-sdk/core/api/rest.rb:48-58 | when the transport refuses every request with UnauthorizedAccess and the token URI resolves, an attempt with a URI from a cache without a token raises UnauthorizedAccess, because the token fetch is refused |
| `Retry.RefusingTransportUnauthorized` | lib/paypal-sdk/core/api/rest.rb:86-100 | against such a transport, `api_call` from an empty cache makes at most two attempts and raises UnauthorizedAccess |
| `Retry.NoRetryWithoutClient` | lib/paypal-sdk/core/api/rest.rb:91-97 | without a client id there is one call, the cache stays as that call left it, and its outcome is re-raised or returned unchanged |
| `Retry.UnauthorizedApiRetries` | lib/paypal-sdk/core/api/rest.rb:89-94 | when the request was formatted and the API answered UnauthorizedAccess, a client with an id retries, whether or not a token was cached before the call |
| `Retry.RetryRefetches` | lib/paypal-sdk/core/api/rest.rb:93-94 | on a valid cache and a payload with a URI, the first request a retry sends is a new client-credentials request to the token URI: the token that drew the UnauthorizedAccess is not reused |
| `Retry.FailedFetchNoRetry` | lib/paypal-sdk/core/api/rest.rb:90-97 | with an empty cache, a token fetch that raises (a 401 from the token endpoint, say) leaves the cache empty, so there is no retry and the first attempt's error is the result |
| `TokenCache.TokenUriStep` | lib/paypal-sdk/core/api/rest.rb:38-45 | on a valid cache the memoized or freshly resolved URI is the resolution of the configuration, and it is memoized only when it resolves |
| `TokenCache.ReadTokenHash` | lib/paypal-sdk/core/api/rest.rb:48-58 | a read sends at most one request and only appends to the request log; a truthy result is cached; a read that raises changed nothing or left the cache empty; the cache invariant is kept |
| `TokenCache.CachedTokenKept` | lib/paypal-sdk/core/api/rest.rb:48-50 | a cached hash still valid after validation is returned unchanged, with no HTTP call and the cache untouched |
| `TokenCache.NoCallMeansCached` | lib/paypal-sdk/core/api/rest.rb:48-58 | a read that returns without an HTTP call returned the cached, unexpired hash and changed nothing |
| `TokenCache.FetchWhenEmptyOrExpired` | lib/paypal-sdk/core/api/rest.rb:48-58 | with the cache empty or its hash expired, exactly one client-credentials POST goes to the token URI; the request instant becomes now, the URI is memoized, the result is the parsed response, and the cache holds it when truthy |
| `TokenCache.NoTokenUriNoRequest` | lib/paypal-sdk/core/api/rest.rb:50-55 | with the cache empty and no resolvable token URI, the read raises the URI error and sends nothing |
| `TokenCache.ExplicitTokenRead` | lib/paypal-sdk/core/api/rest.rb:62-74 | after `token = t`, `token` reads t and `token_type` reads "Bearer", with no fetch and the cache unchanged |
| `TokenCache.AuthorizationStep` | lib/paypal-sdk/core/api/rest.rb:121 | building the Authorization reads the cache twice (type first), sends at most two requests, yields `Authorization` of the two hashes read, and leaves a token cached when it succeeds |
| `TokenCache.OneFetchOneHash` | lib/paypal-sdk/core/api/rest.rb:62-69 | the reads by `token_type` and by `token` return the same hash unless each of them fetched a token |
| `TokenCache.AuthorizationOfOneHash` | lib/paypal-sdk/core/api/rest.rb:121 | an Authorization built with fewer than two fetches carries one hash's type and access token |
| `TokenCache.ExplicitTokenHeader` | lib/paypal-sdk/core/api/rest.rb:72-74 | after `token = t` the Authorization is "Bearer " followed by the interpolated t, with no HTTP call and the cache unchanged |
| `Api.Payload.Dup` | lib/paypal-sdk/core/api/rest.rb:87 | the backup is a new payload with the same entries |
| `Api.Rest.SetConfig` | lib/paypal-sdk/core/api/rest.rb:31-35 | the new configuration is in place with the memoized token URI and the cached token cleared, and the cache invariant holds |
| `Api.Rest.TokenUri` | lib/paypal-sdk/core/api/rest.rb:38-45 | the result is the resolution of the current configuration, memoized on success |
| `Api.Rest.ValidateTokenHash` | lib/paypal-sdk/core/api/rest.rb:77-83 | the cache is cleared exactly when `Expired` says so; it raises when the test raises |
| `Api.Rest.HttpCall` | lib/paypal-sdk/core/api/rest.rb:103-108 | the transport's next outcome, passed through `handle_response`, is returned and the request is logged |
| `Api.Rest.TokenHash` | lib/paypal-sdk/core/api/rest.rb:48-58 | result and new cache are those of `ReadTokenHash` on the old cache |
| `Api.Rest.Token` | lib/paypal-sdk/core/api/rest.rb:62-64 | `token_hash[:access_token]` of one `ReadTokenHash`, with its new cache |
| `Api.Rest.TokenType` | lib/paypal-sdk/core/api/rest.rb:67-69 | `TokenTypeOf` of one `ReadTokenHash`, with its new cache |
| `Api.Rest.SetToken` | lib/paypal-sdk/core/api/rest.rb:72-74 | the cache holds the explicit Bearer hash |
| `Api.Rest.SetTokenHash` | lib/paypal-sdk/core/api/rest.rb:59 | the cache holds the given hash, or nothing for nil or false |
| `Api.Rest.ApiCall` | lib/paypal-sdk/core/api/rest.rb:86-100 | result, number of base calls, the caller's payload and the token cache are those of `ApiCallRun` |
| `Api.Rest.BaseApiCall` | lib/paypal-sdk/core/api/rest.rb:89 | result, payload and token cache are those of `BaseAttempt`, and one base call is counted |
| `Api.Rest.ReadAuthorization` | lib/paypal-sdk/core/api/rest.rb:121 | result and new cache are those of `AuthorizationStep` |
| `Api.Rest.FormatRequest` | lib/paypal-sdk/core/api/rest.rb:115-126 | result, payload and cache are those of `FormatRequestStep`: a payload without a URI raises and nothing changes; otherwise the path gets the action joined, the cache follows `AuthorizationStep`, on success the header is `FormattedHeader` and the body the JSON dump of the params, and on failure only the URI changed |
| `Api.Rest.FormatResponse` | lib/paypal-sdk/core/api/rest.rb:133-144 | `data` becomes `ResponseData` of the response and nothing else changes; a parse error or a missing response raises with the payload unchanged |
| `Ruby.Index` | lib/paypal-sdk/core/api/rest.rb:63 | `Hash#[]` answers with the entry or nil; nil and booleans raise NoMethodError, other values TypeError |
| `Ruby.ToI` | lib/paypal-sdk/core/api/rest.rb:80 | `to_i` of an Integer is itself, of a String its parsed prefix, of nil 0; booleans, arrays and hashes raise NoMethodError |
| `Ruby.Interpolate` | lib/paypal-sdk/core/api/rest.rb:121 | interpolation renders nil as empty and a String as itself, and an Integer so that `to_i` reads it back |
| `Ruby.DeleteCrLf` | lib/paypal-sdk/core/api/rest.rb:53 | the result has no CR or LF, holds every other character as often as the input does, and is the input when it has none |
| `Ruby.DeleteCrLfAppend` | lib/paypal-sdk/core/api/rest.rb:53 | deleting line breaks works piece by piece, so the kept characters stay in their order |
| `Ruby.UriText` | lib/paypal-sdk/core/api/rest.rb:119 | the text of a URI is origin, path and query in order |

## Left out

- The base class (`base.rb`) and its `http_call` are not part of this model. Its `api_call` is taken to be: its own preparation of the payload (default headers, default URI, query string), an uninterpreted function here; then `format_request`; one `http_call` of the formatted payload; `format_response`; and `payload[:data]` as the result. Its `http_call` is taken to pass the transport's answer through `handle_response`. The base `handle_response` (which status raises which exception) is part of the scripted transport.
- `url_join`, `credential(...).properties`, `map_header_value` and `default_http_header` belong to the base class and are not part of this model. They are uninterpreted functions; nothing is assumed about the keys `map_header_value` emits.
- `MultiJson.load`/`dump`, `URI.parse`, `Array#pack('m')` and `inspect` are foreign library calls. They are uninterpreted; JSON syntax and Base64 are not specified.
- `Time.now` is floating point in the source. The model uses an integer clock. `token_type` and `token` each read the clock in the source; the model gives every read within one `api_call`, the retry included, the same instant.
- `log_http_call` only logs, and is not modelled.
- Concurrency is not modelled: the source has no locking, and races on the shared cache are out of scope.
- `Api.Payload.Dup`: the copy is a value copy of the entries. Ruby's `dup` is shallow, so the URI object whose path `format_request` rewrites in place is shared with the backup. That sharing is not modelled.
- `Ruby.ToI`: `String#to_i` is modelled for optional leading whitespace, an optional sign and decimal digits. Underscores between digits and the `0d`/`0D` prefix that base-10 `to_i` skips (`"0d12".to_i` is 12) are not modelled; such strings read as 0 or as their digits before the underscore.
- `Ruby.Interpolate`: Arrays and Hashes render through an uninterpreted `inspect`.
- `Ruby.Value` has no Float. A float `expires_in`, which `to_i` truncates (`Float#to_i`), and the interpolation of a Float are not modelled.
- `Shaping.ResponseValue`: the `developer_msg` of a non-JSON failure is the response object itself in the source. The model puts a four-entry Hash in its place (code, message, content type, body).
- Symbol and String hash keys are both strings. The `content_type` of a response is its media type without parameters.
