/** One call of the base class's `api_call` as the REST adapter drives it:
    the base class's own preparation of the payload, the adapter's
    `format_request` (the only step that reads the token cache), one
    `http_call` of the formatted request (its response checked by
    `handle_response`), the adapter's `format_response`, and
    `payload[:data]` as the result. */
module Attempt {
  import opened Ruby
  import opened Env
  import opened Tokens
  import opened Shaping
  import opened TokenCache

  /** What an operation on a payload and the token cache gives, with the
      payload entries and the cache after it. */
  datatype Effect<+T> = Effect(result: Outcome<T>, payload: PayloadFields, after: Cache)

  /** The payload's URI with the action joined onto its path. */
  function JoinedUri(u: Uri, action: Option<string>, urlJoin: (string, Option<string>) -> string): (r: Uri)
    ensures r.origin == u.origin && r.query == u.query && r.path == urlJoin(u.path, action)
  {
    u.(path := urlJoin(u.path, action))
  }

  /** `format_request` at instant `now`: joins the action onto the URI
      path, sets the headers in their precedence (the Authorization read
      from the token cache) and the JSON body. A payload without a URI
      raises before anything is read; a missing caller header raises
      after the token is read. */
  function FormatRequestStep(c: Config, env: Collaborators, s: Cache, p: PayloadFields, now: int): (e: Effect<()>)
    ensures p.uri.None? ==> e == Effect(Raised(NoMethodError), p, s)
    ensures e.result.Returned? ==> e.payload.uri.Some? && e.payload.header.Some? && e.payload.body.Some?
    ensures e.result.Returned? ==> e.after.tokenHash.Some?
    ensures CacheValid(c, env.parseUri, s) ==> CacheValid(c, env.parseUri, e.after)
    ensures s.httpLog <= e.after.httpLog && |e.after.httpLog| <= |s.httpLog| + 2
  {
    if p.uri.None? then Effect(Raised(NoMethodError), p, s)
    else
      var joined := JoinedUri(p.uri.value, p.action, env.urlJoin);
      var auth := AuthorizationStep(c, env, s, now);
      var header := FormattedHeader(env.mapHeaderValue(NvpAuthHeader, env.credentialProperties(UriText(joined))),
                                    auth.result, p.header);
      if header.Raised? then Effect(Raised(header.error), p.(uri := Some(joined)), auth.after)
      else Effect(Returned(()), p.(uri := Some(joined), header := Some(header.value), body := Some(env.dump(p.params))),
                  auth.after)
  }

  /** What `format_request` does to a payload with a URI: the path gets the
      action joined; the cache is what building the Authorization left;
      the request is formatted exactly when the Authorization could be read
      and the caller gave a header, and then the header is the precedence
      merge and the body the JSON dump of the params; otherwise only the URI
      changed and the Authorization's error, or TypeError for the missing
      header, is raised. */
  lemma FormatRequestFormats(c: Config, env: Collaborators, s: Cache, p: PayloadFields, now: int)
    requires p.uri.Some?
    ensures var joined := JoinedUri(p.uri.value, p.action, env.urlJoin);
      var auth := AuthorizationStep(c, env, s, now);
      var credential := env.mapHeaderValue(NvpAuthHeader, env.credentialProperties(UriText(joined)));
      var e := FormatRequestStep(c, env, s, p, now);
      e.after == auth.after && e.payload.uri == Some(joined) &&
      (e.result.Returned? <==> auth.result.Returned? && p.header.Some?) &&
      (e.result.Returned? ==>
        e.payload == p.(uri := Some(joined), header := Some(RequestHeaders(credential, auth.result.value, p.header.value)),
                        body := Some(env.dump(p.params)))) &&
      (e.result.Raised? ==>
        e.payload == p.(uri := Some(joined)) &&
        e.result.error == (if auth.result.Raised? then auth.result.error else TypeError))
  {
  }

  /** The `http_call` of a formatted payload. */
  function ApiRequest(p: PayloadFields): HttpRequest
    requires p.uri.Some? && p.header.Some? && p.body.Some?
  {
    HttpRequest(p.verb, p.uri.value, p.body.value, p.header.value)
  }

  /** The rest of one base `api_call` once the request is formatted: one
      `http_call` of it, whose answer (checked by `handle_response`) is
      raised or stored, and `format_response`'s data of a stored response
      as the result. The token cache is left alone. */
  function SendFormatted(env: Collaborators, s: Cache, q: PayloadFields): (e: Effect<Value>)
    requires q.uri.Some? && q.header.Some? && q.body.Some?
    ensures e.after == s.(httpLog := s.httpLog + [ApiRequest(q)])
    ensures var answer := HandleResponse(env.httpCall(|s.httpLog|, ApiRequest(q)));
      (answer.Raised? ==> e.result == Raised(answer.error) && e.payload == q) &&
      (answer.Returned? ==>
        e.payload.response == Some(answer.value) && e.result == ResponseData(answer.value, env.load))
    ensures e.result.Returned? ==> e.payload.data == Some(e.result.value)
  {
    var request := ApiRequest(q);
    var answer := HandleResponse(env.httpCall(|s.httpLog|, request));
    var sent := s.(httpLog := s.httpLog + [request]);
    if answer.Raised? then Effect(Raised(answer.error), q, sent)
    else
      var stored := q.(response := Some(answer.value));
      var d := ResponseData(answer.value, env.load);
      if d.Raised? then Effect(Raised(d.error), stored, sent)
      else Effect(Returned(d.value), stored.(data := Some(d.value)), sent)
  }

  /** One base `api_call` on payload `p` at instant `now`: `format_request`
      of the prepared payload, then the formatted request is sent. Its
      result is the `data` that `format_response` stored; the request to
      the API leaves the token where `format_request` left it. */
  function BaseAttempt(c: Config, env: Collaborators, s: Cache, p: PayloadFields, now: int): (e: Effect<Value>)
    ensures e.after.tokenHash == FormatRequestStep(c, env, s, env.prepare(p), now).after.tokenHash
    ensures e.result.Returned? ==> e.payload.response.Some? && e.payload.data == Some(e.result.value)
    ensures e.result.Returned? ==> e.result == ResponseData(e.payload.response.value, env.load)
    ensures CacheValid(c, env.parseUri, s) ==> CacheValid(c, env.parseUri, e.after)
    ensures s.httpLog <= e.after.httpLog && |e.after.httpLog| <= |s.httpLog| + 3
  {
    var f := FormatRequestStep(c, env, s, env.prepare(p), now);
    if f.result.Raised? then Effect(Raised(f.result.error), f.payload, f.after)
    else SendFormatted(env, f.after, f.payload)
  }

  /** One base `api_call` sends the formatted request once `format_request`
      succeeded, and the transport's answer, checked by `handle_response`,
      decides the result: its error is raised, or the response is stored
      and `format_response`'s data of it is the result. A failing
      `format_request` sends nothing and its error is the result. */
  lemma BaseAttemptSends(c: Config, env: Collaborators, s: Cache, p: PayloadFields, now: int)
    ensures var f := FormatRequestStep(c, env, s, env.prepare(p), now);
      var e := BaseAttempt(c, env, s, p, now);
      (f.result.Raised? ==> e.result == Raised(f.result.error) && e.after == f.after) &&
      (f.result.Returned? ==>
        var answer := HandleResponse(env.httpCall(|f.after.httpLog|, ApiRequest(f.payload)));
        e.after == f.after.(httpLog := f.after.httpLog + [ApiRequest(f.payload)]) &&
        (answer.Raised? ==> e.result == Raised(answer.error)) &&
        (answer.Returned? ==>
          e.payload.response == Some(answer.value) && e.result == ResponseData(answer.value, env.load)))
  {
  }

  /** The requests of `format_request` come first among those one base
      `api_call` sends. */
  lemma BaseAttemptStartsWithFormat(c: Config, env: Collaborators, s: Cache, p: PayloadFields, now: int)
    ensures FormatRequestStep(c, env, s, env.prepare(p), now).after.httpLog <= BaseAttempt(c, env, s, p, now).after.httpLog
  {
    BaseAttemptSends(c, env, s, p, now);
  }
}
