/** The REST adapter object: its token cache (`@token_hash`,
    `@token_request_at`, `@token_uri`), the operations that read, fill,
    expire and clear it, request and response formatting on a payload, and
    `api_call` with its single retry. Time is an integer clock passed to
    each operation that reads it. */
module Api {
  import opened Ruby
  import opened Env
  import opened Endpoints
  import opened Tokens
  import opened Shaping
  import opened TokenCache
  import opened Attempt
  import opened Retry

  /** A request payload hash, whose entries the adapter updates in place. */
  class Payload {
    var verb: string
    var uri: Option<Uri>
    var action: Option<string>
    var params: Value
    var header: Option<map<string, string>>
    var body: Option<string>
    var response: Option<Response>
    var data: Option<Value>

    constructor (f: PayloadFields)
      ensures Fields() == f
    {
      verb, uri, action, params, header := f.verb, f.uri, f.action, f.params, f.header;
      body, response, data := f.body, f.response, f.data;
    }

    function Fields(): PayloadFields
      reads this
    {
      PayloadFields(verb, uri, action, params, header, body, response, data)
    }

    /** Replaces every entry. */
    method Assign(f: PayloadFields)
      modifies this
      ensures Fields() == f
    {
      verb, uri, action, params, header := f.verb, f.uri, f.action, f.params, f.header;
      body, response, data := f.body, f.response, f.data;
    }

    /** Stores the formatted request's headers and body. */
    method SetRequest(h: map<string, string>, b: string)
      modifies this
      ensures Fields() == old(Fields()).(header := Some(h), body := Some(b))
    {
      header, body := Some(h), Some(b);
    }

    /** Stores the response of the request. */
    method SetResponse(resp: Response)
      modifies this
      ensures Fields() == old(Fields()).(response := Some(resp))
    {
      response := Some(resp);
    }

    /** `payload.dup`: a new hash with the same entries. */
    method Dup() returns (copy: Payload)
      ensures fresh(copy) && copy.Fields() == Fields()
    {
      copy := new Payload(Fields());
    }
  }

  class Rest {
    var config: Config
    const env: Collaborators
    /** `@token_hash`: `None` stands for nil or false. */
    var tokenHash: Option<Value>
    /** `@token_request_at` */
    var tokenRequestAt: Option<int>
    /** `@token_uri` */
    var tokenUri: Option<Uri>
    /** Calls made so far of `http_call`, and their requests. */
    var httpCalls: nat
    ghost var httpLog: seq<HttpRequest>
    /** Calls made so far of the base class's `api_call`. */
    ghost var baseCalls: nat

    /** The token cache as a value. */
    ghost function Snapshot(): Cache
      reads this
    {
      Cache(tokenHash, tokenRequestAt, tokenUri, httpLog)
    }

    ghost predicate Valid()
      reads this
    {
      CacheValid(config, env.parseUri, Snapshot()) && httpCalls == |httpLog|
    }

    constructor (c: Config, collaborators: Collaborators)
      ensures Valid() && config == c && env == collaborators
      ensures Snapshot() == Cache(None, None, None, []) && baseCalls == 0
    {
      config, env := c, collaborators;
      tokenHash, tokenRequestAt, tokenUri := None, None, None;
      httpCalls, httpLog, baseCalls := 0, [], 0;
    }

    /** `set_config`: a new configuration, with the memoized token URI and
        the cached token cleared. */
    method SetConfig(c: Config)
      requires Valid()
      modifies this`config, this`tokenUri, this`tokenHash
      ensures Valid() && config == c && tokenUri.None? && tokenHash.None?
    {
      tokenUri := None;
      tokenHash := None;
      config := c;
    }

    /** `token_uri`: memoized, and always what the configuration resolves
        to. */
    method TokenUri() returns (r: Outcome<Uri>)
      requires Valid()
      modifies this`tokenUri
      ensures Valid()
      ensures Step(r, Snapshot()) == TokenUriStep(config, env.parseUri, old(Snapshot()))
      ensures r == ResolveTokenUri(config, env.parseUri)
    {
      if tokenUri.Some? {
        return Returned(tokenUri.value);
      }
      r := ResolveTokenUri(config, env.parseUri);
      if r.Returned? {
        tokenUri := Some(r.value);
      }
    }

    /** `validate_token_hash` at instant `now`. */
    method ValidateTokenHash(now: int) returns (r: Outcome<()>)
      requires Valid()
      modifies this`tokenHash
      ensures Valid()
      ensures var e := Expired(old(tokenHash), tokenRequestAt, now);
        (r.Raised? <==> e.Raised?) && (e.Raised? ==> r.error == e.error) &&
        tokenHash == (if e == Returned(true) then None else old(tokenHash))
    {
      var e := Expired(tokenHash, tokenRequestAt, now);
      if e.Raised? {
        return Raised(e.error);
      }
      if e.value {
        tokenHash := None;
      }
      r := Returned(());
    }

    /** `http_call`: the transport's response, checked by `handle_response`. */
    method HttpCall(request: HttpRequest) returns (r: Outcome<Response>)
      requires Valid()
      modifies this`httpCalls, this`httpLog
      ensures Valid()
      ensures r == HandleResponse(env.httpCall(old(httpCalls), request))
      ensures httpLog == old(httpLog) + [request]
    {
      r := HandleResponse(env.httpCall(httpCalls, request));
      httpCalls := httpCalls + 1;
      httpLog := httpLog + [request];
    }

    /** `token_hash` at instant `now`. */
    method TokenHash(now: int) returns (r: Outcome<Value>)
      requires Valid()
      modifies this`tokenHash, this`tokenRequestAt, this`tokenUri, this`httpCalls, this`httpLog
      ensures Valid()
      ensures Step(r, Snapshot()) == ReadTokenHash(config, env, old(Snapshot()), now)
    {
      var check := ValidateTokenHash(now);
      if check.Raised? {
        return Raised(check.error);
      }
      if tokenHash.Some? {
        return Returned(tokenHash.value);
      }
      tokenRequestAt := Some(now);
      var uri := TokenUri();
      if uri.Raised? {
        return Raised(uri.error);
      }
      var request := TokenRequest(uri.value, config, env.defaultHttpHeader, env.packBase64);
      var response := HttpCall(request);
      r := FetchedToken(response, env.load);
      if r.Returned? && Truthy(r.value) {
        tokenHash := Some(r.value);
      }
    }

    /** `token`: `token_hash[:access_token]`. */
    method Token(now: int) returns (r: Outcome<Value>)
      requires Valid()
      modifies this`tokenHash, this`tokenRequestAt, this`tokenUri, this`httpCalls, this`httpLog
      ensures Valid()
      ensures var read := ReadTokenHash(config, env, old(Snapshot()), now);
        Snapshot() == read.after &&
        r == (if read.result.Raised? then read.result else Index(read.result.value, "access_token"))
    {
      var h := TokenHash(now);
      if h.Raised? {
        return h;
      }
      r := Index(h.value, "access_token");
    }

    /** `token_type`: `token_hash[:token_type] || "Bearer"`. */
    method TokenType(now: int) returns (r: Outcome<Value>)
      requires Valid()
      modifies this`tokenHash, this`tokenRequestAt, this`tokenUri, this`httpCalls, this`httpLog
      ensures Valid()
      ensures var read := ReadTokenHash(config, env, old(Snapshot()), now);
        Snapshot() == read.after &&
        r == (if read.result.Raised? then read.result else TokenTypeOf(read.result.value))
    {
      var h := TokenHash(now);
      if h.Raised? {
        return h;
      }
      r := TokenTypeOf(h.value);
    }

    /** `token=`: caches a Bearer token with no lifetime. */
    method SetToken(token: Value)
      requires Valid()
      modifies this`tokenHash
      ensures Valid() && tokenHash == Some(ExplicitTokenHash(token))
    {
      tokenHash := Some(ExplicitTokenHash(token));
    }

    /** `token_hash=` (`attr_writer`): caches any hash; nil or false
        empties the cache. */
    method SetTokenHash(h: Value)
      requires Valid()
      modifies this`tokenHash
      ensures Valid() && tokenHash == (if Truthy(h) then Some(h) else None)
    {
      tokenHash := if Truthy(h) then Some(h) else None;
    }

    /** `api_call` at instant `now`: the base call on the payload; when it
        raises UnauthorizedAccess while a token is still cached and a client
        id is set, the cache is cleared and the base call is made once more
        on the copy of the payload taken before the first attempt. */
    method ApiCall(payload: Payload, now: int) returns (r: Outcome<Value>)
      requires Valid()
      modifies this`tokenHash, this`tokenRequestAt, this`tokenUri, this`httpCalls, this`httpLog, this`baseCalls, payload
      ensures Valid()
      ensures var run := ApiCallRun(config, env, old(Snapshot()), old(payload.Fields()), now);
        r == run.result && Snapshot() == run.after && payload.Fields() == run.payload &&
        baseCalls == old(baseCalls) + run.attempts
    {
      var backup := payload.Dup();
      r := BaseApiCall(payload, now);
      if r.Raised? && r.error.UnauthorizedAccess? {
        if tokenHash.Some? && config.clientId.Some? {
          tokenHash := None;
          r := BaseApiCall(backup, now);
        }
      }
    }

    /** The base class's `api_call` at instant `now`: its preparation of the
        payload, `format_request`, `http_call`, `format_response`, and the
        stored data as the result. */
    method BaseApiCall(p: Payload, now: int) returns (r: Outcome<Value>)
      requires Valid()
      modifies this`tokenHash, this`tokenRequestAt, this`tokenUri, this`httpCalls, this`httpLog, this`baseCalls, p
      ensures Valid()
      ensures Effect(r, p.Fields(), Snapshot()) == BaseAttempt(config, env, old(Snapshot()), old(p.Fields()), now)
      ensures baseCalls == old(baseCalls) + 1
    {
      baseCalls := baseCalls + 1;
      p.Assign(env.prepare(p.Fields()));
      var formatted := FormatRequest(p, now);
      if formatted.Raised? {
        return Raised(formatted.error);
      }
      var response := HttpCall(ApiRequest(p.Fields()));
      if response.Raised? {
        return Raised(response.error);
      }
      p.SetResponse(response.value);
      var stored := FormatResponse(p);
      if stored.Raised? {
        return Raised(stored.error);
      }
      r := Returned(p.data.value);
    }

    /** `"#{token_type} #{token}"` at instant `now`. */
    method ReadAuthorization(now: int) returns (r: Outcome<string>)
      requires Valid()
      modifies this`tokenHash, this`tokenRequestAt, this`tokenUri, this`httpCalls, this`httpLog
      ensures Valid()
      ensures Step(r, Snapshot()) == AuthorizationStep(config, env, old(Snapshot()), now)
    {
      var tokenType := TokenType(now);
      if tokenType.Raised? {
        return Raised(tokenType.error);
      }
      var token := Token(now);
      if token.Raised? {
        return Raised(token.error);
      }
      r := Returned(Interpolate(tokenType.value, env.inspect) + " " + Interpolate(token.value, env.inspect));
    }

    /** `format_request` at instant `now`. */
    method FormatRequest(payload: Payload, now: int) returns (r: Outcome<()>)
      requires Valid()
      modifies this`tokenHash, this`tokenRequestAt, this`tokenUri, this`httpCalls, this`httpLog, payload
      ensures Valid()
      ensures Effect(r, payload.Fields(), Snapshot()) ==
              FormatRequestStep(config, env, old(Snapshot()), old(payload.Fields()), now)
    {
      if payload.uri.None? {
        return Raised(NoMethodError);
      }
      var uri := JoinedUri(payload.uri.value, payload.action, env.urlJoin);
      payload.uri := Some(uri);
      ghost var joined := payload.Fields();
      var credentialHeader := env.mapHeaderValue(NvpAuthHeader, env.credentialProperties(UriText(uri)));
      var authorization := ReadAuthorization(now);
      assert payload.Fields() == joined;
      var header := FormattedHeader(credentialHeader, authorization, payload.header);
      if header.Raised? {
        return Raised(header.error);
      }
      payload.SetRequest(header.value, env.dump(payload.params));
      r := Returned(());
    }

    /** `format_response`: stores the response's data in the payload. */
    method FormatResponse(payload: Payload) returns (r: Outcome<()>)
      modifies payload
      ensures old(payload.response).None? ==> r == Raised(NoMethodError) && payload.Fields() == old(payload.Fields())
      ensures old(payload.response).Some? ==>
        var d := ResponseData(old(payload.response).value, env.load);
        (d.Raised? ==> r == Raised(d.error) && payload.Fields() == old(payload.Fields())) &&
        (d.Returned? ==> r == Returned(()) && payload.Fields() == old(payload.Fields()).(data := Some(d.value)))
    {
      if payload.response.None? {
        return Raised(NoMethodError);
      }
      var d := ResponseData(payload.response.value, env.load);
      if d.Raised? {
        return Raised(d.error);
      }
      payload.data := Some(d.value);
      r := Returned(());
    }
  }
}
