/** The REST adapter's token cache as a value, and what one read of
    `token_hash` (and the two reads behind an Authorization header) does
    to it. The methods of `Api.Rest` are proved against these functions. */
module TokenCache {
  import opened Ruby
  import opened Env
  import opened Endpoints
  import opened Tokens
  import opened Shaping

  /** `@token_hash` (`None` for nil or false), `@token_request_at`,
      `@token_uri`, and the requests sent so far through `http_call`. */
  datatype Cache = Cache(tokenHash: Option<Value>, requestAt: Option<int>, tokenUri: Option<Uri>,
                         httpLog: seq<HttpRequest>)

  /** What an operation on the cache gives, and the cache after it. */
  datatype Step<+T> = Step(result: Outcome<T>, after: Cache)

  /** A cached hash is truthy, and a memoized token URI is the one the
      configuration resolves to. */
  predicate CacheValid(c: Config, parse: string -> Option<Uri>, s: Cache) {
    (s.tokenHash.Some? ==> Truthy(s.tokenHash.value)) &&
    (s.tokenUri.Some? ==> ResolveTokenUri(c, parse) == Returned(s.tokenUri.value))
  }

  /** `token_uri`: the memoized URI, or the resolved one, memoized when it
      resolves. */
  function TokenUriStep(c: Config, parse: string -> Option<Uri>, s: Cache): (r: Step<Uri>)
    ensures CacheValid(c, parse, s) ==> r.result == ResolveTokenUri(c, parse) && CacheValid(c, parse, r.after)
    ensures r.after.tokenHash == s.tokenHash && r.after.requestAt == s.requestAt && r.after.httpLog == s.httpLog
    ensures r.result.Returned? ==> r.after.tokenUri == Some(r.result.value)
    ensures r.result.Raised? ==> r.after == s
  {
    if s.tokenUri.Some? then Step(Returned(s.tokenUri.value), s)
    else
      var u := ResolveTokenUri(c, parse);
      Step(u, if u.Returned? then s.(tokenUri := Some(u.value)) else s)
  }

  /** `token_hash` at instant `now`: validation first (which may raise or
      clear an expired hash); a hash still cached is returned with nothing
      changed; otherwise the request instant becomes `now`, the token URI is
      resolved, one client-credentials request is sent (its response checked
      by `handle_response`) and its parsed body is returned, and cached when
      truthy. */
  function ReadTokenHash(c: Config, env: Collaborators, s: Cache, now: int): (r: Step<Value>)
    ensures s.httpLog <= r.after.httpLog && |r.after.httpLog| <= |s.httpLog| + 1
    ensures r.result.Returned? && Truthy(r.result.value) ==> r.after.tokenHash == Some(r.result.value)
    ensures r.result.Raised? ==> r.after == s || r.after.tokenHash.None?
    ensures CacheValid(c, env.parseUri, s) ==> CacheValid(c, env.parseUri, r.after)
  {
    var check := Expired(s.tokenHash, s.requestAt, now);
    if check.Raised? then Step(Raised(check.error), s)
    else if !check.value && s.tokenHash.Some? && Truthy(s.tokenHash.value) then
      Step(Returned(s.tokenHash.value), s)
    else
      var uri := TokenUriStep(c, env.parseUri, s.(tokenHash := None, requestAt := Some(now)));
      if uri.result.Raised? then Step(Raised(uri.result.error), uri.after)
      else
        var request := TokenRequest(uri.result.value, c, env.defaultHttpHeader, env.packBase64);
        var fetched := FetchedToken(HandleResponse(env.httpCall(|s.httpLog|, request)), env.load);
        Step(fetched, uri.after.(tokenHash := if fetched.Returned? && Truthy(fetched.value) then Some(fetched.value) else None,
                                 httpLog := s.httpLog + [request]))
  }

  /** A truthy hash that has not expired at `now` is returned as it is,
      with no HTTP call and the cache unchanged. */
  lemma CachedTokenKept(c: Config, env: Collaborators, s: Cache, now: int)
    requires s.tokenHash.Some? && Truthy(s.tokenHash.value)
    requires Expired(s.tokenHash, s.requestAt, now) == Returned(false)
    ensures ReadTokenHash(c, env, s, now) == Step(Returned(s.tokenHash.value), s)
  {
  }

  /** A read that returns a hash without an HTTP call returned the cached
      hash, unexpired at `now`, and changed nothing. */
  lemma NoCallMeansCached(c: Config, env: Collaborators, s: Cache, now: int)
    ensures var r := ReadTokenHash(c, env, s, now);
      r.result.Returned? && |r.after.httpLog| == |s.httpLog| ==>
        s.tokenHash == Some(r.result.value) && r.after == s &&
        Expired(s.tokenHash, s.requestAt, now) == Returned(false)
  {
  }

  /** With the cache empty, or holding a hash that has expired at `now`, a
      read sends exactly the client-credentials request to the resolved
      token URI, records `now` as the request instant, and returns the
      parsed response, cached when truthy and dropped otherwise. */
  lemma FetchWhenEmptyOrExpired(c: Config, env: Collaborators, s: Cache, now: int, u: Uri)
    requires CacheValid(c, env.parseUri, s)
    requires s.tokenHash.None? || Expired(s.tokenHash, s.requestAt, now) == Returned(true)
    requires ResolveTokenUri(c, env.parseUri) == Returned(u)
    ensures var r := ReadTokenHash(c, env, s, now);
      var request := TokenRequest(u, c, env.defaultHttpHeader, env.packBase64);
      r.after.httpLog == s.httpLog + [request] && r.after.requestAt == Some(now) && r.after.tokenUri == Some(u) &&
      r.result == FetchedToken(HandleResponse(env.httpCall(|s.httpLog|, request)), env.load) &&
      r.after.tokenHash == (if r.result.Returned? && Truthy(r.result.value) then Some(r.result.value) else None)
  {
    if s.tokenHash.None? {
      assert Expired(s.tokenHash, s.requestAt, now) == Returned(false);
    }
  }

  /** With the cache empty and no token URI, a read raises the URI error
      and sends nothing. */
  lemma NoTokenUriNoRequest(c: Config, env: Collaborators, s: Cache, now: int)
    requires CacheValid(c, env.parseUri, s) && s.tokenHash.None?
    requires ResolveTokenUri(c, env.parseUri).Raised?
    ensures var r := ReadTokenHash(c, env, s, now);
      r.result == Raised(InvalidUriError) && r.after.httpLog == s.httpLog && r.after.tokenHash.None?
  {
    assert Expired(s.tokenHash, s.requestAt, now) == Returned(false);
  }

  /** After `token = t`, `token` reads `t` and `token_type` reads
      "Bearer", with no HTTP call and the cache unchanged, whatever the
      instants. */
  lemma ExplicitTokenRead(c: Config, env: Collaborators, s: Cache, token: Value, now: int)
    requires s.tokenHash == Some(ExplicitTokenHash(token))
    ensures var r := ReadTokenHash(c, env, s, now);
      r.after == s && r.result.Returned? &&
      Index(r.result.value, "access_token") == Returned(token) &&
      TokenTypeOf(r.result.value) == Returned(Str(DefaultTokenType))
  {
    ExplicitTokenNeverExpires(token, s.requestAt, now);
    CachedTokenKept(c, env, s, now);
  }

  /** `"#{token_type} #{token}"` at instant `now`: `token_type` reads the
      cache, then `token` reads it again. */
  function AuthorizationStep(c: Config, env: Collaborators, s: Cache, now: int): (r: Step<string>)
    ensures s.httpLog <= r.after.httpLog && |r.after.httpLog| <= |s.httpLog| + 2
    ensures CacheValid(c, env.parseUri, s) ==> CacheValid(c, env.parseUri, r.after)
    ensures r.result.Returned? ==>
      var first := ReadTokenHash(c, env, s, now);
      var second := ReadTokenHash(c, env, first.after, now);
      first.result.Returned? && second.result.Returned? && r.after == second.after &&
      r.result == Authorization(first.result.value, second.result.value, env.inspect)
    ensures r.result.Returned? ==> r.after.tokenHash.Some?
  {
    var first := ReadTokenHash(c, env, s, now);
    if first.result.Raised? then Step(Raised(first.result.error), first.after)
    else match TokenTypeOf(first.result.value)
      case Raised(e) => Step(Raised(e), first.after)
      case Returned(t) =>
        var second := ReadTokenHash(c, env, first.after, now);
        if second.result.Raised? then Step(Raised(second.result.error), second.after)
        else match Index(second.result.value, "access_token")
          case Raised(e) => Step(Raised(e), second.after)
          case Returned(k) => Step(Returned(Interpolate(t, env.inspect) + " " + Interpolate(k, env.inspect)), second.after)
  }

  /** The requests of the `token_type` read come first among those sent
      while building an Authorization. */
  lemma AuthorizationStartsWithTypeRead(c: Config, env: Collaborators, s: Cache, now: int)
    ensures ReadTokenHash(c, env, s, now).after.httpLog <= AuthorizationStep(c, env, s, now).after.httpLog
  {
    var first := ReadTokenHash(c, env, s, now);
    if first.result.Returned? && TokenTypeOf(first.result.value).Returned? {
      var second := ReadTokenHash(c, env, first.after, now);
      assert first.after.httpLog <= second.after.httpLog;
    }
  }

  /** Both reads behind an Authorization header see the same hash unless
      each of them fetched a token. */
  lemma OneFetchOneHash(c: Config, env: Collaborators, s: Cache, now: int)
    ensures var first := ReadTokenHash(c, env, s, now);
      var second := ReadTokenHash(c, env, first.after, now);
      first.result.Returned? && second.result.Returned? && |second.after.httpLog| < |s.httpLog| + 2 ==>
        second.result == first.result
  {
  }

  /** A header built from at most one fetch carries one hash's type and
      access token. */
  lemma AuthorizationOfOneHash(c: Config, env: Collaborators, s: Cache, now: int)
    ensures var r := AuthorizationStep(c, env, s, now);
      var h := ReadTokenHash(c, env, s, now).result;
      r.result.Returned? && |r.after.httpLog| < |s.httpLog| + 2 ==>
        h.Returned? && r.result == Authorization(h.value, h.value, env.inspect)
  {
    OneFetchOneHash(c, env, s, now);
  }

  /** After `token = t`, the Authorization header is "Bearer " followed by
      the interpolated `t`, with no HTTP call and the cache unchanged,
      whatever the instants. */
  lemma ExplicitTokenHeader(c: Config, env: Collaborators, s: Cache, token: Value, now: int)
    requires s.tokenHash == Some(ExplicitTokenHash(token))
    ensures AuthorizationStep(c, env, s, now) == Step(Returned("Bearer " + Interpolate(token, env.inspect)), s)
  {
    ExplicitTokenNeverExpires(token, s.requestAt, now);
    CachedTokenKept(c, env, s, now);
    ExplicitTokenAuthorization(token, env.inspect);
  }
}
