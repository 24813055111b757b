/** The single-retry rule of the REST adapter's `api_call`: the decision is
    taken on the token cache as the first attempt left it, and the retry
    starts from an emptied cache. */
module Retry {
  import opened Ruby
  import opened Env
  import opened Endpoints
  import opened Tokens
  import opened Shaping
  import opened TokenCache
  import opened Attempt

  /** `api_call` repeats the base call only when the first attempt raised
      UnauthorizedAccess while a token is cached and a client id is set. */
  predicate Retries(first: Outcome<Value>, tokenCached: bool, clientId: Option<string>) {
    first.Raised? && first.error.UnauthorizedAccess? && tokenCached && clientId.Some?
  }

  /** One run of `api_call`: its result, how many base calls it made, the
      caller's payload after it, and the token cache after it. */
  datatype Run = Run(result: Outcome<Value>, attempts: nat, payload: PayloadFields, after: Cache)

  /** `api_call` on payload `p` at instant `now`. The caller's payload keeps
      what the first attempt did to it; a retry works on the copy taken
      before. */
  function ApiCallRun(c: Config, env: Collaborators, s: Cache, p: PayloadFields, now: int): (run: Run)
    ensures 1 <= run.attempts <= 2
    ensures var first := BaseAttempt(c, env, s, p, now);
      run.payload == first.payload &&
      (run.attempts == 2 <==> Retries(first.result, first.after.tokenHash.Some?, c.clientId)) &&
      (run.attempts == 1 ==> run.result == first.result && run.after == first.after)
    ensures var first := BaseAttempt(c, env, s, p, now);
      run.attempts == 2 ==>
        var second := BaseAttempt(c, env, first.after.(tokenHash := None), p, now);
        run.result == second.result && run.after == second.after
    ensures CacheValid(c, env.parseUri, s) ==> CacheValid(c, env.parseUri, run.after)
  {
    var first := BaseAttempt(c, env, s, p, now);
    if Retries(first.result, first.after.tokenHash.Some?, c.clientId) then
      var second := BaseAttempt(c, env, first.after.(tokenHash := None), p, now);
      Run(second.result, 2, first.payload, second.after)
    else
      Run(first.result, 1, first.payload, first.after)
  }

  /** When the first attempt raises UnauthorizedAccess and so does every
      attempt that starts from an emptied cache, `api_call` makes at most
      two attempts and raises UnauthorizedAccess. */
  lemma AlwaysUnauthorized(c: Config, env: Collaborators, s: Cache, p: PayloadFields, now: int)
    requires BaseAttempt(c, env, s, p, now).result.Raised? &&
             BaseAttempt(c, env, s, p, now).result.error.UnauthorizedAccess?
    requires forall t: Cache :: t.tokenHash.None? ==>
      BaseAttempt(c, env, t, p, now).result.Raised? && BaseAttempt(c, env, t, p, now).result.error.UnauthorizedAccess?
    ensures var run := ApiCallRun(c, env, s, p, now);
      run.attempts <= 2 && run.result.Raised? && run.result.error.UnauthorizedAccess?
  {
  }

  /** A transport that refuses every request with UnauthorizedAccess, on a
      configuration whose token URI resolves, makes every attempt from a
      cache without a token raise UnauthorizedAccess: the token fetch that
      `format_request` triggers is itself refused. */
  lemma RefusedFetchUnauthorized(c: Config, env: Collaborators, t: Cache, p: PayloadFields, now: int)
    requires forall n: nat, q: HttpRequest :: env.httpCall(n, q).Raised? && env.httpCall(n, q).error.UnauthorizedAccess?
    requires ResolveTokenUri(c, env.parseUri).Returned?
    requires env.prepare(p).uri.Some?
    requires t.tokenHash.None?
    ensures BaseAttempt(c, env, t, p, now).result.Raised? && BaseAttempt(c, env, t, p, now).result.error.UnauthorizedAccess?
  {
    var read := ReadTokenHash(c, env, t, now);
    assert read.result.Raised? && read.result.error.UnauthorizedAccess?;
    FormatRequestFormats(c, env, t, env.prepare(p), now);
  }

  /** Such a transport meets the hypotheses of `AlwaysUnauthorized` from an
      empty cache: `api_call` raises UnauthorizedAccess. */
  lemma RefusingTransportUnauthorized(c: Config, env: Collaborators, s: Cache, p: PayloadFields, now: int)
    requires forall n: nat, q: HttpRequest :: env.httpCall(n, q).Raised? && env.httpCall(n, q).error.UnauthorizedAccess?
    requires ResolveTokenUri(c, env.parseUri).Returned?
    requires env.prepare(p).uri.Some?
    requires s.tokenHash.None?
    ensures var run := ApiCallRun(c, env, s, p, now);
      run.attempts <= 2 && run.result.Raised? && run.result.error.UnauthorizedAccess?
  {
    forall t: Cache | t.tokenHash.None?
      ensures BaseAttempt(c, env, t, p, now).result.Raised? && BaseAttempt(c, env, t, p, now).result.error.UnauthorizedAccess?
    {
      RefusedFetchUnauthorized(c, env, t, p, now);
    }
    AlwaysUnauthorized(c, env, s, p, now);
  }

  /** Without a client id nothing is retried and the cache is left as the
      first attempt left it. */
  lemma NoRetryWithoutClient(c: Config, env: Collaborators, s: Cache, p: PayloadFields, now: int)
    requires c.clientId.None?
    ensures var run := ApiCallRun(c, env, s, p, now);
      var first := BaseAttempt(c, env, s, p, now);
      run.attempts == 1 && run.result == first.result && run.after == first.after
  {
  }

  /** When the first attempt formatted its request (so a token was read,
      fetched or not) and the API answered UnauthorizedAccess, a client with
      an id retries once, from a cache whose token is gone. This holds also
      for a client whose cache was empty before the call. */
  lemma UnauthorizedApiRetries(c: Config, env: Collaborators, s: Cache, p: PayloadFields, now: int)
    requires c.clientId.Some?
    requires var f := FormatRequestStep(c, env, s, env.prepare(p), now);
      f.result.Returned? &&
      HandleResponse(env.httpCall(|f.after.httpLog|, ApiRequest(f.payload))).Raised? &&
      HandleResponse(env.httpCall(|f.after.httpLog|, ApiRequest(f.payload))).error.UnauthorizedAccess?
    ensures var run := ApiCallRun(c, env, s, p, now);
      var first := BaseAttempt(c, env, s, p, now);
      run.attempts == 2 && first.after.tokenHash.Some? &&
      run.result == BaseAttempt(c, env, first.after.(tokenHash := None), p, now).result
  {
  }

  /** A retry that formats its request sends the client-credentials request
      before anything else: the token that drew the UnauthorizedAccess is
      not reused. */
  lemma RetryRefetches(c: Config, env: Collaborators, s: Cache, p: PayloadFields, now: int, u: Uri)
    requires CacheValid(c, env.parseUri, s)
    requires ResolveTokenUri(c, env.parseUri) == Returned(u)
    requires env.prepare(p).uri.Some?
    ensures var first := BaseAttempt(c, env, s, p, now);
      var run := ApiCallRun(c, env, s, p, now);
      Retries(first.result, first.after.tokenHash.Some?, c.clientId) ==>
        first.after.httpLog < run.after.httpLog &&
        run.after.httpLog[|first.after.httpLog|] == TokenRequest(u, c, env.defaultHttpHeader, env.packBase64)
  {
    var first := BaseAttempt(c, env, s, p, now);
    if Retries(first.result, first.after.tokenHash.Some?, c.clientId) {
      var emptied := first.after.(tokenHash := None);
      FetchWhenEmptyOrExpired(c, env, emptied, now, u);
      AuthorizationStartsWithTypeRead(c, env, emptied, now);
      FormatRequestFormats(c, env, emptied, env.prepare(p), now);
      BaseAttemptStartsWithFormat(c, env, emptied, p, now);
    }
  }

  /** With the cache empty, a first token read that raises (the token
      endpoint answering 401, say) leaves the cache empty, so `api_call`
      does not retry and raises what the first attempt raised. */
  lemma FailedFetchNoRetry(c: Config, env: Collaborators, s: Cache, p: PayloadFields, now: int)
    requires s.tokenHash.None?
    requires ReadTokenHash(c, env, s, now).result.Raised?
    ensures var run := ApiCallRun(c, env, s, p, now);
      run.attempts == 1 && run.after.tokenHash.None? && run.result == BaseAttempt(c, env, s, p, now).result
  {
    var f := FormatRequestStep(c, env, s, env.prepare(p), now);
    assert f.after.tokenHash.None? by {
      if env.prepare(p).uri.Some? {
        var first := ReadTokenHash(c, env, s, now);
        assert AuthorizationStep(c, env, s, now).after == first.after;
      }
    }
  }
}
