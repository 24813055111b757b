/** Where the REST adapter sends API calls and token requests:
    `service_endpoint`, `token_endpoint` and the path rule of `token_uri`. */
module Endpoints {
  import opened Ruby
  import opened Env

  const DefaultRestEndPoints: map<string, string> :=
    map["sandbox" := "https://api.sandbox.paypal.com", "live" := "https://api.paypal.com"]

  const OAuthTokenPath := "/v1/oauth2/token"

  /** `DEFAULT_REST_END_POINTS[api_mode]` */
  function DefaultEndpoint(mode: string): (r: Option<string>)
    ensures r.Some? <==> mode == "sandbox" || mode == "live"
    ensures mode == "sandbox" ==> r == Some("https://api.sandbox.paypal.com")
    ensures mode == "live" ==> r == Some("https://api.paypal.com")
  {
    if mode in DefaultRestEndPoints then Some(DefaultRestEndPoints[mode]) else None
  }

  /** `a || b || ...` over optional strings: the first source that is
      present, or none. */
  function FirstPresent(sources: seq<Option<string>>): (r: Option<string>)
    ensures r.None? <==> forall i :: 0 <= i < |sources| ==> sources[i].None?
    ensures forall i :: 0 <= i < |sources| && sources[i].Some? && (forall j :: 0 <= j < i ==> sources[j].None?) ==>
      r == sources[i]
  {
    if sources == [] then None
    else if sources[0].Some? then sources[0]
    else FirstPresent(sources[1..])
  }

  /** `service_endpoint`: the configured REST endpoint, else the base
      class's endpoint, else the default for the API mode. */
  function ServiceEndpoint(c: Config): (r: Option<string>)
    ensures r == FirstPresent([c.restEndpoint, c.baseServiceEndpoint, DefaultEndpoint(c.apiMode)])
  {
    if c.restEndpoint.Some? then c.restEndpoint
    else if c.baseServiceEndpoint.Some? then c.baseServiceEndpoint
    else
      var sources := [c.restEndpoint, c.baseServiceEndpoint, DefaultEndpoint(c.apiMode)];
      assert sources[1..][1..] == [DefaultEndpoint(c.apiMode)];
      assert FirstPresent(sources) == FirstPresent(sources[1..]) == FirstPresent(sources[1..][1..]);
      DefaultEndpoint(c.apiMode)
  }

  /** `token_endpoint`: the configured token endpoint, else the service
      endpoint. */
  function TokenEndpoint(c: Config): (r: Option<string>)
    ensures c.restTokenEndpoint.Some? ==> r == c.restTokenEndpoint
    ensures c.restTokenEndpoint.None? ==> r == ServiceEndpoint(c)
  {
    if c.restTokenEndpoint.Some? then c.restTokenEndpoint else ServiceEndpoint(c)
  }

  /** The token endpoint is the first of four sources that is set, in this
      order; with nothing configured it is the mode's default. */
  lemma TokenEndpointOrder(c: Config)
    ensures TokenEndpoint(c) ==
      FirstPresent([c.restTokenEndpoint, c.restEndpoint, c.baseServiceEndpoint, DefaultEndpoint(c.apiMode)])
    ensures c.restTokenEndpoint.None? && c.restEndpoint.None? && c.baseServiceEndpoint.None? ==>
      TokenEndpoint(c) == DefaultEndpoint(c.apiMode)
  {
    var s := [c.restTokenEndpoint, c.restEndpoint, c.baseServiceEndpoint, DefaultEndpoint(c.apiMode)];
    assert s[1..] == [c.restEndpoint, c.baseServiceEndpoint, DefaultEndpoint(c.apiMode)];
  }

  // ---------------------------------------------------------------------
  // The path test of `token_uri`: `path =~ /^\/?$/`. In a Ruby regular
  // expression `^` matches at the start of the string and after a line
  // feed that is not the last character, `$` at the end and before any
  // line feed.

  predicate LineStart(p: string, i: int) {
    i == 0 || (0 < i < |p| && p[i - 1] == '\n')
  }

  predicate LineEnd(p: string, j: int) {
    j == |p| || (0 <= j < |p| && p[j] == '\n')
  }

  /** The pattern matches at position `i`: a line that is empty or "/". */
  predicate RootLineAt(p: string, i: int) {
    0 <= i <= |p| && LineStart(p, i) &&
    (LineEnd(p, i) || (i < |p| && p[i] == '/' && LineEnd(p, i + 1)))
  }

  /** `p =~ /^\/?$/` */
  predicate RootPathMatch(p: string) {
    exists i :: 0 <= i <= |p| && RootLineAt(p, i)
  }

  /** A path without line breaks (every URI path) matches exactly when it
      is empty or "/". */
  lemma RootPathMatchWithoutLineBreak(p: string)
    requires '\n' !in p
    ensures RootPathMatch(p) <==> p == "" || p == "/"
  {
    if p == "" || p == "/" {
      assert RootLineAt(p, 0);
    }
    if RootPathMatch(p) {
      var i :| 0 <= i <= |p| && RootLineAt(p, i);
      assert i == 0;
    }
  }

  /** The path rule of `token_uri`: the OAuth token path replaces an empty
      or root path; any other path is kept. */
  function WithOAuthPath(u: Uri): (r: Uri)
    ensures r.origin == u.origin && r.query == u.query
    ensures RootPathMatch(u.path) ==> r.path == OAuthTokenPath
    ensures !RootPathMatch(u.path) ==> r == u
  {
    if RootPathMatch(u.path) then u.(path := OAuthTokenPath) else u
  }

  /** What `token_uri` computes when nothing is memoized:
      `URI.parse(token_endpoint)` with the path rule applied. Parsing nil
      or a malformed endpoint raises. */
  function ResolveTokenUri(c: Config, parse: string -> Option<Uri>): (r: Outcome<Uri>)
    ensures r.Raised? <==> TokenEndpoint(c).None? || parse(TokenEndpoint(c).value).None?
    ensures r.Raised? ==> r.error == InvalidUriError
    ensures r.Returned? ==> r.value == WithOAuthPath(parse(TokenEndpoint(c).value).value)
  {
    var endpoint := TokenEndpoint(c);
    if endpoint.None? then Raised(InvalidUriError)
    else match parse(endpoint.value)
      case None => Raised(InvalidUriError)
      case Some(u) => Returned(WithOAuthPath(u))
  }

  /** A token endpoint that carries its own path is used verbatim; one with
      an empty or root path gets the OAuth token path. */
  lemma TokenUriPath(c: Config, parse: string -> Option<Uri>, u: Uri)
    requires TokenEndpoint(c).Some? && parse(TokenEndpoint(c).value) == Some(u)
    requires '\n' !in u.path
    ensures u.path != "" && u.path != "/" ==> ResolveTokenUri(c, parse) == Returned(u)
    ensures u.path == "" || u.path == "/" ==>
      ResolveTokenUri(c, parse) == Returned(u.(path := OAuthTokenPath))
  {
    RootPathMatchWithoutLineBreak(u.path);
  }
}
