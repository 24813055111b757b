/** The token cache rules of the REST adapter: when a cached token hash
    expires (`validate_token_hash`), what `token` and `token_type` read from
    it, the hash `token=` stores, and the client-credentials request that
    `token_hash` sends when the cache is empty. */
module Tokens {
  import opened Ruby
  import opened Env

  const TokenRequestParams := "grant_type=client_credentials"
  const DefaultTokenType := "Bearer"

  /** The lifetime a token hash declares: `expires_in.to_i`, when the hash
      has a truthy `expires_in` whose `to_i` does not raise. */
  function DeclaredExpiry(h: Value): (r: Option<int>)
    ensures r.Some? <==> h.Hash? && "expires_in" in h.entries && Truthy(h.entries["expires_in"]) &&
                         ToI(h.entries["expires_in"]).Returned?
    ensures r.Some? ==> ToI(h.entries["expires_in"]) == Returned(r.value)
    ensures h.Hash? && "expires_in" in h.entries && h.entries["expires_in"].Int? ==>
      r == Some(h.entries["expires_in"].i)
  {
    if h.Hash? && "expires_in" in h.entries && Truthy(h.entries["expires_in"]) then
      match ToI(h.entries["expires_in"])
      case Returned(n) => Some(n)
      case Raised(_) => None
    else None
  }

  /** `validate_token_hash`'s test, with the cached hash, the instant of
      the last token request and the current instant: true when the cache
      must be cleared. Reading `expires_in` from a hash that is not a Hash,
      or calling `to_i` on a value that has none, raises. */
  function Expired(hash: Option<Value>, requestAt: Option<int>, now: int): (r: Outcome<bool>)
    ensures r == Returned(true) <==>
      requestAt.Some? && hash.Some? && Truthy(hash.value) && DeclaredExpiry(hash.value).Some? &&
      now - requestAt.value > DeclaredExpiry(hash.value).value
    ensures r.Raised? ==>
      requestAt.Some? && hash.Some? && Truthy(hash.value) && DeclaredExpiry(hash.value).None?
    ensures r.Raised? ==> r.error == NoMethodError || r.error == TypeError
  {
    if requestAt.None? || hash.None? || !Truthy(hash.value) then Returned(false)
    else match Index(hash.value, "expires_in")
      case Raised(e) => Raised(e)
      case Returned(e) =>
        if !Truthy(e) then Returned(false)
        else match ToI(e)
          case Raised(err) => Raised(err)
          case Returned(n) => Returned(now - requestAt.value > n)
  }

  /** A Hash without a truthy `expires_in` never expires. */
  lemma NoExpiryNeverExpires(h: Value, requestAt: Option<int>, now: int)
    requires h.Hash? && ("expires_in" !in h.entries || !Truthy(h.entries["expires_in"]))
    ensures Expired(Some(h), requestAt, now) == Returned(false)
  {
  }

  /** A token declaring `e` seconds is kept when exactly `e` seconds have
      passed and cleared one second later. */
  lemma ExpiryBoundary(h: Value, requestAt: int, e: int)
    requires Truthy(h) && DeclaredExpiry(h) == Some(e)
    ensures Expired(Some(h), Some(requestAt), requestAt + e) == Returned(false)
    ensures Expired(Some(h), Some(requestAt), requestAt + e + 1) == Returned(true)
  {
  }

  /** Once expired, a token stays expired. */
  lemma ExpiryIsMonotone(h: Option<Value>, requestAt: Option<int>, now: int, later: int)
    requires now <= later
    requires Expired(h, requestAt, now) == Returned(true)
    ensures Expired(h, requestAt, later) == Returned(true)
  {
  }

  /** A token just fetched is cleared at the very instant of its request
      only when it declares a negative lifetime. */
  lemma FreshTokenKept(h: Value, now: int)
    requires Truthy(h) && DeclaredExpiry(h).Some?
    ensures Expired(Some(h), Some(now), now) == Returned(DeclaredExpiry(h).value < 0)
  {
  }

  /** `token_hash[:token_type] || "Bearer"` */
  function TokenTypeOf(h: Value): (r: Outcome<Value>)
    ensures r.Returned? <==> h.Hash?
    ensures r.Returned? ==> Truthy(r.value)
    ensures h.Hash? && "token_type" in h.entries && Truthy(h.entries["token_type"]) ==>
      r == Returned(h.entries["token_type"])
    ensures h.Hash? && ("token_type" !in h.entries || !Truthy(h.entries["token_type"])) ==>
      r == Returned(Str(DefaultTokenType))
  {
    match Index(h, "token_type")
    case Raised(e) => Raised(e)
    case Returned(t) => Returned(if Truthy(t) then t else Str(DefaultTokenType))
  }

  /** The hash `token=` stores: the given object as access token, with
      type "Bearer" and no lifetime. */
  function ExplicitTokenHash(token: Value): (h: Value)
    ensures Truthy(h)
    ensures Index(h, "access_token") == Returned(token)
    ensures TokenTypeOf(h) == Returned(Str(DefaultTokenType))
    ensures DeclaredExpiry(h).None?
  {
    Hash(map["access_token" := token, "token_type" := Str(DefaultTokenType)])
  }

  /** A token set with `token=` is never cleared by validation, whatever the
      instants. */
  lemma ExplicitTokenNeverExpires(token: Value, requestAt: Option<int>, now: int)
    ensures Expired(Some(ExplicitTokenHash(token)), requestAt, now) == Returned(false)
  {
  }

  /** `"#{client_id}:#{client_secret}"` */
  function ClientCredentials(c: Config): string {
    InterpolateOpt(c.clientId) + ":" + InterpolateOpt(c.clientSecret)
  }

  /** The credential of the Basic authorization header:
      `["#{client_id}:#{client_secret}"].pack('m').delete("\r\n")`, the
      packed text with its line breaks taken out. */
  function BasicAuth(c: Config, packBase64: string -> string): (r: string)
    ensures '\r' !in r && '\n' !in r
    ensures var packed := packBase64(ClientCredentials(c));
      forall ch :: ch != '\r' && ch != '\n' ==> multiset(r)[ch] == multiset(packed)[ch]
    ensures var packed := packBase64(ClientCredentials(c));
      '\r' !in packed && '\n' !in packed ==> r == packed
  {
    DeleteCrLf(packBase64(ClientCredentials(c)))
  }

  /** `pack('m')` ends each line of Base64 with a line feed: the
      credential is the lines joined. */
  lemma {:induction false} BasicAuthOfLines(c: Config, packBase64: string -> string, lines: seq<string>)
    requires packBase64(ClientCredentials(c)) == JoinLines(lines)
    requires forall i :: 0 <= i < |lines| ==> '\r' !in lines[i] && '\n' !in lines[i]
    ensures BasicAuth(c, packBase64) == Concat(lines)
  {
    JoinLinesWithoutBreaks(lines);
  }

  /** Each line followed by a line feed. */
  function JoinLines(lines: seq<string>): string {
    if lines == [] then [] else lines[0] + "\n" + JoinLines(lines[1..])
  }

  /** The lines run together. */
  function Concat(lines: seq<string>): string {
    if lines == [] then [] else lines[0] + Concat(lines[1..])
  }

  lemma {:induction false} JoinLinesWithoutBreaks(lines: seq<string>)
    requires forall i :: 0 <= i < |lines| ==> '\r' !in lines[i] && '\n' !in lines[i]
    ensures DeleteCrLf(JoinLines(lines)) == Concat(lines)
  {
    if lines != [] {
      var line, rest := lines[0], JoinLines(lines[1..]);
      assert '\r' !in line && '\n' !in line;
      JoinLinesWithoutBreaks(lines[1..]);
      assert DeleteCrLf(rest) == Concat(lines[1..]);
      DeleteCrLfAppend(line + "\n", rest);
      DeleteCrLfAppend(line, "\n");
      assert DeleteCrLf("\n") == DeleteCrLf([]) == [];
      assert DeleteCrLf(line + "\n") == line;
    }
  }

  /** The `http_call` that fetches a token: a POST of
      `grant_type=client_credentials` to the token URI, with the default
      headers and a Basic authorization built from the client id and
      secret. */
  function TokenRequest(uri: Uri, c: Config, defaultHeader: map<string, string>, packBase64: string -> string)
    : (r: HttpRequest)
    ensures r.verb == "POST" && r.uri == uri && r.body == TokenRequestParams
    ensures r.header.Keys == defaultHeader.Keys + {"Authorization"}
    ensures r.header["Authorization"] == "Basic " + BasicAuth(c, packBase64)
    ensures forall k :: k in defaultHeader && k != "Authorization" ==> r.header[k] == defaultHeader[k]
  {
    HttpRequest("POST", uri, TokenRequestParams,
                defaultHeader + map["Authorization" := "Basic " + BasicAuth(c, packBase64)])
  }

  /** The value `token_hash` obtains from the token response:
      `MultiJson.load(response.body)`, or the exception of the call or of
      the parse. */
  function FetchedToken(response: Outcome<Response>, load: string -> Option<Value>): (r: Outcome<Value>)
    ensures response.Raised? ==> r == Raised(response.error)
    ensures response.Returned? && load(response.value.body).None? ==> r == Raised(ParseError)
    ensures response.Returned? && load(response.value.body).Some? ==>
      r == Returned(load(response.value.body).value)
  {
    match response
    case Raised(e) => Raised(e)
    case Returned(resp) =>
      match load(resp.body)
      case None => Raised(ParseError)
      case Some(v) => Returned(v)
  }
}
