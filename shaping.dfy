/** How the REST adapter shapes a request (`format_request`: the header
    precedence and the Authorization value) and a response
    (`format_response`: three shapes by status code and media type;
    `handle_response`: a bad request is returned, not raised). */
module Shaping {
  import opened Ruby
  import opened Tokens

  /** `NVP_AUTH_HEADER`: credential properties sent as headers. */
  const NvpAuthHeader: map<string, string> :=
    map["sandbox_email_address" := "X-PAYPAL-SANDBOX-EMAIL-ADDRESS",
        "device_ipaddress" := "X-PAYPAL-DEVICE-IPADDRESS"]

  const JsonContentType := "application/json"

  /** `DEFAULT_HTTP_HEADER` */
  const DefaultHttpHeader: map<string, string> := map["Content-Type" := JsonContentType]

  /** `"#{token_type} #{token}"`, where `token_type` reads `typeHash` and
      `token` reads `tokenHash` (two reads of the cache, which are the same
      hash unless it was refetched in between). */
  function Authorization(typeHash: Value, tokenHash: Value, inspect: Value -> string): (r: Outcome<string>)
    ensures r.Returned? <==> typeHash.Hash? && tokenHash.Hash?
    ensures r.Returned? ==>
      (r.value == Interpolate(TokenTypeOf(typeHash).value, inspect) + " " +
                  Interpolate(Index(tokenHash, "access_token").value, inspect))
  {
    match TokenTypeOf(typeHash)
    case Raised(e) => Raised(e)
    case Returned(t) =>
      match Index(tokenHash, "access_token")
      case Raised(e) => Raised(e)
      case Returned(k) => Returned(Interpolate(t, inspect) + " " + Interpolate(k, inspect))
  }

  /** A token set with `token=` is sent as "Bearer " followed by its
      interpolation: the string itself for a String, nothing for nil. */
  lemma ExplicitTokenAuthorization(token: Value, inspect: Value -> string)
    ensures Authorization(ExplicitTokenHash(token), ExplicitTokenHash(token), inspect) ==
            Returned("Bearer " + Interpolate(token, inspect))
    ensures token.Str? ==>
      Authorization(ExplicitTokenHash(token), ExplicitTokenHash(token), inspect) == Returned("Bearer " + token.s)
    ensures token.Nil? ==>
      Authorization(ExplicitTokenHash(token), ExplicitTokenHash(token), inspect) == Returned("Bearer ")
  {
    var h := ExplicitTokenHash(token);
    assert TokenTypeOf(h) == Returned(Str("Bearer"));
    assert Index(h, "access_token") == Returned(token);
    assert "Bearer" + " " + Interpolate(token, inspect) == "Bearer " + Interpolate(token, inspect);
    assert "Bearer " + "" == "Bearer ";
  }

  /** The headers of a formatted request, merged from lowest to highest
      precedence: the credential headers, the Authorization, the JSON
      content type, then the caller's own headers. */
  function RequestHeaders(credential: map<string, string>, authorization: string, caller: map<string, string>)
    : (h: map<string, string>)
    ensures h.Keys == credential.Keys + {"Authorization", "Content-Type"} + caller.Keys
    ensures forall k :: k in caller ==> h[k] == caller[k]
    ensures "Authorization" !in caller ==> h["Authorization"] == authorization
    ensures "Content-Type" !in caller ==> h["Content-Type"] == JsonContentType
    ensures forall k :: k in credential && k !in caller && k != "Authorization" && k != "Content-Type" ==>
      h[k] == credential[k]
  {
    credential + map["Authorization" := authorization] + DefaultHttpHeader + caller
  }

  /** The `payload[:header]` that `format_request` stores: the headers
      above when the Authorization could be read; merging a missing caller
      header raises TypeError. */
  function FormattedHeader(credential: map<string, string>, authorization: Outcome<string>,
                           caller: Option<map<string, string>>): (r: Outcome<map<string, string>>)
    ensures r.Returned? <==> authorization.Returned? && caller.Some?
    ensures authorization.Raised? ==> r == Raised(authorization.error)
    ensures authorization.Returned? && caller.None? ==> r == Raised(TypeError)
    ensures r.Returned? ==> r.value == RequestHeaders(credential, authorization.value, caller.value)
  {
    match authorization
    case Raised(e) => Raised(e)
    case Returned(a) =>
      match caller
      case None => Raised(TypeError)
      case Some(h) => Returned(RequestHeaders(credential, a, h))
  }

  // ---------------------------------------------------------------------
  // Responses

  /** `code >= "200" and code <= "299"`, compared as strings. */
  predicate SuccessCode(code: string) {
    StrLe("200", code) && StrLe(code, "299")
  }

  /** Every string of decimal digits is at least "0...0" of its length. */
  lemma {:induction false} ZerosAtMost(zeros: string, s: string)
    requires |zeros| == |s| && AllDigits(s)
    requires forall i :: 0 <= i < |zeros| ==> zeros[i] == '0'
    ensures StrLe(zeros, s)
  {
    if zeros != [] && zeros[0] == s[0] {
      ZerosAtMost(zeros[1..], s[1..]);
    }
  }

  /** Every string of decimal digits is at most "9...9" of its length. */
  lemma {:induction false} NinesAtLeast(s: string, nines: string)
    requires |nines| == |s| && AllDigits(s)
    requires forall i :: 0 <= i < |nines| ==> nines[i] == '9'
    ensures StrLe(s, nines)
  {
    if s != [] && s[0] == nines[0] {
      NinesAtLeast(s[1..], nines[1..]);
    }
  }

  /** On a three-digit status code the string comparison is the numeric
      range 200..299. */
  lemma SuccessCodeOfThreeDigits(code: string)
    requires |code| == 3 && AllDigits(code)
    ensures SuccessCode(code) <==> 200 <= DigitsValue(code) <= 299
  {
    assert code[..2][..1] == code[..1];
    assert code[..1][..0] == [];
    assert DigitsValue(code[..1]) == code[0] as int - '0' as int;
    assert DigitsValue(code[..2]) == 10 * (code[0] as int - '0' as int) + (code[1] as int - '0' as int);
    assert DigitsValue(code) ==
      100 * (code[0] as int - '0' as int) + 10 * (code[1] as int - '0' as int) + (code[2] as int - '0' as int);
    ZerosAtMost("00", code[1..]);
    NinesAtLeast(code[1..], "99");
    assert StrLe("200", code) <==> code[0] >= '2';
    assert StrLe(code, "299") <==> code[0] <= '2';
  }

  /** The response object, as the error data carries it: its code, reason
      phrase, media type and body. */
  function ResponseValue(resp: Response): Value {
    Hash(map["code" := Str(resp.code),
             "message" := Str(resp.message),
             "content_type" := if resp.contentType.Some? then Str(resp.contentType.value) else Nil,
             "body" := Str(resp.body)])
  }

  /** The error summary of a non-JSON failure. */
  function ErrorSummary(resp: Response): Value {
    Hash(map["name" := Str(resp.code), "message" := Str(resp.message), "developer_msg" := ResponseValue(resp)])
  }

  /** The `data` that `format_response` stores for a response: the parsed
      body of a success, `{"error" => parsed body}` for a JSON failure,
      and `{"error" => summary}` otherwise. Only parsing can raise. */
  function ResponseData(resp: Response, load: string -> Option<Value>): (r: Outcome<Value>)
    ensures r.Raised? <==> (SuccessCode(resp.code) || resp.contentType == Some(JsonContentType)) &&
                           load(resp.body).None?
    ensures r.Raised? ==> r.error == ParseError
    ensures SuccessCode(resp.code) && r.Returned? ==> r.value == load(resp.body).value
    ensures !SuccessCode(resp.code) && r.Returned? ==> r.value.Hash? && r.value.entries.Keys == {"error"}
    ensures !SuccessCode(resp.code) && resp.contentType == Some(JsonContentType) && r.Returned? ==>
      r.value.entries["error"] == load(resp.body).value
    ensures !SuccessCode(resp.code) && resp.contentType != Some(JsonContentType) ==>
      r == Returned(Hash(map["error" := ErrorSummary(resp)]))
  {
    if SuccessCode(resp.code) then
      match load(resp.body)
      case None => Raised(ParseError)
      case Some(v) => Returned(v)
    else if resp.contentType == Some(JsonContentType) then
      match load(resp.body)
      case None => Raised(ParseError)
      case Some(v) => Returned(Hash(map["error" := v]))
    else
      Returned(Hash(map["error" := ErrorSummary(resp)]))
  }

  /** `handle_response`: the base class's outcome, except that a BadRequest
      is turned into its response. */
  function HandleResponse(base: Outcome<Response>): (r: Outcome<Response>)
    ensures r.Raised? ==> !r.error.BadRequest?
    ensures r.Raised? <==> base.Raised? && !base.error.BadRequest?
    ensures r.Raised? ==> r == base
    ensures base.Returned? ==> r == base
    ensures base.Raised? && base.error.BadRequest? ==> r == Returned(base.error.response)
  {
    match base
    case Raised(BadRequest(resp)) => Returned(resp)
    case _ => base
  }
}
