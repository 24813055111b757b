/** What the REST adapter takes from outside: its configuration, the shape
    of the request payload it passes around, and the collaborators it calls
    but does not define (JSON, URI parsing, the base class's helpers and the
    HTTP transport). Each collaborator is a function value, so the model
    assumes nothing about it beyond its type. */
module Env {
  import opened Ruby

  /** The configuration entries the adapter reads. `baseServiceEndpoint` is
      what the base class's `service_endpoint` yields; `apiMode` is the mode
      name (`sandbox` or `live`). */
  datatype Config = Config(
    restEndpoint: Option<string>,
    restTokenEndpoint: Option<string>,
    baseServiceEndpoint: Option<string>,
    apiMode: string,
    clientId: Option<string>,
    clientSecret: Option<string>)

  /** One call of `http_call`. */
  datatype HttpRequest = HttpRequest(verb: string, uri: Uri, body: string, header: map<string, string>)

  /** The entries of a request payload hash; an absent key is `None`
      (or `Nil` for `params`, which is only ever dumped). `verb` is the
      `:method` entry. */
  datatype PayloadFields = PayloadFields(
    verb: string,
    uri: Option<Uri>,
    action: Option<string>,
    params: Value,
    header: Option<map<string, string>>,
    body: Option<string>,
    response: Option<Response>,
    data: Option<Value>)

  /** The collaborators. The transport is a script indexed by how many
      calls of `http_call` the client has made before. */
  datatype Collaborators = Collaborators(
    // `MultiJson.load`; `None` when it raises a parse error
    load: string -> Option<Value>,
    // `MultiJson.dump`
    dump: Value -> string,
    // `inspect` of an Array or a Hash (used by `to_s`)
    inspect: Value -> string,
    // `URI.parse`; `None` when it raises
    parseUri: string -> Option<Uri>,
    // the base class's `url_join(path, action)`
    urlJoin: (string, Option<string>) -> string,
    // `credential(uri).properties`
    credentialProperties: string -> map<string, string>,
    // the base class's `map_header_value(header_keys, properties)`
    mapHeaderValue: (map<string, string>, map<string, string>) -> map<string, string>,
    // `Array#pack('m')` of a one-string array: Base64 with line breaks
    packBase64: string -> string,
    // the base class's `default_http_header`
    defaultHttpHeader: map<string, string>,
    // the transport of the n-th `http_call`, with the base class's status
    // check: UnauthorizedAccess for 401, BadRequest for 400, and so on
    httpCall: (nat, HttpRequest) -> Outcome<Response>,
    // what the base class's `api_call` does to the payload before it calls
    // `format_request` (default headers, default URI, query string)
    prepare: PayloadFields -> PayloadFields)
}
