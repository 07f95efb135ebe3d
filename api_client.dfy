/** The generic API client of `src/lib/api.ts`: the URL prefix, default and bearer
    headers, how request options are spread over the built request, and how a response
    becomes a value, a text, or an `ApiClientError`. */
module ApiClient {
  import opened Wrappers
  import opened Json
  import Text

  /** Every endpoint is reached through the local proxy. */
  const ApiBase: string := "/api/proxy/v1"

  const ContentType: string := "content-type"
  const Authorization: string := "authorization"
  const JsonMime: string := "application/json"
  const DefaultErrorMessage: string := "An error occurred"
  /** The key `getAuthToken` reads; it is the one the auth provider writes. */
  const AuthTokenKey: string := "auth_token"

  /** A `Headers` object: header names are case-insensitive, so keys are lower-case names. */
  type Headers = map<string, string>

  /** A list endpoint answers either with a bare array or with a paginated envelope. */
  datatype ListResponse<T> =
    | Bare(items: seq<T>)
    | Envelope(count: int, next: Option<string>, previous: Option<string>, results: seq<T>)

  /** `'results' in response ? response.results : response`. */
  function Results<T>(r: ListResponse<T>): seq<T> {
    match r
    case Bare(items) => items
    case Envelope(_, _, _, results) => results
  }

  /** Both response shapes carrying the same records unwrap to the same list. */
  lemma BareAndEnvelopeAgree<T>(items: seq<T>, count: int, next: Option<string>, previous: Option<string>)
    ensures Results(Bare(items)) == Results(Envelope(count, next, previous, items))
  {
  }

  // ---------------------------------------------------------------------------
  // URL and headers
  // ---------------------------------------------------------------------------

  /** `${API_BASE}${endpoint}`. */
  function RequestUrl(endpoint: string): (url: string)
    ensures ApiBase <= url && url[|ApiBase|..] == endpoint
  {
    ApiBase + endpoint
  }

  /** `getAuthToken`: null without a window, otherwise the stored `auth_token`. */
  function GetAuthToken(hasWindow: bool, storage: map<string, string>): (t: Option<string>)
    ensures t.Some? <==> hasWindow && AuthTokenKey in storage
    ensures t.Some? ==> t.value == storage[AuthTokenKey]
  {
    if hasWindow && AuthTokenKey in storage then Some(storage[AuthTokenKey]) else None
  }

  /** A token is sent only when it is a non-empty string. */
  predicate TokenTruthy(token: Option<string>) {
    token.Some? && token.value != ""
  }

  /** The headers `buildHeaders` returns, as a value. */
  function BuiltHeaders(custom: Option<Headers>, token: Option<string>): (h: Headers)
    ensures h.Keys == custom.GetOr(map[]).Keys + {ContentType}
                      + (if TokenTruthy(token) && Authorization !in custom.GetOr(map[]) then {Authorization} else {})
    ensures forall k :: k in custom.GetOr(map[]) ==> h[k] == custom.GetOr(map[])[k]
    ensures ContentType !in custom.GetOr(map[]) ==> h[ContentType] == JsonMime
    ensures Authorization !in custom.GetOr(map[]) ==>
              (Authorization in h <==> TokenTruthy(token))
              && (TokenTruthy(token) ==> h[Authorization] == "Bearer " + token.value)
  {
    var base := custom.GetOr(map[]);
    var withType := if ContentType in base then base else base[ContentType := JsonMime];
    if TokenTruthy(token) && Authorization !in withType then withType[Authorization := "Bearer " + token.value]
    else withType
  }

  /** `buildHeaders`: copy the caller's headers, add a JSON content type when none was
      given, then a bearer header when a token is stored and none was given. */
  method BuildHeaders(custom: Option<Headers>, token: Option<string>) returns (headers: Headers)
    ensures headers == BuiltHeaders(custom, token)
  {
    headers := if custom.Some? then custom.value else map[];
    if ContentType !in headers {
      headers := headers[ContentType := JsonMime];
    }
    if token.Some? && token.value != "" && Authorization !in headers {
      headers := headers[Authorization := "Bearer " + token.value];
    }
  }

  // ---------------------------------------------------------------------------
  // Requests
  // ---------------------------------------------------------------------------

  datatype Method = Get | Post | Put | Patch | Delete {
    function Name(): string {
      match this
      case Get => "GET"
      case Post => "POST"
      case Put => "PUT"
      case Patch => "PATCH"
      case Delete => "DELETE"
    }
  }

  /** A call made through `apiClient`: the verb, the endpoint below the base URL and
      the body handed to `JSON.stringify`. */
  datatype Request = Request(verb: Method, endpoint: string, body: Option<Json>)

  /** The caller's `RequestInit` fields that matter here; others are not modelled. */
  datatype RequestOptions = RequestOptions(httpMethod: Option<string>, headers: Option<Headers>)

  /** What is handed to `fetch`; `body` is the value that `JSON.stringify` serialises. */
  datatype FetchInit = FetchInit(httpMethod: string, headers: Headers, body: Option<Json>)

  /** `{ method, headers: buildHeaders(options?.headers), body, ...options }`: a property the
      caller's options define overrides the built one; `body` is sent only when truthy
      (GET and DELETE pass none). */
  function RequestInit(m: Method, body: Option<Json>, options: Option<RequestOptions>, token: Option<string>): (init: FetchInit)
    ensures init.httpMethod == if options.Some? && options.value.httpMethod.Some? then options.value.httpMethod.value else m.Name()
    ensures options.Some? && options.value.headers.Some? ==> init.headers == options.value.headers.value
    ensures (options.None? || options.value.headers.None?) ==> init.headers == BuiltHeaders(None, token)
    ensures init.body.Some? <==> DefinedTruthy(body)
    ensures init.body.Some? ==> init.body == body
  {
    var custom := if options.Some? then options.value.headers else None;
    var built := FetchInit(m.Name(), BuiltHeaders(custom, token), if DefinedTruthy(body) then body else None);
    match options
    case None => built
    case Some(o) =>
      built.(httpMethod := o.httpMethod.GetOr(built.httpMethod), headers := o.headers.GetOr(built.headers))
  }

  /** Because the caller's `headers` are spread over the built ones, a request made with
      custom headers carries no bearer token unless the caller put one there, and loses
      the default content type unless the caller gave one. */
  lemma CustomHeadersDropDefaults(m: Method, body: Option<Json>, custom: Headers, verb: Option<string>, token: Option<string>)
    requires Authorization !in custom && ContentType !in custom
    ensures var init := RequestInit(m, body, Some(RequestOptions(verb, Some(custom))), token);
            Authorization !in init.headers && ContentType !in init.headers
  {
  }

  /** Without custom headers, a stored non-empty token always reaches the request. */
  lemma BearerSentWithoutCustomHeaders(m: Method, body: Option<Json>, verb: Option<string>, token: Option<string>)
    requires TokenTruthy(token)
    ensures var init := RequestInit(m, body, Some(RequestOptions(verb, None)), token);
            Authorization in init.headers && init.headers[Authorization] == "Bearer " + token.value
            && init.headers[ContentType] == JsonMime
  {
  }

  // ---------------------------------------------------------------------------
  // Responses
  // ---------------------------------------------------------------------------

  /** `ApiClientError`: an `Error` whose message is the string conversion of the value
      passed to the constructor. */
  datatype ApiClientError = ApiClientError(name: string, message: string, status: int, errors: Option<Json>)

  /** The parts of a `Response` that `handleResponse` reads. */
  datatype Response = Response(ok: bool, status: int, contentType: Option<string>, body: string)

  /** What the promise returned by `handleResponse` settles to. */
  datatype Outcome =
    | Parsed(value: Json)
    | Text(text: string)
    | Thrown(error: ApiClientError)
    | BodySyntaxError

  predicate IsJsonContent(contentType: Option<string>) {
    contentType.Some? && Text.Contains(contentType.value, JsonMime)
  }

  /** `json.message || json.error || 'An error occurred'`, converted to a string by the
      error constructor. A body that is not an object has neither property. */
  function ErrorMessage(json: Json): (msg: string)
    ensures json.JObj? && DefinedTruthy(Field(json, "message")) ==> msg == ToJsString(json.fields["message"])
    ensures json.JObj? && !DefinedTruthy(Field(json, "message")) && DefinedTruthy(Field(json, "error"))
            ==> msg == ToJsString(json.fields["error"])
    ensures !DefinedTruthy(Field(json, "message")) && !DefinedTruthy(Field(json, "error"))
            ==> msg == DefaultErrorMessage
  {
    ToJsString(Or(Field(json, "message"), Or(Field(json, "error"), JStr(DefaultErrorMessage))))
  }

  /** A string `message` is reported verbatim when it is non-empty. */
  lemma StringMessageVerbatim(fields: map<string, Json>, m: string)
    requires "message" in fields && fields["message"] == JStr(m) && m != ""
    ensures ErrorMessage(JObj(fields)) == m
  {
  }

  /** `handleResponse`. A non-2xx response always throws; its message comes from a JSON
      body when one parses, and is the default otherwise. A 2xx response yields the parsed
      JSON or, for other content types, the text. `parse` is `JSON.parse` (None when
      it throws). */
  method HandleResponse(response: Response, parse: string -> Option<Json>) returns (outcome: Outcome)
    ensures !response.ok <==> outcome.Thrown?
    ensures !response.ok ==> outcome.error.name == "ApiClientError" && outcome.error.status == response.status
    ensures !response.ok && IsJsonContent(response.contentType) && parse(response.body).Some? ==>
              outcome.error.message == ErrorMessage(parse(response.body).value)
              && outcome.error.errors == Field(parse(response.body).value, "errors")
    ensures !response.ok && (!IsJsonContent(response.contentType) || parse(response.body).None?) ==>
              outcome.error.message == DefaultErrorMessage && outcome.error.errors.None?
    ensures response.ok && IsJsonContent(response.contentType) ==>
              outcome == if parse(response.body).Some? then Parsed(parse(response.body).value) else BodySyntaxError
    ensures response.ok && !IsJsonContent(response.contentType) ==> outcome == Text(response.body)
  {
    var isJson := IsJsonContent(response.contentType);
    if !response.ok {
      var message: Json := JStr(DefaultErrorMessage);
      var errors: Option<Json> := None;
      if isJson {
        var parsed := parse(response.body);
        if parsed.Some? && parsed.value != JNull {
          var json := parsed.value;
          message := Or(Field(json, "message"), Or(Field(json, "error"), JStr(DefaultErrorMessage)));
          errors := Field(json, "errors");
        }
        // A null body makes the property read throw; the catch keeps the default.
      }
      outcome := Thrown(ApiClientError("ApiClientError", ToJsString(message), response.status, errors));
    } else if isJson {
      var parsed := parse(response.body);
      outcome := if parsed.Some? then Parsed(parsed.value) else BodySyntaxError;
    } else {
      outcome := Text(response.body);
    }
  }
}
