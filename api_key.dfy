/**
 * The API-key gate in front of every endpoint. For each request it decides one outcome:
 * hand the request to the next stage, or answer with an error status and envelope.
 * The header value is taken as one string; the configured key is an input.
 */
module ApiKeyGate {
  import opened Wrappers
  import opened Text
  import opened Entities

  const ApiKeyHeaderName := "X-API-Key"
  const MissingKeyMessage := "API Key is missing. Please provide X-API-Key header."
  const ConfigurationErrorMessage := "Server configuration error."
  const InvalidKeyMessage := "Invalid API Key."

  /** Exactly one of: the next stage runs, or an error is written (never both). */
  datatype GateOutcome =
    | Next
    | Reject(status: int, body: ErrorResponse)

  /**
   * `PathString.StartsWithSegments`: the path equals `segment`, or starts with it and
   * continues with '/', comparing without regard to case.
   */
  predicate StartsWithSegments(path: string, segment: string) {
    && StartsWithIgnoreCase(path, segment)
    && (|path| == |segment| || path[|segment|] == '/')
  }

  /** Paths that skip the key check: the Swagger UI, its index page, and the root. */
  predicate IsExemptPath(path: string) {
    || StartsWithSegments(path, "/swagger")
    || StartsWithSegments(path, "/index.html")
    || path == "/"
  }

  function Rejection(status: int, message: string): (o: GateOutcome)
    ensures o.Reject? && o.status == status && o.body == ErrorResponse(message, status, None, None)
  {
    Reject(status, ErrorResponse(message, status, None, None))
  }

  /**
   * The gate's decision for a request to `path` carrying `header` (absent when the
   * request has no X-API-Key header) against the configured key.
   */
  function Authenticate(path: string, header: Option<string>, configuredKey: Option<string>): (r: GateOutcome)
    ensures IsExemptPath(path) ==> r == Next
    ensures !IsExemptPath(path) && header.None? ==> r == Rejection(401, MissingKeyMessage)
    ensures !IsExemptPath(path) && header.Some? && IsNullOrEmpty(configuredKey)
            ==> r == Rejection(500, ConfigurationErrorMessage)
    ensures !IsExemptPath(path) && header.Some? && !IsNullOrEmpty(configuredKey) && header.value != configuredKey.value
            ==> r == Rejection(401, InvalidKeyMessage)
    ensures r.Next? <==>
              IsExemptPath(path) || (header.Some? && !IsNullOrEmpty(configuredKey) && header.value == configuredKey.value)
    ensures r.Reject? ==> r.status in {401, 500} && r.body.statusCode == r.status
  {
    if IsExemptPath(path) then Next
    else if header.None? then Rejection(401, MissingKeyMessage)
    else if IsNullOrEmpty(configuredKey) then Rejection(500, ConfigurationErrorMessage)
    else if header.value != configuredKey.value then Rejection(401, InvalidKeyMessage)
    else Next
  }

  /** Everything under the Swagger segment is exempt, in any letter case. */
  lemma SwaggerTreeIsExempt(prefix: string, rest: string)
    requires EqualsIgnoreCase(prefix, "/swagger")
    ensures IsExemptPath(prefix + "/" + rest)
    ensures IsExemptPath(prefix)
  {
    var path := prefix + "/" + rest;
    assert path[..|prefix|] == prefix;
    assert path[|prefix|] == '/';
    assert prefix[..|prefix|] == prefix;
  }

  /** A path that only begins with the letters of an exempt segment is not exempt. */
  lemma SegmentBoundaryMatters()
    ensures !IsExemptPath("/swaggerish")
    ensures !IsExemptPath("/api/product")
    ensures IsExemptPath("/SWAGGER/v1/swagger.json")
  {
    SwaggerTreeIsExempt("/SWAGGER", "v1/swagger.json");
    assert "/SWAGGER" + "/" + "v1/swagger.json" == "/SWAGGER/v1/swagger.json";
    assert "/swaggerish"[8] == 'i';
    assert "/api/product"[1] == 'a';
  }

  /** Off the exempt paths, only the exact configured key (case matters) lets a request
      through; a missing header is refused even when no key is configured. */
  lemma OnlyTheKeyOpensTheGate(path: string, header: Option<string>, configuredKey: Option<string>)
    requires !IsExemptPath(path)
    ensures Authenticate(path, header, configuredKey).Next? ==> header == configuredKey && header.Some? && header.value != ""
    ensures header.None? ==> Authenticate(path, header, configuredKey).status == 401
  {
  }
}
