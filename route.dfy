/**
 * The proxy endpoint (src/app/api/generate/route.ts): `POST` reads the
 * options from the JSON body, forwards them as a form to the generation
 * endpoint and relays the reply, or answers 500 with a fixed body. It keeps
 * nothing between calls: `Post` has no state to read or modify, and the
 * upstream service is a function of the request it is sent.
 */
module Route {
  import opened Wrappers
  import opened JsText
  import opened Types
  import opened Request

  /** The incoming body: options that parsed as JSON, or something `request.json()` rejects. */
  datatype RequestBody = Json(options: GenerationOptions) | Malformed

  /** The proxy's answer body: the upstream reply as it came, or the fixed error. */
  datatype ProxyBody = Relayed(data: ApiResponse) | ErrorBody(error: string)

  datatype ProxyResponse = ProxyResponse(status: int, body: ProxyBody)

  const ProxyErrorMessage := "Failed to generate image"
  const DefaultStatus := 200
  const ServerErrorStatus := 500

  /**
   * The request the proxy sends for `body`: none when the body does not
   * parse; otherwise the same form as the page builds, carrying the body's
   * own `apiKey` (an absent key is rendered "undefined").
   */
  function Forwarded(body: RequestBody): (sent: Option<Outbound>)
    ensures sent.Some? <==> body.Json?
    ensures sent.Some? ==>
      sent.value.url == Endpoint
      && sent.value.fields == FormFields(body.options)
      && |sent.value.headers| == 3
      && sent.value.headers[2] == ("Authorization", Bearer(TemplateText(body.options.apiKey)))
      && BearerToken(sent.value.headers[2].1) == Some(TemplateText(body.options.apiKey))
  {
    match body
    case Json(o) => Some(OutboundFor(o, TemplateText(o.apiKey)))
    case Malformed => None
  }

  /**
   * `POST`: a reply from upstream is passed on unchanged with the default
   * status; a body that does not parse, or any error from upstream whatever
   * its status, gives 500 with `{error: "Failed to generate image"}`.
   */
  method Post(body: RequestBody, upstream: Outbound -> Outcome) returns (response: ProxyResponse, sent: Option<Outbound>)
    ensures sent == Forwarded(body)
    ensures response.status == DefaultStatus <==> sent.Some? && upstream(sent.value).Reply?
    ensures response.status == DefaultStatus ==> response.body == Relayed(upstream(sent.value).data)
    ensures response.status != DefaultStatus ==>
      response == ProxyResponse(ServerErrorStatus, ErrorBody(ProxyErrorMessage))
  {
    var failure := ProxyResponse(ServerErrorStatus, ErrorBody(ProxyErrorMessage));
    if body.Malformed? {
      return failure, None;
    }
    var options := body.options;
    var fd := BuildFormData(options);
    var request := Outbound(Endpoint, fd, Headers(Bearer(TemplateText(options.apiKey))));
    sent := Some(request);
    var outcome := upstream(request);
    match outcome {
      case Reply(data) =>
        response := ProxyResponse(DefaultStatus, Relayed(data));
      case Raised(_) =>
        response := failure;
    }
  }

  /**
   * For the same options and key, the proxy sends exactly the request the
   * page sends.
   */
  lemma ProxyMatchesPage(o: GenerationOptions, key: string)
    requires o.apiKey == Some(key)
    ensures Forwarded(Json(o)) == Some(OutboundFor(o, key))
  {
  }
}
