/**
 * The HTTP handler of src/app/api/generate/route.ts: `POST` validates the
 * body, calls `generateArtwork` and maps its envelope to a status; `GET`
 * describes the endpoint.
 */
module Route {
  import opened Wrappers
  import opened Text
  import opened Types
  import Api

  const MaxPromptLength := 500

  /**
   * The request body as `POST` sees it: either reading it threw (a body that
   * is not JSON, a `null` body, a prompt whose `trim` is not a function), or
   * its fields.
   */
  datatype Inbound =
    | Unreadable(thrown: Thrown)
    | Received(prompt: Option<string>, style: Option<string>, aspectRatio: Option<AspectRatio>, quality: Option<Quality>)

  datatype ResponseBody =
    | Envelope(response: GenerationResponse)
    | Rejection(error: string)
    | InternalError(error: string, details: string)

  datatype HttpReply = HttpReply(status: nat, body: ResponseBody)

  const PromptRequiredMessage := "Prompt is required"
  const PromptTooLongMessage := "Prompt is too long (max 500 characters)"

  /** The guards before generation: the request to generate, or the reply that ends the call. */
  function Validate(inbound: Inbound): (r: Result<GenerationRequest, HttpReply>)
    ensures r.Err? ==> r.error.status in {400, 500}
    ensures r.Ok? ==> inbound.Received? && inbound.prompt.Some? && !AllSpace(inbound.prompt.value)
                      && |inbound.prompt.value| <= MaxPromptLength
  {
    match inbound
    case Unreadable(thrown) =>
      Err(HttpReply(500, InternalError("Internal server error",
        if thrown.ErrorObject? then thrown.message else "Unknown error")))
    case Received(prompt, style, aspectRatio, quality) =>
      if prompt.None? || prompt.value == "" || |Trim(prompt.value)| == 0 then
        Err(HttpReply(400, Rejection(PromptRequiredMessage)))
      else if |prompt.value| > 500 then
        Err(HttpReply(400, Rejection(PromptTooLongMessage)))
      else
        Ok(GenerationRequest(prompt.value, style, aspectRatio, quality))
  }

  /** The status a generation envelope is returned with. */
  function Respond(result: GenerationResponse): (r: HttpReply)
    ensures r.body == Envelope(result)
    ensures r.status == 200 <==> result.success
    ensures r.status == if result.success then 200 else 500
  {
    if !result.success then HttpReply(500, Envelope(result)) else HttpReply(200, Envelope(result))
  }

  /** `POST`: validation, then generation through the given provider. */
  function Post(inbound: Inbound, provider: Api.ProviderRequest -> Api.ProviderReply, clock: Api.Clock): (r: HttpReply)
    ensures r.status in {200, 400, 500}
    ensures r.status == 200 <==> r.body.Envelope? && r.body.response.success
  {
    match Validate(inbound)
    case Err(reply) => reply
    case Ok(request) => Respond(Api.GenerateArtwork(request, provider, clock))
  }

  /** A missing prompt, or one that is blank after trimming, is refused as required, whatever its length. */
  lemma MissingPromptRequired(inbound: Inbound, provider: Api.ProviderRequest -> Api.ProviderReply, clock: Api.Clock)
    requires inbound.Received? && (inbound.prompt.None? || AllSpace(inbound.prompt.value))
    ensures Post(inbound, provider, clock) == HttpReply(400, Rejection("Prompt is required"))
  {
  }

  /** A non-blank prompt over 500 characters, counted before trimming, is refused as too long. */
  lemma LongPromptRejected(inbound: Inbound, provider: Api.ProviderRequest -> Api.ProviderReply, clock: Api.Clock)
    requires inbound.Received? && inbound.prompt.Some? && !AllSpace(inbound.prompt.value)
    requires |inbound.prompt.value| > 500
    ensures Post(inbound, provider, clock) == HttpReply(400, Rejection("Prompt is too long (max 500 characters)"))
  {
  }

  /** A non-blank prompt within the limit is accepted, with every field of the body passed on as it came. */
  lemma ValidPromptAccepted(prompt: string, style: Option<string>, aspectRatio: Option<AspectRatio>, quality: Option<Quality>)
    requires !AllSpace(prompt) && |prompt| <= MaxPromptLength
    ensures Validate(Received(Some(prompt), style, aspectRatio, quality)) == Ok(GenerationRequest(prompt, style, aspectRatio, quality))
  {
  }

  /** A refused request never reaches generation: the reply is the same whatever the provider would do. */
  lemma RefusalIgnoresProvider(inbound: Inbound, p1: Api.ProviderRequest -> Api.ProviderReply, p2: Api.ProviderRequest -> Api.ProviderReply, c1: Api.Clock, c2: Api.Clock)
    requires Validate(inbound).Err?
    ensures Post(inbound, p1, c1) == Post(inbound, p2, c2)
    ensures Post(inbound, p1, c1).status != 200
  {
  }

  /** An accepted body goes to generation unchanged (the prompt is not trimmed), and its envelope comes back verbatim. */
  lemma AcceptedBodyForwarded(prompt: string, style: Option<string>, aspectRatio: Option<AspectRatio>, quality: Option<Quality>,
                              provider: Api.ProviderRequest -> Api.ProviderReply, clock: Api.Clock)
    requires !AllSpace(prompt) && |prompt| <= 500
    ensures var result := Api.GenerateArtwork(GenerationRequest(prompt, style, aspectRatio, quality), provider, clock);
      Post(Received(Some(prompt), style, aspectRatio, quality), provider, clock)
        == HttpReply(if result.success then 200 else 500, Envelope(result))
  {
    ValidPromptAccepted(prompt, style, aspectRatio, quality);
  }

  /** Any exception while reading the body gives 500 with the fixed error and the thrown message as details. */
  lemma UnreadableIsInternalError(thrown: Thrown, provider: Api.ProviderRequest -> Api.ProviderReply, clock: Api.Clock)
    ensures Post(Unreadable(thrown), provider, clock).status == 500
    ensures Post(Unreadable(thrown), provider, clock).body
      == InternalError("Internal server error", if thrown.ErrorObject? then thrown.message else "Unknown error")
  {
  }

  datatype ApiDescriptor = ApiDescriptor(
    message: string,
    endpoint: string,
    httpMethod: string,
    requiredFields: seq<string>,
    optionalFields: seq<string>,
    maxPromptLength: nat)

  /**
   * `GET`: the endpoint's self-description. It advertises the limit `POST`
   * enforces, and its required and optional fields are together the four
   * fields of a generation request, `prompt` being the only required one.
   */
  function Get(): (d: ApiDescriptor)
    ensures d.maxPromptLength == MaxPromptLength
    ensures d.httpMethod == "POST"
    ensures d.requiredFields == ["prompt"]
    ensures d.requiredFields + d.optionalFields == ["prompt", "style", "aspectRatio", "quality"]
  {
    ApiDescriptor("AI Art Generation API", "/api/generate", "POST", ["prompt"], ["style", "aspectRatio", "quality"], 500)
  }

  /** The advertised limit is the enforced one: a non-blank prompt is accepted exactly up to that length. */
  lemma AdvertisedLimitEnforced(prompt: string)
    requires !AllSpace(prompt)
    ensures Validate(Received(Some(prompt), None, None, None)).Ok? <==> |prompt| <= Get().maxPromptLength
  {
  }
}
