/**
 * The generation pipeline of src/lib/api.ts: the prompt enhancer, the reply
 * extractor and the envelope `generateArtwork` returns. The HTTP call is a
 * parameter: a provider maps the outbound request to what the transport
 * reports, and the clock readings are injected.
 */
module Api {
  import opened Wrappers
  import opened Text
  import opened JsonValue
  import opened Types
  import opened UrlScan

  const AiEndpoint := "https://oi-server.onrender.com/chat/completions"
  const ImageGenerationModel := "replicate/black-forest-labs/flux-1.1-pro"

  const QualitySuffix := ", high quality, detailed, professional artwork, 4K resolution"

  /** The style-clause table of `createEnhancedPrompt`, its six own keys. */
  const StylePrompts: map<string, string> := map[
    "abstract" := "abstract art style, geometric shapes, vibrant colors, modern composition",
    "photorealistic" := "photorealistic, high detail, professional photography, sharp focus",
    "fantasy" := "fantasy art, magical atmosphere, ethereal lighting, mystical elements",
    "digital" := "digital art, clean lines, modern aesthetic, contemporary style",
    "painting" := "oil painting style, textured brushstrokes, artistic composition",
    "sketch" := "pencil sketch style, detailed line work, artistic drawing"
  ]

  /** The preset catalogue `ART_STYLES`. */
  const ArtStyles: seq<ArtStyle> := [
    ArtStyle("abstract", "Abstract", "Geometric shapes and vibrant colors",
      "https://placehold.co/300x300?text=Abstract+geometric+art+with+vibrant+colors+and+modern+composition", Abstract),
    ArtStyle("photorealistic", "Photorealistic", "Detailed, lifelike imagery",
      "https://placehold.co/300x300?text=Photorealistic+portrait+with+professional+lighting+and+sharp+detail", Photorealistic),
    ArtStyle("fantasy", "Fantasy", "Magical and mystical themes",
      "https://placehold.co/300x300?text=Fantasy+landscape+with+magical+creatures+and+ethereal+lighting", Fantasy),
    ArtStyle("digital", "Digital Art", "Modern digital aesthetics",
      "https://placehold.co/300x300?text=Modern+digital+art+with+clean+lines+and+contemporary+style", Digital),
    ArtStyle("painting", "Oil Painting", "Traditional painting techniques",
      "https://placehold.co/300x300?text=Oil+painting+with+textured+brushstrokes+and+classical+composition", Painting),
    ArtStyle("sketch", "Sketch", "Hand-drawn artistic style",
      "https://placehold.co/300x300?text=Detailed+pencil+sketch+with+artistic+line+work+and+shading", Sketch)
  ]

  // ---------------------------------------------------------------- prompt enhancer

  /** `style && stylePrompts[style]`: the clause a style selects, if it selects one. */
  function StyleClause(style: Option<string>): (c: Option<string>)
    ensures c.Some? <==> style.Some? && style.value in StylePrompts
    ensures c.Some? ==> c.value == StylePrompts[style.value] && c.value != ""
  {
    if style.Some? && style.value != "" && style.value in StylePrompts && StylePrompts[style.value] != ""
    then Some(StylePrompts[style.value])
    else None
  }

  /**
   * `createEnhancedPrompt`: the base prompt, the style clause if any, then the
   * quality suffix. The result always starts with the base prompt and ends
   * with the suffix, and it is longer than those two only when a clause was selected.
   */
  function CreateEnhancedPrompt(basePrompt: string, style: Option<string>): (r: string)
    ensures |r| >= |basePrompt| + |QualitySuffix|
    ensures r[..|basePrompt|] == basePrompt
    ensures r[|r| - |QualitySuffix|..] == QualitySuffix
    ensures |r| == |basePrompt| + |QualitySuffix| <==> StyleClause(style).None?
  {
    var enhanced := basePrompt;
    var enhanced := if StyleClause(style).Some? then enhanced + ", " + StyleClause(style).value else enhanced;
    assert enhanced[..|basePrompt|] == basePrompt;
    var r := enhanced + QualitySuffix;
    assert r[..|basePrompt|] == enhanced[..|basePrompt|];
    r
  }

  /** A known style key gives exactly base, comma, clause, suffix. */
  lemma KnownStyleAddsClause(basePrompt: string, key: string)
    requires key in StylePrompts
    ensures CreateEnhancedPrompt(basePrompt, Some(key)) == basePrompt + ", " + StylePrompts[key] + QualitySuffix
  {
  }

  /** An absent, empty or unknown style gives exactly base then suffix. */
  lemma UnknownStyleAddsNothing(basePrompt: string, style: Option<string>)
    requires style.None? || style.value !in StylePrompts
    ensures CreateEnhancedPrompt(basePrompt, style) == basePrompt + QualitySuffix
  {
  }

  /**
   * The enhanced prompt determines both the base prompt and the clause: two
   * calls agree only when they were given the same base and selected the same clause.
   */
  lemma {:induction false} EnhancedPromptInjective(b1: string, s1: Option<string>, b2: string, s2: Option<string>)
    requires CreateEnhancedPrompt(b1, s1) == CreateEnhancedPrompt(b2, s2)
    requires |b1| == |b2|
    ensures b1 == b2 && StyleClause(s1) == StyleClause(s2)
  {
    EnhancedPromptParts(b1, s1);
    EnhancedPromptParts(b2, s2);
    ConcatCancel(b1, ClauseText(StyleClause(s1)), b2, ClauseText(StyleClause(s2)), QualitySuffix);
    var c1, c2 := StyleClause(s1), StyleClause(s2);
    if c1.Some? && c2.Some? {
      assert c1.value == ClauseText(c1)[2..];
    }
  }

  /** The enhanced prompt is the base, the clause text and the suffix. */
  lemma EnhancedPromptParts(b: string, s: Option<string>)
    ensures CreateEnhancedPrompt(b, s) == b + ClauseText(StyleClause(s)) + QualitySuffix
  {
    var c := StyleClause(s);
    if c.Some? {
      assert b + ", " + c.value == b + (", " + c.value);
    } else {
      assert b + ClauseText(c) == b;
    }
  }

  /** Equal concatenations with a common tail and equal-length heads have equal parts. */
  lemma ConcatCancel(b1: string, m1: string, b2: string, m2: string, q: string)
    requires b1 + m1 + q == b2 + m2 + q
    requires |b1| == |b2|
    ensures b1 == b2 && m1 == m2
  {
    var r := b1 + m1 + q;
    assert b1 == r[..|b1|] == b2;
    assert m1 == r[|b1|..|r| - |q|] == m2;
  }

  /** The text the clause adds between the base prompt and the suffix. */
  function ClauseText(c: Option<string>): string {
    if c.Some? then ", " + c.value else ""
  }

  /** Every preset of the catalogue has a clause, and its category is named like its id. */
  lemma PresetsHaveClauses()
    ensures forall i | 0 <= i < |ArtStyles| :: ArtStyles[i].id in StylePrompts
    ensures forall i | 0 <= i < |ArtStyles| :: CategoryName(ArtStyles[i].category) == ArtStyles[i].id
    ensures forall key | key in StylePrompts :: exists i | 0 <= i < |ArtStyles| :: ArtStyles[i].id == key
  {
    assert ArtStyles[0].id == "abstract";
    assert ArtStyles[1].id == "photorealistic";
    assert ArtStyles[2].id == "fantasy";
    assert ArtStyles[3].id == "digital";
    assert ArtStyles[4].id == "painting";
    assert ArtStyles[5].id == "sketch";
  }

  // ---------------------------------------------------------------- reply extractor

  /** What `extractImageUrl` does with a reply: returns a URL, returns null, or throws a TypeError. */
  datatype Extraction = Found(url: string) | NotFound | Threw(message: string)

  /** V8's messages for the two TypeErrors a reply can provoke. */
  const NullReplyMessage := "Cannot read properties of null (reading 'choices')"
  const ContentNotStringMessage := "content.match is not a function"

  /**
   * `response.choices?.[0]?.message?.content`: present exactly when the reply
   * is an object whose first choice holds a `message` object with `content`,
   * and then it is that `content` member.
   */
  function ChatContent(reply: Json): (r: Option<Json>)
    ensures r.Some? ==> reply.JObject? && "choices" in reply.members
    ensures r.Some? ==> var choice := First(Some(reply.members["choices"]));
      && choice.Some? && choice.value.JObject? && "message" in choice.value.members
      && var message := choice.value.members["message"];
      message.JObject? && "content" in message.members && r.value == message.members["content"]
    ensures (reply.JObject? && "choices" in reply.members
      && var choice := First(Some(reply.members["choices"]));
      choice.Some? && choice.value.JObject? && "message" in choice.value.members
      && var message := choice.value.members["message"];
      message.JObject? && "content" in message.members) ==> r.Some?
  {
    Member(Member(First(Member(Some(reply), "choices")), "message"), "content")
  }

  /** `response.data?.url`: present exactly when the `url` member of the `data` object is a non-empty string. */
  function DataUrl(reply: Json): (r: Option<string>)
    ensures r.Some? ==> r.value != [] && reply.JObject? && "data" in reply.members
    ensures r.Some? ==> reply.members["data"].JObject? && "url" in reply.members["data"].members
    ensures r.Some? ==> reply.members["data"].members["url"] == JString(r.value)
    ensures (reply.JObject? && "data" in reply.members && reply.members["data"].JObject?
      && "url" in reply.members["data"].members && reply.members["data"].members["url"].JString?
      && reply.members["data"].members["url"].s != []) ==> r == Some(reply.members["data"].members["url"].s)
  {
    NonEmptyString(Member(Member(Some(reply), "data"), "url"))
  }

  /** `response.output?.[0]`: present exactly when the first element of `output` is a non-empty string. */
  function FirstOutput(reply: Json): (r: Option<string>)
    ensures r.Some? ==> r.value != [] && reply.JObject? && "output" in reply.members
    ensures r.Some? ==> First(Some(reply.members["output"])) == Some(JString(r.value))
    ensures (reply.JObject? && "output" in reply.members && First(Some(reply.members["output"])).Some?
      && First(Some(reply.members["output"])).value.JString? && First(Some(reply.members["output"])).value.s != [])
      ==> r == Some(First(Some(reply.members["output"])).value.s)
  {
    NonEmptyString(First(Member(Some(reply), "output")))
  }

  /** `response.image_url`, when a truthy string. */
  function ImageUrlField(reply: Json): (r: Option<string>)
    ensures r.Some? <==> (reply.JObject? && "image_url" in reply.members
      && reply.members["image_url"].JString? && reply.members["image_url"].s != [])
    ensures r.Some? ==> reply.members["image_url"] == JString(r.value)
  {
    NonEmptyString(Member(Some(reply), "image_url"))
  }

  /**
   * The URL sniffed from chat content: the first match of the image-URL
   * pattern in the content, when the content is a non-empty string.
   */
  function ContentUrl(reply: Json): (r: Option<string>)
    ensures r.Some? ==> ChatContent(reply).Some? && ChatContent(reply).value.JString?
    ensures ChatContent(reply).Some? && ChatContent(reply).value.JString? ==> r == FindImageUrl(ChatContent(reply).value.s)
  {
    match NonEmptyString(ChatContent(reply))
    case Some(content) => FindImageUrl(content)
    case None => None
  }

  /**
   * `extractImageUrl`: a cascade of guarded returns, in fixed priority order.
   * It throws exactly for a null reply (reading `choices` of null) and for
   * truthy chat content that is not a string (it has no `match`).
   */
  function ExtractImageUrl(reply: Json): (r: Extraction)
    ensures r.Found? ==> r.url != []
    ensures r.Threw? <==> reply == JNull || (Truthy(ChatContent(reply)) && !ChatContent(reply).value.JString?)
    ensures reply == JNull ==> r == Threw(NullReplyMessage)
    ensures r.Threw? && reply != JNull ==> r == Threw(ContentNotStringMessage)
  {
    if reply == JNull then Threw(NullReplyMessage)
    else if Truthy(ChatContent(reply)) && !ChatContent(reply).value.JString? then Threw(ContentNotStringMessage)
    else if ContentUrl(reply).Some? then Found(ContentUrl(reply).value)
    else if DataUrl(reply).Some? then Found(DataUrl(reply).value)
    else if FirstOutput(reply).Some? then Found(FirstOutput(reply).value)
    else if ImageUrlField(reply).Some? then Found(ImageUrlField(reply).value)
    else NotFound
  }

  /**
   * The priority order, stated as which candidate wins: a later candidate is
   * taken only when every earlier one is absent.
   */
  lemma ExtractionPriority(reply: Json)
    requires reply != JNull && !(Truthy(ChatContent(reply)) && !ChatContent(reply).value.JString?)
    ensures ContentUrl(reply).Some? ==> ExtractImageUrl(reply) == Found(ContentUrl(reply).value)
    ensures ContentUrl(reply).None? && DataUrl(reply).Some? ==> ExtractImageUrl(reply) == Found(DataUrl(reply).value)
    ensures ContentUrl(reply).None? && DataUrl(reply).None? && FirstOutput(reply).Some?
      ==> ExtractImageUrl(reply) == Found(FirstOutput(reply).value)
    ensures ContentUrl(reply).None? && DataUrl(reply).None? && FirstOutput(reply).None? && ImageUrlField(reply).Some?
      ==> ExtractImageUrl(reply) == Found(ImageUrlField(reply).value)
    ensures ExtractImageUrl(reply) == NotFound
      <==> ContentUrl(reply).None? && DataUrl(reply).None? && FirstOutput(reply).None? && ImageUrlField(reply).None?
  {
  }

  /** A URL taken from chat content is a piece of that content with the shape the pattern promises. */
  lemma ContentUrlShape(reply: Json)
    requires ContentUrl(reply).Some?
    ensures var content := ChatContent(reply).value.s;
      && LooksLikeImageUrl(ContentUrl(reply).value)
      && exists i: nat :: OccursAt(content, i, ContentUrl(reply).value)
  {
    FoundUrlShape(ChatContent(reply).value.s);
  }

  /** The reply with one top-level member removed. */
  function Without(reply: Json, key: string): Json {
    match reply
    case JObject(m) => JObject(m - {key})
    case _ => reply
  }

  /** The reply with one top-level member set. */
  function With(reply: Json, key: string, value: Json): Json {
    match reply
    case JObject(m) => JObject(m[key := value])
    case _ => reply
  }

  /** Content that is present but holds no matching URL does not fail: extraction goes on as if there were no `choices`. */
  lemma ContentWithoutUrlFallsThrough(reply: Json)
    requires reply.JObject? && "choices" in reply.members
    requires ChatContent(reply).Some? && ChatContent(reply).value.JString?
    requires FindImageUrl(ChatContent(reply).value.s).None?
    ensures ExtractImageUrl(reply) == ExtractImageUrl(Without(reply, "choices"))
  {
    var r' := Without(reply, "choices");
    assert Member(Some(r'), "choices").None?;
    assert Member(Some(r'), "data") == Member(Some(reply), "data");
    assert Member(Some(r'), "output") == Member(Some(reply), "output");
    assert Member(Some(r'), "image_url") == Member(Some(reply), "image_url");
  }

  /** An empty `output` list counts as absent. */
  lemma EmptyOutputCountsAsAbsent(reply: Json)
    requires reply.JObject?
    ensures ExtractImageUrl(With(reply, "output", JArray([]))) == ExtractImageUrl(Without(reply, "output"))
  {
    var a := With(reply, "output", JArray([]));
    var b := Without(reply, "output");
    assert Member(Some(a), "choices") == Member(Some(b), "choices");
    assert Member(Some(a), "data") == Member(Some(b), "data");
    assert Member(Some(a), "image_url") == Member(Some(b), "image_url");
  }

  /** An empty `image_url` string counts as absent. */
  lemma EmptyImageUrlCountsAsAbsent(reply: Json)
    requires reply.JObject?
    ensures ExtractImageUrl(With(reply, "image_url", JString(""))) == ExtractImageUrl(Without(reply, "image_url"))
  {
    var a := With(reply, "image_url", JString(""));
    var b := Without(reply, "image_url");
    assert Member(Some(a), "choices") == Member(Some(b), "choices");
    assert Member(Some(a), "data") == Member(Some(b), "data");
    assert Member(Some(a), "output") == Member(Some(b), "output");
  }

  /** An empty `data.url` string counts as absent. */
  lemma EmptyDataUrlCountsAsAbsent(reply: Json)
    requires reply.JObject?
    ensures ExtractImageUrl(With(reply, "data", JObject(map["url" := JString("")])))
         == ExtractImageUrl(Without(reply, "data"))
  {
    var c := With(reply, "data", JObject(map["url" := JString("")]));
    var d := Without(reply, "data");
    assert Member(Some(c), "choices") == Member(Some(d), "choices");
    assert Member(Some(c), "output") == Member(Some(d), "output");
    assert Member(Some(c), "image_url") == Member(Some(d), "image_url");
  }

  // ---------------------------------------------------------------- the envelope

  datatype ChatMessage = ChatMessage(role: string, content: string)

  /** The body `generateArtwork` posts to the provider. */
  datatype ProviderRequest = ProviderRequest(endpoint: string, model: string, messages: seq<ChatMessage>)

  /** What reading the response body gave: a JSON value, or a rejection (a `SyntaxError`, say). */
  datatype BodyRead = Parsed(value: Json) | ParseRejected(thrown: Thrown)

  /** What the transport reports: `fetch` rejected, or a response with its status line and body. */
  datatype ProviderReply =
    | FetchRejected(thrown: Thrown)
    | Responded(status: nat, statusText: string, body: BodyRead)

  /** `Date.now()` at the start, after the body was read, and in the `catch`. */
  datatype Clock = Clock(start: int, afterBody: int, atCatch: int)

  /** `response.ok`: the status is in the 2xx class. */
  predicate IsOkStatus(status: nat)
    ensures IsOkStatus(status) <==> status / 100 == 2
  {
    200 <= status <= 299
  }

  function OutboundRequest(request: GenerationRequest): (r: ProviderRequest)
    ensures r.endpoint == AiEndpoint && r.model == ImageGenerationModel
    ensures |r.messages| == 1 && r.messages[0].role == "user"
    ensures r.messages[0].content == CreateEnhancedPrompt(request.prompt, request.style)
  {
    ProviderRequest(AiEndpoint, ImageGenerationModel,
      [ChatMessage("user", CreateEnhancedPrompt(request.prompt, request.style))])
  }

  const NoImageUrlMessage := "No image URL found in response"
  const UnknownErrorMessage := "Unknown error occurred"

  /**
   * `error instanceof Error ? error.message : 'Unknown error occurred'`: an
   * error object's own message, and the fixed text for anything else thrown.
   */
  function CaughtMessage(thrown: Thrown): (m: string)
    ensures thrown.ErrorObject? ==> m == thrown.message
    ensures thrown.NonError? ==> m == UnknownErrorMessage && m != ""
  {
    match thrown
    case ErrorObject(m) => m
    case NonError => UnknownErrorMessage
  }

  /**
   * `` `API request failed: ${status} ${statusText}` ``: the fixed prefix, the
   * status in decimal digits, a space, then the status text.
   */
  function StatusFailureMessage(status: nat, statusText: string): (m: string)
    ensures var digits := NatToString(status);
      && |m| == 20 + |digits| + 1 + |statusText|
      && m[..20] == "API request failed: "
      && m[20..20 + |digits|] == digits
      && m[20 + |digits|] == ' '
      && m[20 + |digits| + 1..] == statusText
  {
    "API request failed: " + NatToString(status) + " " + statusText
  }

  function Failure(message: string, time: int): GenerationResponse {
    GenerationResponse(false, None, Some(message), Some(time))
  }

  /**
   * `generateArtwork`: a success envelope exactly when a URL was extracted,
   * otherwise a failure envelope carrying the message of whatever was thrown.
   */
  function GenerateArtwork(request: GenerationRequest, provider: ProviderRequest -> ProviderReply, clock: Clock): (r: GenerationResponse)
    ensures r.success <==> r.imageUrl.Some?
    ensures r.success <==> r.error.None?
    ensures r.imageUrl.Some? ==> r.imageUrl.value != []
    ensures r.generationTime.Some?
  {
    var elapsedAtCatch := clock.atCatch - clock.start;
    match provider(OutboundRequest(request))
    case FetchRejected(thrown) => Failure(CaughtMessage(thrown), elapsedAtCatch)
    case Responded(status, statusText, body) =>
      if !IsOkStatus(status) then Failure(StatusFailureMessage(status, statusText), elapsedAtCatch)
      else match body
        case ParseRejected(thrown) => Failure(CaughtMessage(thrown), elapsedAtCatch)
        case Parsed(value) =>
          match ExtractImageUrl(value)
          case Found(url) => GenerationResponse(true, Some(url), None, Some(clock.afterBody - clock.start))
          case NotFound => Failure(NoImageUrlMessage, elapsedAtCatch)
          case Threw(message) => Failure(message, elapsedAtCatch)
  }

  /** The reply `generateArtwork` hands to extraction, when the status is ok and the body parsed. */
  function ExtractedFrom(reply: ProviderReply): Option<Extraction> {
    if reply.Responded? && IsOkStatus(reply.status) && reply.body.Parsed? then Some(ExtractImageUrl(reply.body.value))
    else None
  }

  /** Success exactly when a URL was extracted; the envelope then carries that URL and the time up to the parsed body. */
  lemma SuccessIffExtracted(request: GenerationRequest, provider: ProviderRequest -> ProviderReply, clock: Clock)
    ensures var r := GenerateArtwork(request, provider, clock);
            var x := ExtractedFrom(provider(OutboundRequest(request)));
      && (r.success <==> x.Some? && x.value.Found?)
      && (r.success ==> r == GenerationResponse(true, Some(x.value.url), None, Some(clock.afterBody - clock.start)))
      && (!r.success ==> r.generationTime == Some(clock.atCatch - clock.start))
  {
  }

  /** A non-ok status fails with the status line, whatever the body holds: extraction is never attempted. */
  lemma NonOkStatusFails(request: GenerationRequest, provider: ProviderRequest -> ProviderReply, clock: Clock)
    requires provider(OutboundRequest(request)).Responded?
    requires !IsOkStatus(provider(OutboundRequest(request)).status)
    ensures var reply := provider(OutboundRequest(request));
      GenerateArtwork(request, provider, clock)
        == Failure("API request failed: " + NatToString(reply.status) + " " + reply.statusText, clock.atCatch - clock.start)
    ensures forall body: BodyRead ::
      var reply := provider(OutboundRequest(request));
      GenerateArtwork(request, _ => Responded(reply.status, reply.statusText, body), clock)
        == GenerateArtwork(request, provider, clock)
  {
  }

  /** An ok, parsed reply without a recognisable URL fails with the fixed message. */
  lemma NoUrlFails(request: GenerationRequest, provider: ProviderRequest -> ProviderReply, clock: Clock)
    requires ExtractedFrom(provider(OutboundRequest(request))) == Some(NotFound)
    ensures GenerateArtwork(request, provider, clock).error == Some("No image URL found in response")
  {
  }

  /** A rejected `fetch` or body read fails with the thrown error's message, or the generic one. */
  lemma ThrownErrorFails(request: GenerationRequest, provider: ProviderRequest -> ProviderReply, clock: Clock, thrown: Thrown)
    requires var reply := provider(OutboundRequest(request));
      || reply == FetchRejected(thrown)
      || (reply.Responded? && IsOkStatus(reply.status) && reply.body == ParseRejected(thrown))
    ensures thrown.ErrorObject? ==> GenerateArtwork(request, provider, clock).error == Some(thrown.message)
    ensures thrown.NonError? ==> GenerateArtwork(request, provider, clock).error == Some("Unknown error occurred")
  {
  }

  /** An extraction that throws fails the call with the thrown TypeError's message. */
  lemma ExtractionErrorFails(request: GenerationRequest, provider: ProviderRequest -> ProviderReply, clock: Clock, message: string)
    requires ExtractedFrom(provider(OutboundRequest(request))) == Some(Threw(message))
    ensures GenerateArtwork(request, provider, clock) == Failure(message, clock.atCatch - clock.start)
    ensures message == NullReplyMessage || message == ContentNotStringMessage
  {
  }

  /** Only the prompt and the style reach the provider; the aspect ratio and quality are ignored. */
  lemma OnlyPromptAndStyleMatter(r1: GenerationRequest, r2: GenerationRequest, provider: ProviderRequest -> ProviderReply, clock: Clock)
    requires r1.prompt == r2.prompt && r1.style == r2.style
    ensures OutboundRequest(r1) == OutboundRequest(r2)
    ensures GenerateArtwork(r1, provider, clock) == GenerateArtwork(r2, provider, clock)
  {
  }
}
