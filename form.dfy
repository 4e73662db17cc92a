/**
 * The generation form (src/components/GenerationForm.tsx): its state, the
 * request a submit builds, how the reply settles the state, the suggestion
 * labels and the submit button's disabled state.
 */
module Form {
  import opened Wrappers
  import opened Text
  import opened Types
  import Route

  const PromptMissingMessage := "Please enter a prompt"
  const GenerationFailedMessage := "Generation failed"
  const FallbackErrorMessage := "Failed to generate artwork"
  const SuggestionLabelLength := 50

  /** What the form's `fetch('/api/generate')` and `response.json()` gave: a rejection, or the parsed envelope. */
  datatype SubmitReply = Rejected(thrown: Thrown) | Returned(result: GenerationResponse)

  /** The request a submit sends: the trimmed prompt, an empty style dropped, the selectors copied. */
  function BuildRequest(prompt: string, style: string, aspectRatio: AspectRatio, quality: Quality): (r: GenerationRequest)
    ensures r.prompt == Trim(prompt)
    ensures r.style.None? <==> style == ""
    ensures r.style.Some? ==> r.style.value == style
    ensures r.aspectRatio == Some(aspectRatio) && r.quality == Some(quality)
  {
    GenerationRequest(Trim(prompt), if style == "" then None else Some(style), Some(aspectRatio), Some(quality))
  }

  /**
   * The error a settled submit leaves: none when the envelope reports success;
   * otherwise the envelope's error (or the fixed text when it is missing or
   * empty), the rejection's message, or the fallback for a non-`Error` rejection.
   */
  function SubmitError(reply: SubmitReply): (e: Option<string>)
    ensures e.None? <==> reply.Returned? && reply.result.success
    ensures reply.Returned? && !reply.result.success ==> e.value != ""
    ensures reply.Returned? && !reply.result.success && reply.result.error.Some? && reply.result.error.value != ""
      ==> e == reply.result.error
    ensures reply.Returned? && !reply.result.success && (reply.result.error.None? || reply.result.error.value == "")
      ==> e == Some(GenerationFailedMessage)
    ensures reply.Rejected? ==> e == Some(if reply.thrown.ErrorObject? then reply.thrown.message else FallbackErrorMessage)
  {
    match reply
    case Returned(result) =>
      if result.success then None
      else if result.error.Some? && result.error.value != "" then Some(result.error.value)
      else Some(GenerationFailedMessage)
    case Rejected(ErrorObject(message)) => Some(message)
    case Rejected(NonError) => Some(FallbackErrorMessage)
  }

  /** A suggestion button's label: the first 50 characters and an ellipsis, or the whole suggestion. */
  function SuggestionLabel(suggestion: string): (text: string)
    ensures |suggestion| <= SuggestionLabelLength ==> text == suggestion
    ensures |suggestion| > SuggestionLabelLength ==>
      |text| == SuggestionLabelLength + 3 && text[..SuggestionLabelLength] == suggestion[..SuggestionLabelLength]
      && text[SuggestionLabelLength..] == "..."
  {
    if |suggestion| > 50 then suggestion[..50] + "..." else suggestion
  }

  /** The submit button is disabled exactly when the prompt is blank or a generation is running. */
  function SubmitDisabled(prompt: string, isGenerating: bool): (disabled: bool)
    ensures disabled <==> AllSpace(prompt) || isGenerating
  {
    Trim(prompt) == "" || isGenerating
  }

  /** A request the form builds from a non-blank prompt that fits the text area passes the route's validation unchanged. */
  lemma BuiltRequestAccepted(prompt: string, style: string, aspectRatio: AspectRatio, quality: Quality)
    requires !AllSpace(prompt) && |prompt| <= 500
    ensures var r := BuildRequest(prompt, style, aspectRatio, quality);
      Route.Validate(Route.Received(Some(r.prompt), r.style, r.aspectRatio, r.quality)) == Ok(r)
  {
    var r := BuildRequest(prompt, style, aspectRatio, quality);
    TrimIdempotent(prompt);
    assert !AllSpace(r.prompt);
    Route.ValidPromptAccepted(r.prompt, r.style, r.aspectRatio, r.quality);
  }

  /** The form's state. */
  class GenerationForm {
    var prompt: string
    var style: string
    var aspectRatio: AspectRatio
    var quality: Quality
    var isGenerating: bool
    var error: Option<string>

    constructor ()
      ensures prompt == "" && style == "" && aspectRatio == Square && quality == HighQuality
      ensures !isGenerating && error.None?
    {
      prompt := "";
      style := "";
      aspectRatio := Square;
      quality := HighQuality;
      isGenerating := false;
      error := None;
    }

    /** `handleStyleSelect`. */
    method HandleStyleSelect(styleId: string)
      modifies this`style
      ensures style == styleId
    {
      style := styleId;
    }

    /**
     * The synchronous part of `handleSubmit`: a blank prompt only sets the
     * error; otherwise generation starts, the error is cleared and the
     * request is built.
     */
    method BeginSubmit() returns (request: Option<GenerationRequest>)
      modifies this`isGenerating, this`error
      ensures Trim(old(prompt)) == "" ==> request.None? && error == Some(PromptMissingMessage) && isGenerating == old(isGenerating)
      ensures Trim(old(prompt)) != "" ==> request == old(Some(BuildRequest(prompt, style, aspectRatio, quality))) && isGenerating && error.None?
    {
      var trimmed := Trim(prompt);
      if trimmed == "" {
        error := Some(PromptMissingMessage);
        return None;
      }
      var built := BuildRequest(prompt, style, aspectRatio, quality);
      isGenerating := true;
      error := None;
      request := Some(built);
    }

    /**
     * The rest of `handleSubmit` once the reply is in: `onGenerate` receives a
     * successful envelope, any failure sets the error, and `finally` ends the generation.
     */
    method SettleSubmit(reply: SubmitReply) returns (delivered: Option<GenerationResponse>)
      modifies this`isGenerating, this`error
      ensures !isGenerating
      ensures delivered.Some? <==> reply.Returned? && reply.result.success
      ensures delivered.Some? ==> delivered.value == reply.result && error == old(error)
      ensures delivered.None? ==> error == SubmitError(reply)
    {
      delivered := None;
      match reply {
        case Returned(result) =>
          if !result.success {
            error := SubmitError(reply);
          } else {
            delivered := Some(result);
          }
        case Rejected(_) =>
          error := SubmitError(reply);
      }
      isGenerating := false;
    }

    /** `handleSubmit` end to end, for a given reply from the route. */
    method HandleSubmit(reply: SubmitReply) returns (request: Option<GenerationRequest>, delivered: Option<GenerationResponse>)
      modifies this`isGenerating, this`error
      ensures Trim(old(prompt)) == "" ==> request.None? && delivered.None?
      ensures Trim(old(prompt)) == "" ==> error == Some(PromptMissingMessage) && isGenerating == old(isGenerating)
      ensures Trim(old(prompt)) != "" ==> request == old(Some(BuildRequest(prompt, style, aspectRatio, quality))) && !isGenerating
      ensures Trim(old(prompt)) != "" ==> (delivered.Some? <==> reply.Returned? && reply.result.success)
      ensures Trim(old(prompt)) != "" && delivered.Some? ==> delivered.value == reply.result && error.None?
      ensures Trim(old(prompt)) != "" && delivered.None? ==> error == SubmitError(reply)
    {
      request := BeginSubmit();
      if request.None? {
        return request, None;
      }
      delivered := SettleSubmit(reply);
    }
  }
}
