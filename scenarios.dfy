/**
 * Lemmas that evaluate the extractor and the envelope on literal replies.
 */
module Scenarios {
  import opened Wrappers
  import opened Text
  import opened JsonValue
  import opened Types
  import opened UrlScan
  import opened Api

  const ChatText := "here: https://x.com/a.png done"

  lemma ChatTextMatch()
    ensures IsUrlMatch(ChatText, 6, 21) && MatchEnd(ChatText, 21) == 25
  {
    ChatTextScheme();
    ChatTextExtension();
    ChatTextRun();
  }

  lemma ChatTextScheme()
    ensures SchemeLength(ChatText, 6) == 8
  {
    assert MatchesAt(ChatText, 6, "https://");
  }

  lemma ChatTextExtension()
    ensures DotExtensionAt(ChatText, 21) && ExtensionLength(ChatText, 22) == 3
  {
    var s := ChatText;
    assert MatchesAt(s, 22, "png");
    assert !MatchesAt(s, 22, "jpg") && !MatchesAt(s, 22, "jpeg") by {
      assert Lower(s[22 + 0]) != "jpg"[0];
      assert Lower(s[22 + 0]) != "jpeg"[0];
    }
  }

  lemma ChatTextRun()
    ensures forall j | 14 <= j < 21 :: !IsSpace(ChatText[j])
  {
    assert ChatText[14..21] == "x.com/a";
    forall j | 14 <= j < 21 ensures !IsSpace(ChatText[j]) {
      assert ChatText[j] == ChatText[14..21][j - 14];
      FoldedNotSpace(ChatText[j]);
    }
  }

  lemma ChatTextLeftmost()
    ensures forall p': nat, d': nat | p' < 6 :: !IsUrlMatch(ChatText, p', d')
  {
    var s := ChatText;
    forall p': nat | p' < 6 ensures SchemeLength(s, p') == 0 {
      assert Lower(s[p' + 1]) != "http://"[1] || Lower(s[p' + 0]) != "http://"[0];
      assert Lower(s[p' + 1]) != "https://"[1] || Lower(s[p' + 0]) != "https://"[0];
    }
  }

  lemma ChatTextGreedy()
    requires SchemeLength(ChatText, 6) == 8
    ensures forall d': nat | 21 < d' :: !IsUrlMatch(ChatText, 6, d')
  {
    var s := ChatText;
    forall d': nat | 21 < d' ensures !IsUrlMatch(s, 6, d') {
      if d' > 25 { assert IsSpace(s[25]); }
      else if d' < |s| { assert s[d'] != '.'; }
    }
  }

  /** The URL is cut out of surrounding chat text verbatim. */
  lemma ChatTextScan(content: string)
    requires content == ChatText
    ensures FindImageUrl(content) == Some("https://x.com/a.png")
  {
    ChatTextMatch();
    ChatTextLeftmost();
    ChatTextGreedy();
    FindImageUrlOfFirstMatch(content, 6, 21);
    ChatTextSlice();
  }

  lemma ChatTextSlice()
    ensures ChatText[6..25] == "https://x.com/a.png"
  {
    assert ChatText == "here: " + "https://x.com/a.png" + " done";
  }

  /** `{choices:[{message:{content:"here: https://x.com/a.png done"}}]}` yields the URL in the text. */
  lemma ChatReplyExample(content: string)
    requires content == ChatText
    ensures ExtractImageUrl(JObject(map["choices" := JArray([JObject(map["message" := JObject(map["content" := JString(content)])])])]))
      == Found("https://x.com/a.png")
  {
    var reply := JObject(map["choices" := JArray([JObject(map["message" := JObject(map["content" := JString(content)])])])]);
    assert ChatContent(reply) == Some(JString(content));
    ChatTextScan(content);
    assert ContentUrl(reply) == Some("https://x.com/a.png");
  }

  /** `{data:{url:…}}`, `{output:[…]}` and `{image_url:…}` each yield their URL. */
  lemma AlternativeShapes(url: string)
    requires url != ""
    ensures ExtractImageUrl(JObject(map["data" := JObject(map["url" := JString(url)])])) == Found(url)
    ensures ExtractImageUrl(JObject(map["output" := JArray([JString(url)])])) == Found(url)
    ensures ExtractImageUrl(JObject(map["image_url" := JString(url)])) == Found(url)
  {
  }

  /** `{output:[]}` and `{}` yield nothing; a `null` reply throws. */
  lemma NothingToExtract()
    ensures ExtractImageUrl(JObject(map["output" := JArray([])])) == NotFound
    ensures ExtractImageUrl(JObject(map[])) == NotFound
    ensures ExtractImageUrl(JNull).Threw?
  {
  }

  /** A 503 reply fails with the status in the message and the time up to the catch. */
  lemma ServiceUnavailable(request: GenerationRequest, clock: Clock)
    ensures GenerateArtwork(request, _ => Responded(503, "Service Unavailable", Parsed(JNull)), clock)
      == GenerationResponse(false, None, Some("API request failed: 503 Service Unavailable"), Some(clock.atCatch - clock.start))
  {
    StatusLine503();
  }

  lemma StatusLine503()
    ensures StatusFailureMessage(503, "Service Unavailable") == "API request failed: 503 Service Unavailable"
  {
    Rendered503();
  }

  lemma Rendered503()
    ensures NatToString(503) == "503"
  {
    assert NatToString(5) == "5";
    assert NatToString(50) == "50";
  }
}
