/** The suggestion analyzer (`analyzeReply`): the reply is substituted into
    the prompt template, a request of one of three provider shapes is
    selected, the language-model service answers (an oracle), the answer
    text is read from the provider's response envelope, and the answer is
    parsed into suggestions (JSON.parse, also an oracle). */
module Analyzer {
  import opened Values
  import opened Settings

  /** One entry of the `positions` array: where to insert, what to draw, an
      optional style ("" when absent) and an optional relevance score. */
  datatype Suggestion = Suggestion(index: int, prompt: string, style: string, score: Option<real>)

  /** `pat` occurs in `s` at position `i`. */
  predicate OccursAt(s: string, pat: string, i: nat) {
    i + |pat| <= |s| && s[i..i + |pat|] == pat
  }

  /** The first position at or after `from` where `pat` occurs. */
  function IndexOf(s: string, pat: string, from: nat): (r: Option<nat>)
    requires from <= |s|
    ensures r.Some? ==> from <= r.value && OccursAt(s, pat, r.value)
    ensures r.Some? ==> forall j :: from <= j < r.value ==> !OccursAt(s, pat, j)
    ensures r.None? ==> forall j :: from <= j <= |s| ==> !OccursAt(s, pat, j)
    decreases |s| - from
  {
    if OccursAt(s, pat, from) then Some(from)
    else if from == |s| then None
    else IndexOf(s, pat, from + 1)
  }

  /** `s.replace(pat, rep)` with a string pattern: only the first occurrence is replaced. */
  function ReplaceFirst(s: string, pat: string, rep: string): string {
    match IndexOf(s, pat, 0)
    case None => s
    case Some(i) => s[..i] + rep + s[i + |pat|..]
  }

  /** Without the placeholder the template is sent as it is; with it, the reply
      text stands where the first placeholder stood, the text before it holds no
      placeholder, and the text after it (later placeholders included) is kept. */
  lemma ReplaceFirstPlacesReply(s: string, pat: string, rep: string)
    ensures (forall j :: 0 <= j <= |s| ==> !OccursAt(s, pat, j)) ==> ReplaceFirst(s, pat, rep) == s
    ensures forall i :: 0 <= i <= |s| && OccursAt(s, pat, i) && (forall j :: 0 <= j < i ==> !OccursAt(s, pat, j)) ==>
              ReplaceFirst(s, pat, rep) == s[..i] + rep + s[i + |pat|..]
  {
    match IndexOf(s, pat, 0)
    case None =>
    case Some(k) =>
      forall i | 0 <= i <= |s| && OccursAt(s, pat, i) && (forall j :: 0 <= j < i ==> !OccursAt(s, pat, j))
        ensures ReplaceFirst(s, pat, rep) == s[..i] + rep + s[i + |pat|..]
      {
        assert !(k < i) && !(i < k);
      }
  }

  /** One HTTP request to the language-model service: URL, headers and JSON body. */
  datatype AiRequest = AiRequest(url: string, headers: map<string, string>, body: Json)

  /** The chat message list used by the openai and claude shapes. */
  function UserMessages(prompt: string): Json {
    JArr([JObj(map["role" := JStr("user"), "content" := JStr(prompt)])])
  }

  /** The request shape selected by the provider name; any other provider throws. */
  function BuildRequest(provider: string, baseUrl: string, apiKey: string, model: string, prompt: string): Outcome<AiRequest> {
    var json := map["Content-Type" := "application/json"];
    if provider == "openai" then
      Ok(AiRequest(baseUrl + "/chat/completions",
                   json["Authorization" := "Bearer " + apiKey],
                   JObj(map["model" := JStr(model), "messages" := UserMessages(prompt)])))
    else if provider == "claude" then
      Ok(AiRequest(baseUrl + "/messages",
                   json["x-api-key" := apiKey]["anthropic-version" := "2023-06-01"],
                   JObj(map["model" := JStr(model), "max_tokens" := JNum(1024.0), "messages" := UserMessages(prompt)])))
    else if provider == "gemini" then
      Ok(AiRequest(baseUrl + "/models/" + model + ":generateContent?key=" + apiKey,
                   json,
                   JObj(map["contents" := JArr([JObj(map["parts" := JArr([JObj(map["text" := JStr(prompt)])])])])])))
    else Err("Unsupported AI provider")
  }

  /** Where each request shape carries the prompt text. */
  function CarriedPrompt(provider: string, body: Json): Option<string> {
    var v :=
      if provider == "gemini" then Path(body, [Key("contents"), Index(0), Key("parts"), Index(0), Key("text")])
      else Path(body, [Key("messages"), Index(0), Key("content")]);
    if v.Some? && v.value.JStr? then Some(v.value.s) else None
  }

  /** The request for each supported provider: its URL, its authentication
      headers, and the prompt it carries; an unsupported provider throws
      `Unsupported AI provider`. */
  lemma RequestSelection(provider: string, baseUrl: string, apiKey: string, model: string, prompt: string)
    ensures var r := BuildRequest(provider, baseUrl, apiKey, model, prompt);
      && (r.Err? <==> provider != "openai" && provider != "claude" && provider != "gemini")
      && (r.Err? ==> r.error == "Unsupported AI provider")
      && (r.Ok? ==> "Content-Type" in r.value.headers && r.value.headers["Content-Type"] == "application/json"
                    && CarriedPrompt(provider, r.value.body) == Some(prompt))
      && (provider == "openai" ==>
            r.value.url == baseUrl + "/chat/completions"
            && r.value.headers.Keys == {"Content-Type", "Authorization"}
            && r.value.headers["Authorization"] == "Bearer " + apiKey)
      && (provider == "claude" ==>
            r.value.url == baseUrl + "/messages"
            && r.value.headers.Keys == {"Content-Type", "x-api-key", "anthropic-version"}
            && r.value.headers["x-api-key"] == apiKey
            && r.value.headers["anthropic-version"] == "2023-06-01")
      && (provider == "gemini" ==>
            r.value.url == baseUrl + "/models/" + model + ":generateContent?key=" + apiKey
            && r.value.headers.Keys == {"Content-Type"})
  {
    var json := map["Content-Type" := "application/json"];
    if provider == "openai" {
      MessagesCarryPrompt(map["model" := JStr(model), "messages" := UserMessages(prompt)], prompt);
      assert json["Authorization" := "Bearer " + apiKey].Keys == {"Content-Type", "Authorization"};
    } else if provider == "claude" {
      MessagesCarryPrompt(map["model" := JStr(model), "max_tokens" := JNum(1024.0), "messages" := UserMessages(prompt)], prompt);
      assert json["x-api-key" := apiKey]["anthropic-version" := "2023-06-01"].Keys == {"Content-Type", "x-api-key", "anthropic-version"};
    } else if provider == "gemini" {
      ContentsCarryPrompt(prompt);
    }
  }

  /** A body whose `messages` member is the user message list carries the
      prompt at `messages[0].content`. */
  lemma MessagesCarryPrompt(fields: map<string, Json>, prompt: string)
    requires "messages" in fields && fields["messages"] == UserMessages(prompt)
    ensures Path(JObj(fields), [Key("messages"), Index(0), Key("content")]) == Some(JStr(prompt))
  {
    var steps := [Key("messages"), Index(0), Key("content")];
    var m := JObj(map["role" := JStr("user"), "content" := JStr(prompt)]);
    assert Path(m, steps[2..]) == Some(JStr(prompt));
    assert Path(UserMessages(prompt), steps[1..]) == Some(JStr(prompt));
  }

  /** The gemini body carries the prompt at `contents[0].parts[0].text`. */
  lemma ContentsCarryPrompt(prompt: string)
    ensures var body := JObj(map["contents" := JArr([JObj(map["parts" := JArr([JObj(map["text" := JStr(prompt)])])])])]);
            Path(body, [Key("contents"), Index(0), Key("parts"), Index(0), Key("text")]) == Some(JStr(prompt))
  {
    var steps := [Key("contents"), Index(0), Key("parts"), Index(0), Key("text")];
    var part := JObj(map["text" := JStr(prompt)]);
    assert Path(part, steps[4..]) == Some(JStr(prompt));
    assert Path(JArr([part]), steps[3..]) == Some(JStr(prompt));
    assert Path(JObj(map["parts" := JArr([part])]), steps[2..]) == Some(JStr(prompt));
  }

  /** The answer text in the response envelope: `candidates[0].content.parts[0].text`
      for gemini, `choices[0].message.content` for every other provider; a missing
      member or a non-string answer throws. */
  function ExtractContent(provider: string, data: Json): Outcome<string> {
    var v :=
      if provider == "gemini" then Path(data, [Key("candidates"), Index(0), Key("content"), Key("parts"), Index(0), Key("text")])
      else Path(data, [Key("choices"), Index(0), Key("message"), Key("content")]);
    if v.Some? && v.value.JStr? then Ok(v.value.s) else Err("malformed AI response")
  }

  /** A chat-completions envelope holding answer `t`. */
  function ChoicesEnvelope(t: string): Json {
    JObj(map["choices" := JArr([JObj(map["message" := JObj(map["content" := JStr(t)])])])])
  }

  /** A generate-content envelope holding answer `t`. */
  function CandidatesEnvelope(t: string): Json {
    JObj(map["candidates" := JArr([JObj(map["content" := JObj(map["parts" := JArr([JObj(map["text" := JStr(t)])])])])])])
  }

  /** A messages-style envelope holding answer `t` (`content[0].text`). */
  function MessagesEnvelope(t: string): Json {
    JObj(map["content" := JArr([JObj(map["type" := JStr("text"), "text" := JStr(t)])])])
  }

  /** openai and gemini answers are read from their own envelopes; the claude
      branch reads the chat-completions envelope too, so a messages-style
      envelope is rejected. */
  lemma EnvelopeReading(t: string)
    ensures ExtractContent("openai", ChoicesEnvelope(t)) == Ok(t)
    ensures ExtractContent("gemini", CandidatesEnvelope(t)) == Ok(t)
    ensures ExtractContent("claude", ChoicesEnvelope(t)) == Ok(t)
    ensures ExtractContent("claude", MessagesEnvelope(t)).Err?
  {
    ChoicesPath(t);
    CandidatesPath(t);
    MessagesEnvelopeHasNoChoices(t);
  }

  lemma ChoicesPath(t: string)
    ensures Path(ChoicesEnvelope(t), [Key("choices"), Index(0), Key("message"), Key("content")]) == Some(JStr(t))
  {
    var choices := [Key("choices"), Index(0), Key("message"), Key("content")];
    var msg := JObj(map["content" := JStr(t)]);
    assert Path(msg, choices[3..]) == Some(JStr(t));
    assert Path(JObj(map["message" := msg]), choices[2..]) == Some(JStr(t));
  }

  lemma CandidatesPath(t: string)
    ensures Path(CandidatesEnvelope(t), [Key("candidates"), Index(0), Key("content"), Key("parts"), Index(0), Key("text")]) == Some(JStr(t))
  {
    var cands := [Key("candidates"), Index(0), Key("content"), Key("parts"), Index(0), Key("text")];
    var part := JObj(map["text" := JStr(t)]);
    assert Path(part, cands[5..]) == Some(JStr(t));
    assert Path(JArr([part]), cands[4..]) == Some(JStr(t));
    assert Path(JObj(map["parts" := JArr([part])]), cands[3..]) == Some(JStr(t));
    assert Path(JObj(map["content" := JObj(map["parts" := JArr([part])])]), cands[2..]) == Some(JStr(t));
  }

  lemma MessagesEnvelopeHasNoChoices(t: string)
    ensures Path(MessagesEnvelope(t), [Key("choices"), Index(0), Key("message"), Key("content")]).None?
  {
  }

  /** The language-model service as seen by `analyzeReply`: `post` answers the
      request of a given attempt with the parsed response body, or fails (a
      network error or a non-success status); `parse` is `JSON.parse` of the
      answer text followed by reading its `positions` array. */
  datatype AiService = AiService(
    post: (nat, AiRequest) -> Outcome<Json>,
    parse: string -> Outcome<seq<Suggestion>>)

  /** `analyzeReply(replyText)` on attempt `attempt`. */
  function AnalyzeReply(cfg: Config, replyText: string, attempt: nat, ai: AiService): Outcome<seq<Suggestion>> {
    var prompt := ReplaceFirst(cfg.promptTemplate, "{{reply}}", replyText);
    match BuildRequest(cfg.aiProvider, cfg.aiBaseUrl, cfg.aiApiKey, cfg.aiModel, prompt)
    case Err(e) => Err(e)
    case Ok(req) =>
      match ai.post(attempt, req)
      case Err(e) => Err(e)
      case Ok(data) =>
        match ExtractContent(cfg.aiProvider, data)
        case Err(e) => Err(e)
        case Ok(content) => ai.parse(content)
  }

  /** An unsupported provider fails every attempt the same way, whatever the
      service would answer. */
  lemma UnsupportedProviderAlwaysFails(cfg: Config, replyText: string, attempt: nat, ai: AiService)
    requires cfg.aiProvider != "openai" && cfg.aiProvider != "claude" && cfg.aiProvider != "gemini"
    ensures AnalyzeReply(cfg, replyText, attempt, ai) == Err("Unsupported AI provider")
  {
  }

  /** A successful analysis is exactly the parse of the answer the service
      gave to the request built from the substituted template. */
  lemma AnalysisComesFromService(cfg: Config, replyText: string, attempt: nat, ai: AiService)
    requires AnalyzeReply(cfg, replyText, attempt, ai).Ok?
    ensures var prompt := ReplaceFirst(cfg.promptTemplate, "{{reply}}", replyText);
            var req := BuildRequest(cfg.aiProvider, cfg.aiBaseUrl, cfg.aiApiKey, cfg.aiModel, prompt);
            && req.Ok?
            && CarriedPrompt(cfg.aiProvider, req.value.body) == Some(prompt)
            && ai.post(attempt, req.value).Ok?
            && ExtractContent(cfg.aiProvider, ai.post(attempt, req.value).value).Ok?
            && AnalyzeReply(cfg, replyText, attempt, ai)
               == ai.parse(ExtractContent(cfg.aiProvider, ai.post(attempt, req.value).value).value)
  {
    var prompt := ReplaceFirst(cfg.promptTemplate, "{{reply}}", replyText);
    RequestSelection(cfg.aiProvider, cfg.aiBaseUrl, cfg.aiApiKey, cfg.aiModel, prompt);
  }
}
