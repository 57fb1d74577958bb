/**
 * The OpenAI-compatible service (src/services/openai.js): input checks,
 * endpoint normalisation, the chat-completions request, the handling of the
 * HTTP reply, and the translation call. The network is a parameter: the
 * reply the server gives to the request the service builds.
 */
module OpenAIService {
  import opened Wrappers
  import opened Text
  import opened Constants
  import opened Layout
  import opened Instructions
  import opened MidjourneyControls
  import opened ParameterSuffix

  const MISSING_API_KEY: string := "API Key is missing"
  const MISSING_BASE_URL: string := "Base URL is missing"
  const MISSING_MODEL_NAME: string := "Model Name is missing"

  const CHAT_COMPLETIONS: string := "/chat/completions"

  /** The base URL without one trailing slash, if it has one. */
  function StripSlash(baseUrl: string): (r: string)
    ensures EndsWith(baseUrl, "/") ==> baseUrl == r + "/"
    ensures !EndsWith(baseUrl, "/") ==> r == baseUrl
  {
    if EndsWith(baseUrl, "/") then baseUrl[..|baseUrl| - 1] else baseUrl
  }

  /** The endpoint the request goes to. */
  function Endpoint(baseUrl: string): (e: string)
    ensures EndsWith(e, CHAT_COMPLETIONS)
    ensures StartsWith(e, StripSlash(baseUrl))
  {
    var stripped := StripSlash(baseUrl);
    if EndsWith(stripped, CHAT_COMPLETIONS) then stripped
    else
      var e := stripped + CHAT_COMPLETIONS;
      assert e[..|stripped|] == stripped;
      PathAppended(stripped);
      e
  }

  /** The three-step normalisation of `baseUrl` into `endpoint`. */
  method NormalizeEndpoint(baseUrl: string) returns (endpoint: string)
    ensures endpoint == Endpoint(baseUrl)
  {
    endpoint := baseUrl;
    if EndsWith(endpoint, "/") {
      endpoint := endpoint[..|endpoint| - 1];
    }
    if !EndsWith(endpoint, CHAT_COMPLETIONS) {
      endpoint := endpoint + CHAT_COMPLETIONS;
    }
  }

  /**
   * The endpoint extends the base URL (less one trailing slash) by
   * `/chat/completions` unless the base already ends with it, so the path is
   * never doubled.
   */
  lemma EndpointShape(baseUrl: string)
    ensures EndsWith(StripSlash(baseUrl), CHAT_COMPLETIONS) <==> Endpoint(baseUrl) == StripSlash(baseUrl)
    ensures !EndsWith(StripSlash(baseUrl), CHAT_COMPLETIONS) ==>
      Endpoint(baseUrl) == StripSlash(baseUrl) + CHAT_COMPLETIONS
  {
  }

  /** `https://host/v1`, `https://host/v1/` and `https://host/v1/chat/completions[/]` agree: */
  lemma EndpointAcceptsBothSpellings(base: string)
    requires !EndsWith(base, "/") && !EndsWith(base, CHAT_COMPLETIONS)
    ensures Endpoint(base) == base + CHAT_COMPLETIONS
    ensures Endpoint(base + "/") == base + CHAT_COMPLETIONS
    ensures Endpoint(base + CHAT_COMPLETIONS) == base + CHAT_COMPLETIONS
    ensures Endpoint(base + CHAT_COMPLETIONS + "/") == base + CHAT_COMPLETIONS
  {
    var full := base + CHAT_COMPLETIONS;
    StripAppendedSlash(base);
    StripAppendedSlash(full);
    PathAppended(base);
  }

  /** Stripping the slash just appended gives back the string. */
  lemma StripAppendedSlash(s: string)
    ensures StripSlash(s + "/") == s
  {
    assert (s + "/")[|s|..] == "/";
    assert (s + "/")[..|s|] == s;
  }

  /** A string extended by the path ends with the path, and not with a slash. */
  lemma PathAppended(base: string)
    ensures EndsWith(base + CHAT_COMPLETIONS, CHAT_COMPLETIONS)
    ensures !EndsWith(base + CHAT_COMPLETIONS, "/")
  {
    var full := base + CHAT_COMPLETIONS;
    assert full[|full| - |CHAT_COMPLETIONS|..] == CHAT_COMPLETIONS;
    assert full[|full| - 1..] == "s";
  }

  /** Normalising twice changes nothing more. */
  lemma EndpointIdempotent(baseUrl: string)
    ensures Endpoint(Endpoint(baseUrl)) == Endpoint(baseUrl)
  {
    var e := Endpoint(baseUrl);
    EndpointShape(baseUrl);
    assert e[|e| - 1..] == CHAT_COMPLETIONS[|CHAT_COMPLETIONS| - 1..];
    assert !EndsWith(e, "/");
  }

  /** One chat message: a role and its content. */
  datatype Message = Message(role: string, content: string)

  /** The POST the service sends: endpoint, headers and JSON body. */
  datatype ChatRequest = ChatRequest(
    endpoint: string,
    contentType: string,
    authorization: string,
    model: string,
    messages: seq<Message>,
    stream: bool)

  /**
   * What comes back for a request: either something throws before a status
   * is known (the fetch itself, or reading the JSON body), with that error's
   * message, or there is a response with its status, its body text and the
   * `choices[0].message.content` of its JSON body.
   */
  datatype HttpReply = Thrown(message: string) | Response(status: nat, bodyText: string, content: string)

  /** `response.ok`. */
  predicate Ok(status: nat) {
    200 <= status <= 299
  }

  /** `${kind} (${status}): ${bodyText}`, the message of a rejected response. */
  function StatusError(kind: string, status: nat, bodyText: string): (m: string)
    ensures |m| == |kind| + |NatToString(status)| + 5 + |bodyText|
    ensures StartsWith(m, kind + " (")
    ensures m[|kind| + 2..|kind| + 2 + |NatToString(status)|] == NatToString(status)
    ensures EndsWith(m, "): " + bodyText)
  {
    var m := kind + " (" + NatToString(status) + "): " + bodyText;
    assert m == (kind + " (") + NatToString(status) + ("): " + bodyText);
    m
  }

  /** The status a rejected response reported can be read back out of its message. */
  lemma StatusRecoverable(kind: string, status: nat, bodyText: string)
    ensures var m := StatusError(kind, status, bodyText);
      ParseDecimal(m[|kind| + 2..|kind| + 2 + |NatToString(status)|]) == status
  {
    ParseNatToString(status);
  }

  /** The request `generatePromptOpenAI` sends once its inputs pass the checks. */
  function GenerateRequest(apiKey: string, baseUrl: string, modelName: string, modelType: string,
                           userPrompt: string, p: Params): (r: ChatRequest)
    ensures r.model == modelName && !r.stream
    ensures |r.messages| == 2 && r.messages[0].role == "system" && r.messages[1].role == "user"
  {
    ChatRequest(
      Endpoint(baseUrl), "application/json", "Bearer " + apiKey, modelName,
      [Message("system", SystemInstruction(OpenAI, ModelTypeOf(modelType), p.ar)),
       Message("user", UserMessage(modelType, userPrompt))],
      false)
  }

  /** How a reply to the generation request becomes the call's outcome. */
  function GenerateOutcome(modelType: string, p: Params, reply: HttpReply): (r: Result<string, string>)
    ensures reply.Thrown? ==> r == Failure(reply.message)
    ensures r.Success? <==> reply.Response? && Ok(reply.status)
  {
    match reply
    case Thrown(m) => Failure(m)
    case Response(status, bodyText, content) =>
      if !Ok(status) then Failure(StatusError("API Error", status, bodyText))
      else Success(Finished(modelType, p, content))
  }

  /**
   * `generatePromptOpenAI`. `midjourneyParams` is `None` when the argument is
   * left out, which makes it `{}`. `sent` is the request handed to `fetch`
   * (`None` when a check throws first) and `reply` what the server answers to it.
   */
  method GeneratePromptOpenAI(apiKey: string, baseUrl: string, modelName: string, modelType: string,
                              userPrompt: string, midjourneyParams: Option<Params>, reply: HttpReply)
    returns (sent: Option<ChatRequest>, outcome: Result<string, string>)
    ensures apiKey == "" ==> sent == None && outcome == Failure(MISSING_API_KEY)
    ensures apiKey != "" && baseUrl == "" ==> sent == None && outcome == Failure(MISSING_BASE_URL)
    ensures apiKey != "" && baseUrl != "" && modelName == "" ==>
      sent == None && outcome == Failure(MISSING_MODEL_NAME)
    ensures apiKey != "" && baseUrl != "" && modelName != "" ==>
      var p := ParamsOrDefault(midjourneyParams);
      && sent == Some(GenerateRequest(apiKey, baseUrl, modelName, modelType, userPrompt, p))
      && outcome == GenerateOutcome(modelType, p, reply)
  {
    var p := ParamsOrDefault(midjourneyParams);
    if apiKey == "" {
      return None, Failure(MISSING_API_KEY);
    }
    if baseUrl == "" {
      return None, Failure(MISSING_BASE_URL);
    }
    if modelName == "" {
      return None, Failure(MISSING_MODEL_NAME);
    }
    var endpoint := NormalizeEndpoint(baseUrl);
    var systemInstruction := SystemInstruction(OpenAI, ModelTypeOf(modelType), p.ar);
    sent := Some(ChatRequest(
      endpoint, "application/json", "Bearer " + apiKey, modelName,
      [Message("system", systemInstruction), Message("user", UserMessage(modelType, userPrompt))],
      false));
    match reply {
      case Thrown(m) =>
        outcome := Failure(m);
      case Response(status, bodyText, content) =>
        if !Ok(status) {
          outcome := Failure(StatusError("API Error", status, bodyText));
        } else {
          var responseText := FinishReply(modelType, p, content);
          outcome := Success(responseText);
        }
    }
  }

  /**
   * The generation request names the caller's model and key, carries the
   * user's prompt verbatim in its user turn, and has an empty system
   * instruction exactly when the target is not one of the three known models.
   */
  lemma GenerateRequestShape(apiKey: string, baseUrl: string, modelName: string, modelType: string,
                             userPrompt: string, p: Params)
    ensures var r := GenerateRequest(apiKey, baseUrl, modelName, modelType, userPrompt, p);
      && EndsWith(r.endpoint, CHAT_COMPLETIONS)
      && StartsWith(r.authorization, "Bearer ") && r.authorization[7..] == apiKey
      && (r.messages[0].content == "" <==>
            modelType != MODEL_NANO && modelType != MODEL_JIMENG && modelType != MODEL_MIDJOURNEY)
      && var u := r.messages[1].content;
         u[|USER_MESSAGE_LEAD| + |modelType| + 3..|u| - 1] == userPrompt
  {
    var r := GenerateRequest(apiKey, baseUrl, modelName, modelType, userPrompt, p);
    assert r.authorization[..7] == "Bearer ";
  }

  /**
   * A rejected status fails with an `API Error` naming it, and a successful
   * generation starts with the trimmed reply (followed by the Midjourney
   * suffix for that target).
   */
  lemma GenerateOutcomeCases(modelType: string, p: Params, reply: HttpReply)
    ensures reply.Response? && !Ok(reply.status) ==>
      StartsWith(GenerateOutcome(modelType, p, reply).error, "API Error (")
    ensures GenerateOutcome(modelType, p, reply).Success? ==>
      StartsWith(GenerateOutcome(modelType, p, reply).value, Trim(reply.content))
  {
    if reply.Response? {
      var _ := StatusError("API Error", reply.status, reply.bodyText);
    }
  }

  /** The request `translateTextOpenAI` sends. */
  function TranslateRequest(apiKey: string, baseUrl: string, modelName: string, text: string,
                            targetLanguage: string): (r: ChatRequest)
    ensures r.model == modelName && !r.stream
    ensures |r.messages| == 2 && r.messages[0].role == "system" && r.messages[1] == Message("user", text)
  {
    ChatRequest(
      Endpoint(baseUrl), "application/json", "Bearer " + apiKey, modelName,
      [Message("system", TranslatorInstruction(targetLanguage)), Message("user", text)],
      false)
  }

  /** How a reply to the translation request becomes the call's outcome. */
  function TranslateOutcome(reply: HttpReply): (r: Result<string, string>)
    ensures reply.Thrown? ==> r == Failure(reply.message)
    ensures r.Success? <==> reply.Response? && Ok(reply.status)
  {
    match reply
    case Thrown(m) => Failure(m)
    case Response(status, bodyText, content) =>
      if !Ok(status) then Failure(StatusError("Translation Error", status, bodyText))
      else Success(Trim(content))
  }

  /**
   * `translateTextOpenAI`: only the key and the base URL are checked (an
   * empty model name is sent as it is); `targetLanguage` defaults to
   * Chinese (Simplified) when left out.
   */
  method TranslateTextOpenAI(apiKey: string, baseUrl: string, modelName: string, text: string,
                             targetLanguage: Option<string>, reply: HttpReply)
    returns (sent: Option<ChatRequest>, outcome: Result<string, string>)
    ensures apiKey == "" ==> sent == None && outcome == Failure(MISSING_API_KEY)
    ensures apiKey != "" && baseUrl == "" ==> sent == None && outcome == Failure(MISSING_BASE_URL)
    ensures apiKey != "" && baseUrl != "" ==>
      && sent == Some(TranslateRequest(apiKey, baseUrl, modelName, text, TargetLanguage(targetLanguage)))
      && outcome == TranslateOutcome(reply)
  {
    if apiKey == "" {
      return None, Failure(MISSING_API_KEY);
    }
    if baseUrl == "" {
      return None, Failure(MISSING_BASE_URL);
    }
    var endpoint := NormalizeEndpoint(baseUrl);
    sent := Some(ChatRequest(
      endpoint, "application/json", "Bearer " + apiKey, modelName,
      [Message("system", TranslatorInstruction(TargetLanguage(targetLanguage))), Message("user", text)],
      false));
    match reply {
      case Thrown(m) =>
        outcome := Failure(m);
      case Response(status, bodyText, content) =>
        if !Ok(status) {
          outcome := Failure(StatusError("Translation Error", status, bodyText));
        } else {
          outcome := Success(Trim(content));
        }
    }
  }

  /**
   * The translation request names the target language in its instruction;
   * a successful translation is the trimmed reply, and a rejected status
   * fails with a `Translation Error` naming it.
   */
  lemma TranslateShape(apiKey: string, baseUrl: string, modelName: string, text: string,
                       targetLanguage: string, reply: HttpReply)
    ensures var r := TranslateRequest(apiKey, baseUrl, modelName, text, targetLanguage);
      var s := r.messages[0].content;
      s[|TRANSLATOR_LEAD|..|TRANSLATOR_LEAD| + |targetLanguage|] == targetLanguage
    ensures TranslateOutcome(reply).Success? ==>
      var t := TranslateOutcome(reply).value;
      t == Trim(reply.content) && (t != "" ==> !IsJsWhitespace(t[0]) && !IsJsWhitespace(t[|t| - 1]))
    ensures reply.Response? && !Ok(reply.status) ==>
      StartsWith(TranslateOutcome(reply).error, "Translation Error (")
  {
    if reply.Response? {
      var _ := StatusError("Translation Error", reply.status, reply.bodyText);
    }
  }
}
