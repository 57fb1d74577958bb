/**
 * The Gemini service (src/services/gemini.js): the key check, the model
 * configuration, the generation call with its retry loop for an overloaded
 * model, the Midjourney post-processing, and the translation call. The SDK
 * is a parameter: the reply it gives to each successive attempt.
 */
module GeminiService {
  import opened Wrappers
  import opened Text
  import opened Constants
  import opened Layout
  import opened Instructions
  import opened MidjourneyControls
  import opened ParameterSuffix

  const MISSING_API_KEY: string := "API Key is missing"

  /** The loop makes at most this many attempts (`let retries = 3`). */
  const MAX_ATTEMPTS: nat := 3

  /** Milliseconds slept before each retry. */
  const RETRY_WAIT_MS: nat := 2000

  /** What one `generateContent` call yields: the reply's text, or the message of the error it throws. */
  datatype SdkReply = Generated(text: string) | Failed(message: string)

  /** An error is retried when its message mentions `503`. */
  predicate Overloaded(reply: SdkReply) {
    reply.Failed? && Contains(reply.message, "503")
  }

  /** An error counts as overloaded exactly when `503` occurs somewhere in its message. */
  lemma OverloadedIffMentions503(reply: SdkReply)
    ensures Overloaded(reply) <==> reply.Failed? && exists i :: OccursAt(reply.message, "503", i)
  {
    if reply.Failed? {
      ContainsIffOccurs(reply.message, "503");
    }
  }

  /** The outcome of one settled attempt. */
  function Settle(reply: SdkReply): Result<string, string> {
    match reply
    case Generated(text) => Success(text)
    case Failed(message) => Failure(message)
  }

  /**
   * The loop stops after `attempts` calls: every earlier reply was
   * overloaded, and the last one was not unless no attempt was left.
   */
  predicate SettlesAt(backend: nat -> SdkReply, attempts: nat) {
    && 1 <= attempts <= MAX_ATTEMPTS
    && (forall i :: 0 <= i < attempts - 1 ==> Overloaded(backend(i)))
    && (attempts < MAX_ATTEMPTS ==> !Overloaded(backend(attempts - 1)))
  }

  /**
   * The retry loop. `backend(i)` is the SDK's reply to attempt `i` (from 0).
   * A success ends the loop; an overloaded error is retried after a wait
   * while more than one attempt is left; any other error, and an overloaded
   * error on the last attempt, is thrown.
   */
  method RetryGenerate(backend: nat -> SdkReply) returns (outcome: Result<string, string>, attempts: nat, waited: nat)
    ensures SettlesAt(backend, attempts)
    ensures outcome == Settle(backend(attempts - 1))
    ensures waited == RETRY_WAIT_MS * (attempts - 1)
  {
    var retries := MAX_ATTEMPTS;
    attempts := 0;
    waited := 0;
    outcome := Failure("");
    while retries > 0
      invariant 1 <= retries <= MAX_ATTEMPTS
      invariant attempts == MAX_ATTEMPTS - retries
      invariant forall i :: 0 <= i < attempts ==> Overloaded(backend(i))
      invariant waited == RETRY_WAIT_MS * attempts
      decreases retries
    {
      var reply := backend(attempts);
      attempts := attempts + 1;
      if reply.Generated? {
        outcome := Success(reply.text);
        break;
      }
      if Contains(reply.message, "503") && retries > 1 {
        waited := waited + RETRY_WAIT_MS;
        retries := retries - 1;
      } else {
        outcome := Failure(reply.message);
        break;
      }
    }
  }

  /** The model handle: client key, model id and system instruction. */
  datatype ModelConfig = ModelConfig(apiKey: string, model: string, systemInstruction: string)

  /** `geminiModel = 'gemini-2.5-flash'`: the default applies only when the argument is left out. */
  function GeminiModel(geminiModel: Option<string>): (m: string)
    ensures geminiModel.None? ==> m == GEMINI_FLASH && m == "gemini-2.5-flash"
    ensures geminiModel.Some? ==> m == geminiModel.value
  {
    if geminiModel.Some? then geminiModel.value else GEMINI_FLASH
  }

  /** How the reply of the settling attempt becomes the call's outcome. */
  function GenerateOutcome(modelType: string, p: Params, reply: SdkReply): (r: Result<string, string>)
    ensures r.Success? <==> reply.Generated?
    ensures reply.Failed? ==> r == Failure(reply.message)
    ensures r.Success? ==> StartsWith(r.value, Trim(reply.text))
  {
    match reply
    case Generated(text) => Success(Finished(modelType, p, text))
    case Failed(message) => Failure(message)
  }

  /** The model handle `generatePrompt` builds: the target's system instruction, Gemini wording. */
  function GenerateConfig(apiKey: string, modelType: string, p: Params, geminiModel: Option<string>): ModelConfig {
    ModelConfig(apiKey, GeminiModel(geminiModel), SystemInstruction(Gemini, ModelTypeOf(modelType), p.ar))
  }

  /**
   * The generation call ends after `attempts` calls of which all but the
   * last met an overloaded model, having slept before every retry, with the
   * last reply post-processed (or its error) as the outcome.
   */
  predicate GenerationSettled(backend: nat -> SdkReply, modelType: string, p: Params,
                              outcome: Result<string, string>, attempts: nat, waited: nat)
  {
    && SettlesAt(backend, attempts)
    && waited == RETRY_WAIT_MS * (attempts - 1)
    && outcome == GenerateOutcome(modelType, p, backend(attempts - 1))
  }

  /**
   * `generatePrompt`. `midjourneyParams` and `geminiModel` are `None` when
   * left out. `config` is the model handle built once the key check passes,
   * `userText` the single user part every attempt sends, `backend` the SDK's
   * replies, `attempts` the number of calls made and `waited` the total
   * milliseconds slept between them.
   */
  method GeneratePrompt(apiKey: string, modelType: string, userPrompt: string,
                        midjourneyParams: Option<Params>, geminiModel: Option<string>,
                        backend: nat -> SdkReply)
    returns (config: Option<ModelConfig>, userText: string, outcome: Result<string, string>,
             attempts: nat, waited: nat)
    ensures apiKey == "" ==>
      config == None && outcome == Failure(MISSING_API_KEY) && attempts == 0 && waited == 0
    ensures apiKey != "" ==>
      GenerationSettled(backend, modelType, ParamsOrDefault(midjourneyParams), outcome, attempts, waited)
    ensures apiKey != "" ==>
      && config == Some(GenerateConfig(apiKey, modelType, ParamsOrDefault(midjourneyParams), geminiModel))
      && userText == UserMessage(modelType, userPrompt)
  {
    userText := UserMessage(modelType, userPrompt);
    if apiKey == "" {
      return None, userText, Failure(MISSING_API_KEY), 0, 0;
    }
    outcome, attempts, waited := GenerateWithRetry(modelType, ParamsOrDefault(midjourneyParams), backend);
    config := Some(GenerateConfig(apiKey, modelType, ParamsOrDefault(midjourneyParams), geminiModel));
  }

  /** The part of `generatePrompt` after the model handle is built: the retry loop, then post-processing. */
  method GenerateWithRetry(modelType: string, p: Params, backend: nat -> SdkReply)
    returns (outcome: Result<string, string>, attempts: nat, waited: nat)
    ensures GenerationSettled(backend, modelType, p, outcome, attempts, waited)
  {
    var result;
    result, attempts, waited := RetryGenerate(backend);
    if result.Failure? {
      return result, attempts, waited;
    }
    var responseText := FinishReply(modelType, p, result.value);
    outcome := Success(responseText);
  }

  /**
   * A generation that settles with a success was answered by its last
   * attempt, and its text is that reply finished: trimmed, followed by the
   * parameter suffix for Midjourney and by nothing for any other target.
   */
  lemma SettledSuccess(backend: nat -> SdkReply, modelType: string, p: Params,
                       outcome: Result<string, string>, attempts: nat, waited: nat)
    requires GenerationSettled(backend, modelType, p, outcome, attempts, waited)
    requires outcome.Success?
    ensures backend(attempts - 1).Generated?
    ensures outcome.value == Finished(modelType, p, backend(attempts - 1).text)
    ensures StartsWith(outcome.value, Trim(backend(attempts - 1).text))
    ensures modelType != MODEL_MIDJOURNEY ==> outcome.value == Trim(backend(attempts - 1).text)
  {
  }

  /**
   * How the loop settles, as a function of the replies: the attempt at
   * which it stops is the first that is not overloaded, or the third.
   */
  function StopAttempt(backend: nat -> SdkReply, from: nat): (n: nat)
    requires from < MAX_ATTEMPTS
    ensures from < n <= MAX_ATTEMPTS
    ensures forall i :: from <= i < n - 1 ==> Overloaded(backend(i))
    ensures n < MAX_ATTEMPTS ==> !Overloaded(backend(n - 1))
    decreases MAX_ATTEMPTS - from
  {
    if from == MAX_ATTEMPTS - 1 || !Overloaded(backend(from)) then from + 1
    else StopAttempt(backend, from + 1)
  }

  /**
   * The loop's contract pins the number of attempts down: it is
   * `StopAttempt(backend, 0)`, whatever the loop's bookkeeping.
   */
  lemma AttemptsDetermined(backend: nat -> SdkReply, attempts: nat)
    requires SettlesAt(backend, attempts)
    ensures attempts == StopAttempt(backend, 0)
  {
  }

  /**
   * Three overloaded replies in a row exhaust the loop: it makes three
   * attempts with two waits between them, and the third error is thrown.
   */
  lemma ThreeOverloadsFail(backend: nat -> SdkReply, attempts: nat)
    requires Overloaded(backend(0)) && Overloaded(backend(1)) && Overloaded(backend(2))
    requires SettlesAt(backend, attempts)
    ensures attempts == MAX_ATTEMPTS && RETRY_WAIT_MS * (attempts - 1) == 4000
    ensures Settle(backend(attempts - 1)) == Failure(backend(2).message)
  {
  }

  /** An error that does not mention 503 on the first attempt is thrown at once, without waiting. */
  lemma PermanentErrorNotRetried(backend: nat -> SdkReply, attempts: nat)
    requires backend(0).Failed? && !Contains(backend(0).message, "503")
    requires SettlesAt(backend, attempts)
    ensures attempts == 1 && RETRY_WAIT_MS * (attempts - 1) == 0
    ensures Settle(backend(attempts - 1)) == Failure(backend(0).message)
  {
  }

  /**
   * A success after k overloaded replies (k at most 2) ends the loop at
   * attempt k + 1, after k waits, with that text.
   */
  lemma SuccessAfterOverloads(backend: nat -> SdkReply, k: nat, text: string, attempts: nat)
    requires k < MAX_ATTEMPTS
    requires forall i :: 0 <= i < k ==> Overloaded(backend(i))
    requires backend(k) == Generated(text)
    requires SettlesAt(backend, attempts)
    ensures attempts == k + 1 && RETRY_WAIT_MS * (attempts - 1) == RETRY_WAIT_MS * k
    ensures Settle(backend(attempts - 1)) == Success(text)
  {
  }

  /**
   * `translateText`: the key check, a model configured with the translator
   * instruction, and a single call with no retry that sends `text` as the
   * only user part; its reply is trimmed. `sent` is that user part, `None`
   * when the key check fails and nothing is sent.
   */
  method TranslateText(apiKey: string, text: string, geminiModel: Option<string>,
                       targetLanguage: Option<string>, reply: SdkReply)
    returns (config: Option<ModelConfig>, sent: Option<string>, outcome: Result<string, string>)
    ensures apiKey == "" ==> config == None && sent == None && outcome == Failure(MISSING_API_KEY)
    ensures apiKey != "" ==>
      && config == Some(ModelConfig(apiKey, GeminiModel(geminiModel),
                                    TranslatorInstruction(TargetLanguage(targetLanguage))))
      && sent == Some(text)
      && outcome == match reply
           case Generated(t) => Success(Trim(t))
           case Failed(message) => Failure(message)
  {
    if apiKey == "" {
      return None, None, Failure(MISSING_API_KEY);
    }
    config := Some(ModelConfig(apiKey, GeminiModel(geminiModel),
                               TranslatorInstruction(TargetLanguage(targetLanguage))));
    sent := Some(text);
    match reply {
      case Generated(t) =>
        outcome := Success(Trim(t));
      case Failed(message) =>
        outcome := Failure(message);
    }
  }
}
