/**
 * The top-level component (src/App.jsx): its state fields, their initial
 * values, and the optimise handler that guards on the API key, clears the
 * previous outcome, calls the Gemini service and records its result or its
 * error. The SDK's replies are a parameter of the handler.
 */
module App {
  import opened Wrappers
  import opened Text
  import opened Constants
  import opened MidjourneyControls
  import opened ParameterSuffix
  import Instructions
  import GeminiService

  /** The Midjourney parameters the page starts with. */
  const INITIAL_MIDJOURNEY_PARAMS: Params := Params(Some("16:9"), Some("6.0"), Some("250"), Some("0"))

  const INITIAL_ASPECT_RATIO: string := "16:9"

  /** The fallback used when the thrown error has an empty message. */
  const GENERIC_FAILURE: string := "Failed to generate prompt"

  /** `value || fallback` for a stored setting: `null` and `''` both fall back. */
  function OrElse(stored: Option<string>, fallback: string): (r: string)
    ensures Truthy(stored) ==> r == stored.value
    ensures !Truthy(stored) ==> r == fallback
  {
    if Truthy(stored) then stored.value else fallback
  }

  /** `Error: ${err.message || 'Failed to generate prompt'}. Please check your API Key.` */
  function ErrorBanner(message: string): (banner: string)
    ensures |banner| == 35 + (if message != "" then |message| else |GENERIC_FAILURE|)
    ensures StartsWith(banner, "Error: ")
    ensures EndsWith(banner, ". Please check your API Key.")
    ensures message != "" ==> banner[7..|banner| - 28] == message
    ensures message == "" ==> banner[7..|banner| - 28] == GENERIC_FAILURE
  {
    var shown := if message != "" then message else GENERIC_FAILURE;
    var b := "Error: " + shown + ". Please check your API Key.";
    assert b == "Error: " + (shown + ". Please check your API Key.");
    assert b[7..|b| - 28] == shown;
    b
  }

  /** The page's state fields (the `useState` hooks of the component). */
  class App {
    var selectedModel: string
    var aspectRatio: string
    var midjourneyParams: Params
    var result: string
    var isOptimizing: bool
    var isSettingsOpen: bool
    var apiKey: string
    var geminiModel: string
    var error: string

    /** The error banner and the result panel are never shown together. */
    predicate Valid()
      reads this
    {
      error == "" || result == ""
    }

    /**
     * The initial state. `storedKey` and `storedModel` are what
     * `localStorage` holds under `gemini_api_key` and `gemini_model`
     * (`None` for a missing entry).
     */
    constructor (storedKey: Option<string>, storedModel: Option<string>)
      ensures selectedModel == MODEL_NANO && aspectRatio == INITIAL_ASPECT_RATIO
      ensures midjourneyParams == INITIAL_MIDJOURNEY_PARAMS
      ensures result == "" && !isOptimizing && !isSettingsOpen && error == ""
      ensures apiKey == OrElse(storedKey, "")
      ensures geminiModel == OrElse(storedModel, GEMINI_FLASH)
      ensures Valid()
    {
      selectedModel := MODEL_NANO;
      aspectRatio := INITIAL_ASPECT_RATIO;
      midjourneyParams := INITIAL_MIDJOURNEY_PARAMS;
      result := "";
      isOptimizing := false;
      isSettingsOpen := false;
      apiKey := OrElse(storedKey, "");
      geminiModel := OrElse(storedModel, GEMINI_FLASH);
      error := "";
    }

    /** The parameter object handed to the service: the full record for Midjourney, otherwise only the aspect ratio. */
    function ServiceParams(): (p: Params)
      reads this
      ensures selectedModel == MODEL_MIDJOURNEY ==> p == midjourneyParams
      ensures selectedModel != MODEL_MIDJOURNEY ==> p == Params(Some(aspectRatio), None, None, None)
    {
      if selectedModel == MODEL_MIDJOURNEY then midjourneyParams else Params(Some(aspectRatio), None, None, None)
    }

    /**
     * The synchronous part of `handleOptimize`. Without a key the settings
     * dialog opens and nothing else changes; otherwise the page enters the
     * optimising state with the previous error and result cleared.
     */
    method BeginOptimize() returns (proceed: bool)
      modifies this
      ensures proceed <==> old(apiKey) != ""
      ensures !proceed ==>
        isSettingsOpen && isOptimizing == old(isOptimizing) && error == old(error) && result == old(result)
      ensures proceed ==> isOptimizing && error == "" && result == "" && isSettingsOpen == old(isSettingsOpen)
      ensures selectedModel == old(selectedModel) && aspectRatio == old(aspectRatio)
      ensures midjourneyParams == old(midjourneyParams) && apiKey == old(apiKey) && geminiModel == old(geminiModel)
      ensures old(Valid()) ==> Valid()
    {
      if apiKey == "" {
        isSettingsOpen := true;
        return false;
      }
      isOptimizing := true;
      error := "";
      result := "";
      return true;
    }

    /**
     * The settled part of `handleOptimize`: the try/catch/finally after the
     * service call, entered with the error and the result that `BeginOptimize`
     * cleared.
     */
    method FinishOptimize(outcome: Result<string, string>)
      requires error == "" && result == ""
      modifies this
      ensures outcome.Success? ==> result == outcome.value && error == old(error)
      ensures outcome.Failure? ==> error == ErrorBanner(outcome.error) && result == old(result)
      ensures !isOptimizing
      ensures isSettingsOpen == old(isSettingsOpen)
      ensures selectedModel == old(selectedModel) && aspectRatio == old(aspectRatio)
      ensures midjourneyParams == old(midjourneyParams) && apiKey == old(apiKey) && geminiModel == old(geminiModel)
      ensures Valid()
    {
      match outcome {
        case Success(optimizedPrompt) =>
          result := optimizedPrompt;
        case Failure(message) =>
          error := ErrorBanner(message);
      }
      isOptimizing := false;
    }

    /**
     * `handleOptimize(userPrompt)` run to completion, with `backend` the SDK's
     * replies. `config` is the model handle and `userText` the user turn the
     * service call is made with, both built from the key, the selected model,
     * its parameters, the stored Gemini model and `userPrompt`. `outcome` is
     * what the call settles to (meaningless when no call is made) and
     * `attempts` the number of SDK calls.
     */
    method HandleOptimize(userPrompt: string, backend: nat -> GeminiService.SdkReply)
      returns (config: Option<GeminiService.ModelConfig>, userText: string,
               outcome: Result<string, string>, attempts: nat)
      modifies this
      ensures old(apiKey) == "" ==>
        && config == None && isSettingsOpen && attempts == 0
        && isOptimizing == old(isOptimizing) && error == old(error) && result == old(result)
      ensures old(apiKey) != "" ==>
        && (exists waited: nat :: GeminiService.GenerationSettled(
              backend, old(selectedModel), old(ServiceParams()), outcome, attempts, waited))
        && config == Some(GeminiService.GenerateConfig(old(apiKey), old(selectedModel), old(ServiceParams()),
                                                       Some(old(geminiModel))))
        && userText == Instructions.UserMessage(old(selectedModel), userPrompt)
        && !isOptimizing && isSettingsOpen == old(isSettingsOpen)
        && (outcome.Success? ==> result == outcome.value && error == "")
        && (outcome.Failure? ==> error == ErrorBanner(outcome.error) && result == "")
      ensures selectedModel == old(selectedModel) && aspectRatio == old(aspectRatio)
      ensures midjourneyParams == old(midjourneyParams) && apiKey == old(apiKey) && geminiModel == old(geminiModel)
      ensures old(Valid()) ==> Valid()
    {
      config, userText, outcome, attempts := None, "", Failure(""), 0;
      var model, p := selectedModel, ServiceParams();
      var proceed := BeginOptimize();
      if !proceed {
        return;
      }
      var waited;
      config, userText, outcome, attempts, waited :=
        GeminiService.GeneratePrompt(apiKey, model, userPrompt, Some(p), Some(geminiModel), backend);
      assert GeminiService.GenerationSettled(backend, model, p, outcome, attempts, waited);
      FinishOptimize(outcome);
    }

    /** The settings dialog's `onSave`: the key and the model are replaced. */
    method SaveSettings(key: string, model: string)
      modifies this
      ensures apiKey == key && geminiModel == model
      ensures selectedModel == old(selectedModel) && aspectRatio == old(aspectRatio)
      ensures midjourneyParams == old(midjourneyParams) && result == old(result) && error == old(error)
      ensures isOptimizing == old(isOptimizing) && isSettingsOpen == old(isSettingsOpen)
      ensures old(Valid()) ==> Valid()
    {
      apiKey := key;
      geminiModel := model;
    }

    /** The settings button and the dialog's `onClose`. */
    method SetSettingsOpen(open: bool)
      modifies this
      ensures isSettingsOpen == open
      ensures selectedModel == old(selectedModel) && aspectRatio == old(aspectRatio)
      ensures midjourneyParams == old(midjourneyParams) && result == old(result) && error == old(error)
      ensures isOptimizing == old(isOptimizing) && apiKey == old(apiKey) && geminiModel == old(geminiModel)
      ensures old(Valid()) ==> Valid()
    {
      isSettingsOpen := open;
    }

    /** The selectors' `onSelect` / `onChange` handlers. */
    method SetSelection(model: string, ar: string, mj: Params)
      modifies this
      ensures selectedModel == model && aspectRatio == ar && midjourneyParams == mj
      ensures result == old(result) && error == old(error) && isOptimizing == old(isOptimizing)
      ensures isSettingsOpen == old(isSettingsOpen) && apiKey == old(apiKey) && geminiModel == old(geminiModel)
      ensures old(Valid()) ==> Valid()
    {
      selectedModel := model;
      aspectRatio := ar;
      midjourneyParams := mj;
    }
  }

  /** The initial Midjourney parameters are values the controls can produce. */
  lemma InitialParamsValid()
    ensures Valid(INITIAL_MIDJOURNEY_PARAMS)
  {
    var p := INITIAL_MIDJOURNEY_PARAMS;
    forall k ensures Get(p, k).Some? && InDomain(k, Get(p, k).value) {
      match k
      case Ar =>
        assert ASPECT_RATIO_OPTIONS[1] == "16:9";
      case V =>
        assert VERSION_OPTIONS[0] == "6.0";
      case S =>
        SliderValueInDomain(250, STYLIZE_MAX);
        assert NatToString(250) == "250" by {
          assert NatToString(25) == "25";
        }
      case C =>
        SliderValueInDomain(0, CHAOS_MAX);
        assert NatToString(0) == "0";
    }
  }

  /**
   * Optimising for Midjourney straight after the page loads appends all four
   * initial parameters; `'0'` is truthy, so chaos is included.
   */
  lemma InitialSuffix()
    ensures Join(Tokens(INITIAL_MIDJOURNEY_PARAMS), " ")
         == "--ar 16:9" + " " + "--v 6.0" + " " + "--stylize 250" + " " + "--chaos 0"
  {
    var p := INITIAL_MIDJOURNEY_PARAMS;
    assert |"16:9"| == 4 && |"6.0"| == 3 && |"250"| == 3 && |"0"| == 1;
    assert Truthy(p.ar) && Truthy(p.v) && Truthy(p.s) && Truthy(p.c);
    assert Flag(Ar) + "16:9" == "--ar 16:9";
    assert Flag(V) + "6.0" == "--v 6.0";
    assert Flag(S) + "250" == "--stylize 250";
    assert Flag(C) + "0" == "--chaos 0";
    var ts := ["--ar 16:9", "--v 6.0", "--stylize 250", "--chaos 0"];
    assert Tokens(p) == ts;
    JoinTail(ts, " ");
    JoinTail(ts[1..], " ");
    JoinTail(ts[2..], " ");
    assert ts[1..][1..] == ts[2..] && ts[2..][1..] == ts[3..];
    assert Join(ts[3..], " ") == "--chaos 0";
  }
}
