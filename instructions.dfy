/**
 * The system instructions and user messages sent to the text-generation
 * backend. Both services (src/services/openai.js and src/services/gemini.js)
 * hold the same templates; they differ in layout (the Gemini literals are
 * indented and framed by line breaks) and in the first line of the Nano
 * template. A template is kept as its list of lines and rendered per provider.
 */
module Instructions {
  import opened Wrappers
  import opened Text
  import opened Constants
  import opened Layout

  // ----- Nano (natural-language image model) -----

  function NanoIntro(p: Provider): string {
    match p
    case OpenAI => "You are an expert AI Art Prompt Engineer."
    case Gemini => "You are an expert AI Art Prompt Engineer for Google's Gemini Image Model (Nano Banana)."
  }

  const NANO_BODY: seq<string> := [
    "Your task is to take a simple user idea and expand it into a rich, descriptive, natural language prompt.",
    "",
    "Structure the prompt to include:",
    "- **Subject**: Detailed description of the main subject.",
    "- **Details**: Clothing, textures, accessories.",
    "- **Environment**: Background, lighting, weather, time of day.",
    "- **Mood/Atmosphere**: Emotional tone, colors.",
    "- **Style**: Artistic style (e.g., Photorealistic, Oil Painting, Cyberpunk).",
    "- **Camera**: Lens type, angle, focus (if photorealistic)."
  ]

  const NANO_CLOSE: seq<string> := [
    "",
    "Output ONLY the final prompt in English. Do not include labels like \"Subject:\" in the final output, just flow naturally."
  ]

  // ----- Jimeng (Chinese short-form image model) -----

  /** The hard length ceiling, which only the Jimeng template states. */
  const JIMENG_LENGTH_RULE: string := "- Length: Under 800 Chinese characters."

  const JIMENG_BODY: seq<string> := [
    "You are an expert AI Art Prompt Engineer for Jimeng AI (SeaDream 4.0).",
    "Your task is to take a simple user idea and expand it into a high-quality Chinese prompt.",
    "",
    "Constraints:",
    "- Language: Chinese (Simplified).",
    JIMENG_LENGTH_RULE,
    "- Structure: Comma-separated phrases or short sentences are preferred.",
    "",
    "Include:",
    "- Subject description (主体描述)",
    "- Detail description (细节描述)",
    "- Artist style analysis (艺术家风格分析)",
    "- Theme features (主题特征)",
    "- Camera/Lens (相机, 镜头)",
    "- Composition (构图)",
    "- Mood/Atmosphere (情绪, 氛围)"
  ]

  const JIMENG_CLOSE: seq<string> := [
    "",
    "Output ONLY the final Chinese prompt."
  ]

  // ----- Midjourney (parametric art model) -----

  const MIDJOURNEY_LINES: seq<string> := [
    "You are an expert AI Art Prompt Engineer for Midjourney v6.",
    "Your task is to take a simple user idea and expand it into a detailed Midjourney prompt.",
    "",
    "Structure:",
    "[Subject Description], [Environment & Context], [Art Style & Medium], [Lighting & Color Palette], [Camera & Composition], [Mood & Atmosphere]",
    "",
    "- Use precise, evocative vocabulary.",
    "- Focus on visual descriptors.",
    "",
    "Output ONLY the prompt text. Do NOT include parameters like --ar or --v yet (these will be appended by the system)."
  ]

  /** The families whose template takes an aspect-ratio line. */
  predicate TakesAspectRatio(t: ModelType) {
    t == Nano || t == Jimeng
  }

  /** The text of the aspect-ratio line before the ratio. */
  function AspectLead(t: ModelType): string
    requires TakesAspectRatio(t)
  {
    if t == Nano then "- **Aspect Ratio**: The image MUST be in " else "- Aspect Ratio (画幅比例): "
  }

  /** The text of the aspect-ratio line after the ratio. */
  function AspectTrail(t: ModelType): string
    requires TakesAspectRatio(t)
  {
    if t == Nano then " format." else ""
  }

  /** The aspect-ratio line of the Nano or Jimeng template, embedding the ratio `ar`. */
  function AspectLine(t: ModelType, ar: string): string
    requires TakesAspectRatio(t)
  {
    AspectLead(t) + ar + AspectTrail(t)
  }

  /** The template lines before the place where the aspect-ratio line goes. */
  function HeadLines(p: Provider, t: ModelType): seq<string>
    requires TakesAspectRatio(t)
  {
    if t == Nano then [NanoIntro(p)] + NANO_BODY else JIMENG_BODY
  }

  /** The template lines after the place where the aspect-ratio line goes. */
  function CloseLines(t: ModelType): seq<string>
    requires TakesAspectRatio(t)
  {
    if t == Nano then NANO_CLOSE else JIMENG_CLOSE
  }

  /** `arInstruction`: one line when the ratio is truthy, none otherwise. */
  function AspectLines(t: ModelType, ar: Option<string>): seq<string>
    requires TakesAspectRatio(t)
  {
    if Truthy(ar) then [AspectLine(t, ar.value)] else []
  }

  /** The lines of the template chosen for model type `t`; an unknown type has none. */
  function InstructionLines(p: Provider, t: ModelType, ar: Option<string>): seq<string> {
    match t
    case Nano => HeadLines(p, t) + AspectLines(t, ar) + CloseLines(t)
    case Jimeng => HeadLines(p, t) + AspectLines(t, ar) + CloseLines(t)
    case Midjourney => MIDJOURNEY_LINES
    case Other(_) => []
  }

  /**
   * `systemInstruction`: the template for the model type, with the aspect
   * ratio `ar` spliced in for Nano and Jimeng; `""` for an unknown type.
   */
  function SystemInstruction(p: Provider, t: ModelType, ar: Option<string>): (r: string)
    ensures r == "" <==> t.Other?
  {
    if t.Other? then ""
    else
      var lines := InstructionLines(p, t, ar);
      assert |lines| > 0 && |lines[0]| > 0;
      Render(p, lines)
  }

  /** The instruction text before the aspect-ratio line's place. */
  function BeforeAspect(p: Provider, t: ModelType): string
    requires TakesAspectRatio(t)
  {
    StartOf(p, HeadLines(p, t))
  }

  /** The instruction text after the aspect-ratio line's place. */
  function AfterAspect(p: Provider, t: ModelType): string
    requires TakesAspectRatio(t)
  {
    EndOf(p, CloseLines(t))
  }

  /**
   * For Nano and Jimeng, a truthy `ar` splices exactly one line break, the
   * indentation and the aspect-ratio line into the ratio-free instruction at
   * one fixed place; a falsy `ar` leaves the ratio-free instruction as it is.
   */
  lemma AspectRatioLine(p: Provider, t: ModelType, ar: Option<string>)
    requires TakesAspectRatio(t)
    ensures SystemInstruction(p, t, None) == BeforeAspect(p, t) + AfterAspect(p, t)
    ensures Truthy(ar) ==>
      SystemInstruction(p, t, ar) == BeforeAspect(p, t) + "\n" + IndentOf(p) + AspectLine(t, ar.value) + AfterAspect(p, t)
    ensures !Truthy(ar) ==> SystemInstruction(p, t, ar) == SystemInstruction(p, t, None)
  {
    var head, close := HeadLines(p, t), CloseLines(t);
    var line := if Truthy(ar) then AspectLine(t, ar.value) else "";
    assert head != [] && close != [];
    assert InstructionLines(p, t, None) == head + close;
    assert Truthy(ar) ==> InstructionLines(p, t, ar) == head + [line] + close;
    assert !Truthy(ar) ==> InstructionLines(p, t, ar) == head + close;
    RenderSplice(p, head, line, close);
  }

  /** The instruction of Nano or Jimeng differs from the ratio-free one exactly when `ar` is truthy. */
  lemma AspectRatioChangesInstructionIffTruthy(p: Provider, t: ModelType, ar: Option<string>)
    requires TakesAspectRatio(t)
    ensures Truthy(ar) <==> SystemInstruction(p, t, ar) != SystemInstruction(p, t, None)
  {
    AspectRatioLine(p, t, ar);
    if Truthy(ar) {
      assert |SystemInstruction(p, t, ar)| > |SystemInstruction(p, t, None)|;
    }
  }

  /** A truthy aspect ratio appears verbatim in the Nano and Jimeng instructions. */
  lemma AspectRatioEmbedded(p: Provider, t: ModelType, ar: Option<string>)
    requires TakesAspectRatio(t) && Truthy(ar)
    ensures Contains(SystemInstruction(p, t, ar), ar.value)
  {
    AspectRatioLine(p, t, ar);
    var pre := BeforeAspect(p, t) + "\n" + IndentOf(p);
    Regroup(pre, AspectLead(t), ar.value, AspectTrail(t), AfterAspect(p, t));
    ContainsMiddle(pre + AspectLead(t), ar.value, AspectTrail(t) + AfterAspect(p, t));
  }

  /** The Midjourney instruction does not depend on the aspect ratio at all. */
  lemma MidjourneyIgnoresAspectRatio(p: Provider, ar1: Option<string>, ar2: Option<string>)
    ensures SystemInstruction(p, Midjourney, ar1) == SystemInstruction(p, Midjourney, ar2)
  {
  }

  /** The Jimeng instruction always states the 800-character ceiling. */
  lemma JimengStatesLengthCeiling(p: Provider, ar: Option<string>)
    ensures Contains(SystemInstruction(p, Jimeng, ar), JIMENG_LENGTH_RULE)
  {
    var lines := InstructionLines(p, Jimeng, ar);
    assert lines[5] == JIMENG_LENGTH_RULE;
    RenderContainsLine(p, lines, 5);
  }

  /** The two services hold the same template lines except for the first line of Nano. */
  lemma ProvidersShareTemplates(t: ModelType, ar: Option<string>)
    ensures t != Nano ==> InstructionLines(OpenAI, t, ar) == InstructionLines(Gemini, t, ar)
    ensures t == Nano ==> InstructionLines(OpenAI, t, ar)[1..] == InstructionLines(Gemini, t, ar)[1..]
  {
  }

  const USER_MESSAGE_LEAD: string := "Optimize this prompt for "

  /** The user turn: `Optimize this prompt for {modelType}: "{userPrompt}"`. */
  function UserMessage(modelType: string, userPrompt: string): (r: string)
    ensures |r| == |USER_MESSAGE_LEAD| + |modelType| + |userPrompt| + 4
    ensures StartsWith(r, USER_MESSAGE_LEAD + modelType + ": \"")
    ensures r[|USER_MESSAGE_LEAD| + |modelType| + 3..|r| - 1] == userPrompt && r[|r| - 1] == '"'
  {
    USER_MESSAGE_LEAD + modelType + ": \"" + userPrompt + "\""
  }

  const TRANSLATOR_LEAD: string := "You are a professional translator. Your task is to translate the following AI art prompt into "
  const TRANSLATOR_TAIL: string := ". Provide a clear and accurate translation that captures the artistic intent. Output ONLY the translation."

  /** The default target language of both translation calls. */
  const DEFAULT_TARGET_LANGUAGE: string := "Chinese (Simplified)"

  /** The translator's system instruction, naming the target language. */
  function TranslatorInstruction(targetLanguage: string): (r: string)
    ensures |r| == |TRANSLATOR_LEAD| + |targetLanguage| + |TRANSLATOR_TAIL|
    ensures StartsWith(r, TRANSLATOR_LEAD) && EndsWith(r, TRANSLATOR_TAIL)
    ensures r[|TRANSLATOR_LEAD|..|TRANSLATOR_LEAD| + |targetLanguage|] == targetLanguage
  {
    var r := TRANSLATOR_LEAD + targetLanguage + TRANSLATOR_TAIL;
    assert r[..|TRANSLATOR_LEAD|] == TRANSLATOR_LEAD;
    assert r[|r| - |TRANSLATOR_TAIL|..] == TRANSLATOR_TAIL;
    r
  }

  /** `targetLanguage = 'Chinese (Simplified)'`: the default applies only when the argument is left out. */
  function TargetLanguage(targetLanguage: Option<string>): (r: string)
    ensures targetLanguage.None? ==> r == DEFAULT_TARGET_LANGUAGE && r == "Chinese (Simplified)"
    ensures targetLanguage.Some? ==> r == targetLanguage.value
  {
    if targetLanguage.Some? then targetLanguage.value else DEFAULT_TARGET_LANGUAGE
  }
}
