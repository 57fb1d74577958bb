/**
 * The result panel (src/components/ResultDisplay.jsx): reading a stored
 * result in either of its two shapes, the layout that depends on the
 * translation, and the `copied` and `isTranslating` flags its handlers flip.
 */
module ResultDisplay {
  import opened Wrappers
  import opened Text

  /**
   * A stored result: the legacy shape is the prompt string itself, the
   * current shape an object with a `prompt` and an optional `translation`.
   */
  datatype StoredResult = Legacy(text: string) | Structured(prompt: string, translation: Option<string>)

  /** `promptText`: the string itself, or the object's `prompt`. */
  function PromptText(r: StoredResult): (s: string)
    ensures r.Legacy? ==> s == r.text
    ensures r.Structured? ==> s == r.prompt
  {
    match r
    case Legacy(text) => text
    case Structured(prompt, _) => prompt
  }

  /** `translationText`: `null` for the legacy shape, the object's `translation` otherwise. */
  function TranslationText(r: StoredResult): (t: Option<string>)
    ensures r.Legacy? ==> t == None
    ensures r.Structured? ==> t == r.translation
  {
    match r
    case Legacy(_) => None
    case Structured(_, translation) => translation
  }

  /**
   * A legacy result reads exactly like an object with the same prompt and no
   * translation, and each shape's fields are read back unchanged.
   */
  lemma LegacyReadsAsUntranslated(text: string, prompt: string, translation: Option<string>)
    ensures PromptText(Legacy(text)) == PromptText(Structured(text, None)) == text
    ensures TranslationText(Legacy(text)) == TranslationText(Structured(text, None)) == None
    ensures PromptText(Structured(prompt, translation)) == prompt
    ensures TranslationText(Structured(prompt, translation)) == translation
  {
  }

  /** The grid has two columns exactly when the translation is truthy. */
  predicate TwoColumns(r: StoredResult) {
    Truthy(TranslationText(r))
  }

  /** The translate button takes the second cell when there is no translation to show. */
  predicate ShowsTranslateButton(r: StoredResult) {
    !Truthy(TranslationText(r))
  }

  /**
   * Exactly one of the translation column and the translate button is on
   * screen, and a legacy result always offers the button.
   */
  lemma TranslationOrButton(r: StoredResult)
    ensures TwoColumns(r) != ShowsTranslateButton(r)
    ensures r.Legacy? ==> ShowsTranslateButton(r)
    ensures TwoColumns(r) <==> r.Structured? && r.translation.Some? && r.translation.value != ""
  {
  }

  /** How long the "Copied!" state lasts, in milliseconds. */
  const COPIED_RESET_MS: nat := 2000

  /** The panel's local state. */
  class ResultPanel {
    var copied: bool
    var isTranslating: bool

    constructor ()
      ensures !copied && !isTranslating
    {
      copied := false;
      isTranslating := false;
    }

    /**
     * `handleCopy`: the clipboard receives the prompt (never the
     * translation) and the button shows "Copied!".
     */
    method HandleCopy(r: StoredResult) returns (clipboard: string)
      modifies this
      ensures clipboard == PromptText(r)
      ensures copied && isTranslating == old(isTranslating)
    {
      clipboard := PromptText(r);
      copied := true;
    }

    /** The timer callback `COPIED_RESET_MS` after a copy. */
    method CopiedTimeout()
      modifies this
      ensures !copied && isTranslating == old(isTranslating)
    {
      copied := false;
    }

    /** `handleTranslateClick` up to its `await`: the button turns into a disabled spinner. */
    method BeginTranslate()
      modifies this
      ensures isTranslating && copied == old(copied)
      ensures TranslateDisabled()
    {
      isTranslating := true;
    }

    /**
     * `handleTranslateClick` after its `await`. Only a resolved `onTranslate`
     * resets the flag: with no `finally`, a rejection leaves the button
     * disabled.
     */
    method SettleTranslate(resolved: bool)
      modifies this
      ensures isTranslating == (old(isTranslating) && !resolved)
      ensures TranslateDisabled() <==> old(TranslateDisabled()) && !resolved
      ensures copied == old(copied)
    {
      if resolved {
        isTranslating := false;
      }
    }

    /** `disabled={isTranslating}`: the translate button is disabled exactly while a translation is pending. */
    predicate TranslateDisabled(): (disabled: bool)
      reads this
      ensures disabled <==> isTranslating
    {
      isTranslating
    }
  }
}
