/** The identifiers and option lists shared by the services and the components (src/constants.js). */
module Constants {

  const MODEL_NANO: string := "nano-banana"
  const MODEL_JIMENG: string := "jimeng"
  const MODEL_MIDJOURNEY: string := "midjourney"

  /** `GEMINI_MODELS`. */
  const GEMINI_PRO_PREVIEW: string := "gemini-3-pro-preview"
  const GEMINI_PRO: string := "gemini-2.5-pro"
  const GEMINI_FLASH: string := "gemini-2.5-flash"

  /**
   * The target image model. The services compare a free string against the
   * three identifiers, so any other string is kept as `Other`.
   */
  datatype ModelType = Nano | Jimeng | Midjourney | Other(id: string)

  /** The string a model type stands for. */
  function IdOf(m: ModelType): string {
    match m
    case Nano => MODEL_NANO
    case Jimeng => MODEL_JIMENG
    case Midjourney => MODEL_MIDJOURNEY
    case Other(id) => id
  }

  /** The `modelType === MODEL_…` comparison chain: which template family a string selects. */
  function ModelTypeOf(id: string): (m: ModelType)
    ensures IdOf(m) == id
    ensures m.Other? <==> id != MODEL_NANO && id != MODEL_JIMENG && id != MODEL_MIDJOURNEY
  {
    if id == MODEL_NANO then Nano
    else if id == MODEL_JIMENG then Jimeng
    else if id == MODEL_MIDJOURNEY then Midjourney
    else Other(id)
  }

  /** A model type is canonical when an `Other` does not hide one of the three identifiers. */
  predicate Canonical(m: ModelType) {
    m.Other? ==> m.id != MODEL_NANO && m.id != MODEL_JIMENG && m.id != MODEL_MIDJOURNEY
  }

  /** Classifying the identifier of a canonical model type gives it back. */
  lemma ModelTypeRoundTrip(m: ModelType)
    requires Canonical(m)
    ensures ModelTypeOf(IdOf(m)) == m
  {
  }

  /** The three identifiers are pairwise distinct, so each selects its own branch. */
  lemma ModelIdsDistinct()
    ensures MODEL_NANO != MODEL_JIMENG && MODEL_NANO != MODEL_MIDJOURNEY && MODEL_JIMENG != MODEL_MIDJOURNEY
  {
    assert MODEL_NANO[0] != MODEL_JIMENG[0] && MODEL_NANO[0] != MODEL_MIDJOURNEY[0];
    assert MODEL_JIMENG[0] != MODEL_MIDJOURNEY[0];
  }

  /** One entry of `ASPECT_RATIOS`. */
  datatype AspectRatio = AspectRatio(id: string, labelText: string)

  const ASPECT_RATIOS: seq<AspectRatio> := [
    AspectRatio("1:1", "1:1 (Square)"),
    AspectRatio("16:9", "16:9 (Landscape)"),
    AspectRatio("9:16", "9:16 (Portrait)"),
    AspectRatio("4:3", "4:3 (Photo)"),
    AspectRatio("3:4", "3:4 (Portrait Photo)"),
    AspectRatio("21:9", "21:9 (Cinematic)")
  ]

  /** The ids of `ASPECT_RATIOS`, in order. */
  function AspectRatioIds(): (ids: seq<string>)
    ensures |ids| == |ASPECT_RATIOS|
    ensures forall i :: 0 <= i < |ids| ==> ids[i] == ASPECT_RATIOS[i].id
  {
    seq(|ASPECT_RATIOS|, i requires 0 <= i < |ASPECT_RATIOS| => ASPECT_RATIOS[i].id)
  }

  /** No two entries of a list are equal. */
  predicate Distinct(xs: seq<string>) {
    forall i, j :: 0 <= i < j < |xs| ==> xs[i] != xs[j]
  }

  /** `ASPECT_RATIOS` has six entries with distinct ids, and every label starts with its id. */
  lemma AspectRatiosWellFormed()
    ensures |ASPECT_RATIOS| == 6
    ensures Distinct(AspectRatioIds())
    ensures forall i :: 0 <= i < |ASPECT_RATIOS| ==>
              var e := ASPECT_RATIOS[i]; |e.id| <= |e.labelText| && e.labelText[..|e.id|] == e.id
  {
    var ids := AspectRatioIds();
    assert ids == ["1:1", "16:9", "9:16", "4:3", "3:4", "21:9"];
  }
}
