/**
 * The Midjourney parameter record and its editor
 * (src/components/MidjourneyControls.jsx): four named string fields, a
 * single-key update that builds a new record, and the values each control
 * offers.
 */
module MidjourneyControls {
  import opened Wrappers
  import opened Text
  import Constants

  /**
   * The `midjourneyParams` object. A field is `None` when the object lacks the
   * key (the services default the whole object to `{}`).
   */
  datatype Params = Params(ar: Option<string>, v: Option<string>, s: Option<string>, c: Option<string>)

  /** The four keys the controls edit: aspect ratio, version, stylize and chaos. */
  datatype Key = Ar | V | S | C

  /** `{}`: the default parameter object of both services. */
  const NO_PARAMS: Params := Params(None, None, None, None)

  /** `midjourneyParams = {}`: the default applies only when the argument is left out. */
  function ParamsOrDefault(midjourneyParams: Option<Params>): (p: Params)
    ensures midjourneyParams.None? ==> forall k :: Get(p, k) == None
    ensures midjourneyParams.Some? ==> p == midjourneyParams.value
  {
    if midjourneyParams.Some? then midjourneyParams.value else NO_PARAMS
  }

  /** `params[key]`. */
  function Get(p: Params, k: Key): Option<string> {
    match k
    case Ar => p.ar
    case V => p.v
    case S => p.s
    case C => p.c
  }

  /**
   * `handleChange(key, value)`: `{ ...params, [key]: value }`, a fresh record
   * in which `key` holds `value` and every other key what it held before.
   */
  function HandleChange(p: Params, k: Key, value: string): (r: Params)
    ensures Get(r, k) == Some(value)
    ensures forall k' :: k' != k ==> Get(r, k') == Get(p, k')
  {
    match k
    case Ar => p.(ar := Some(value))
    case V => p.(v := Some(value))
    case S => p.(s := Some(value))
    case C => p.(c := Some(value))
  }

  /** A record is determined by what its four keys hold. */
  lemma ParamsExtensional(p: Params, q: Params)
    requires forall k :: Get(p, k) == Get(q, k)
    ensures p == q
  {
    assert Get(p, Ar) == Get(q, Ar) && Get(p, V) == Get(q, V);
    assert Get(p, S) == Get(q, S) && Get(p, C) == Get(q, C);
  }

  /** Setting a key to the value it already holds gives back the same record. */
  lemma HandleChangeSameValue(p: Params, k: Key)
    requires Get(p, k).Some?
    ensures HandleChange(p, k, Get(p, k).value) == p
  {
    ParamsExtensional(HandleChange(p, k, Get(p, k).value), p);
  }

  /** The aspect-ratio select's six options. */
  const ASPECT_RATIO_OPTIONS: seq<string> := ["1:1", "16:9", "9:16", "4:3", "3:4", "21:9"]

  /** The version select's four options. */
  const VERSION_OPTIONS: seq<string> := ["6.0", "5.2", "5.1", "niji 6"]

  /** The stylize slider's range is 0..STYLIZE_MAX, the chaos slider's 0..CHAOS_MAX. */
  const STYLIZE_MAX: nat := 1000
  const CHAOS_MAX: nat := 100

  /** A range input's value: the decimal text of a whole number from 0 to `max`. */
  predicate IsDecimalUpTo(v: string, max: nat) {
    && |v| >= 1
    && (forall i :: 0 <= i < |v| ==> '0' <= v[i] <= '9')
    && (|v| > 1 ==> v[0] != '0')
    && ParseDecimal(v) <= max
  }

  /** Every position of a slider yields a value in its domain. */
  lemma SliderValueInDomain(n: nat, max: nat)
    requires n <= max
    ensures IsDecimalUpTo(NatToString(n), max)
  {
    ParseNatToString(n);
  }

  /** The values a control can produce for a key. */
  predicate InDomain(k: Key, value: string) {
    match k
    case Ar => value in ASPECT_RATIO_OPTIONS
    case V => value in VERSION_OPTIONS
    case S => IsDecimalUpTo(value, STYLIZE_MAX)
    case C => IsDecimalUpTo(value, CHAOS_MAX)
  }

  /** Every key holds a value its control can produce. */
  predicate Valid(p: Params) {
    forall k :: Get(p, k).Some? && InDomain(k, Get(p, k).value)
  }

  /** Editing a valid record with a value from the key's control keeps it valid. */
  lemma HandleChangePreservesValid(p: Params, k: Key, value: string)
    requires Valid(p) && InDomain(k, value)
    ensures Valid(HandleChange(p, k, value))
  {
    var r := HandleChange(p, k, value);
    forall k' ensures Get(r, k').Some? && InDomain(k', Get(r, k').value) {
      if k' != k {
        assert Get(p, k').Some? && InDomain(k', Get(p, k').value);
      }
    }
  }

  /** The six aspect-ratio options are the ids of `ASPECT_RATIOS`, in order, and are distinct. */
  lemma AspectRatioOptionsMatchConstants()
    ensures ASPECT_RATIO_OPTIONS == Constants.AspectRatioIds()
    ensures |ASPECT_RATIO_OPTIONS| == 6 && Constants.Distinct(ASPECT_RATIO_OPTIONS)
  {
    Constants.AspectRatiosWellFormed();
  }

  /** The four version options are distinct, and every control value is truthy. */
  lemma OptionsDistinctAndTruthy(k: Key, value: string)
    requires InDomain(k, value)
    ensures |VERSION_OPTIONS| == 4 && Constants.Distinct(VERSION_OPTIONS)
    ensures Truthy(Some(value))
  {
    assert VERSION_OPTIONS[0][2] != VERSION_OPTIONS[1][2] && VERSION_OPTIONS[1][2] != VERSION_OPTIONS[2][2];
    assert VERSION_OPTIONS[0][2] != VERSION_OPTIONS[2][2];
  }
}
