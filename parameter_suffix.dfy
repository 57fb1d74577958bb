/**
 * The Midjourney post-processing step shared by both services
 * (src/services/openai.js and src/services/gemini.js): after the model's
 * reply is trimmed, every truthy parameter becomes a `--flag value` token,
 * and the reply is extended by a space and the tokens joined by spaces.
 */
module ParameterSuffix {
  import opened Wrappers
  import opened Text
  import opened MidjourneyControls
  import Constants

  /** The command-line flag written for each key, with its trailing space. */
  function Flag(k: Key): string {
    match k
    case Ar => "--ar "
    case V => "--v "
    case S => "--stylize "
    case C => "--chaos "
  }

  /** The token of one key: `[k]` when the key's value is truthy, nothing otherwise. */
  function TokenOf(p: Params, k: Key): seq<string> {
    if Truthy(Get(p, k)) then [Flag(k) + Get(p, k).value] else []
  }

  /** The tokens, in the order the source pushes them: ar, v, stylize, chaos. */
  function Tokens(p: Params): (ts: seq<string>)
    ensures |ts| <= 4
    ensures ts == [] <==> !Truthy(p.ar) && !Truthy(p.v) && !Truthy(p.s) && !Truthy(p.c)
  {
    TokenOf(p, Ar) + TokenOf(p, V) + TokenOf(p, S) + TokenOf(p, C)
  }

  /**
   * The post-processing step itself: the `params` array is built by four
   * guarded pushes, then `responseText += " " + params.join(" ")`.
   */
  method AppendParameters(responseText: string, p: Params) returns (out: string)
    ensures out == responseText + " " + Join(Tokens(p), " ")
  {
    var params: seq<string> := [];
    if Truthy(p.ar) {
      params := params + ["--ar " + p.ar.value];
    }
    if Truthy(p.v) {
      params := params + ["--v " + p.v.value];
    }
    if Truthy(p.s) {
      params := params + ["--stylize " + p.s.value];
    }
    if Truthy(p.c) {
      params := params + ["--chaos " + p.c.value];
    }
    assert params == Tokens(p);
    out := responseText + " " + Join(params, " ");
  }

  /** The position of a key in the push order. */
  function Rank(k: Key): nat {
    match k
    case Ar => 0
    case V => 1
    case S => 2
    case C => 3
  }

  /** A token starts with exactly one of the four flags: the third character tells them apart. */
  lemma FlagsDistinguishable(k: Key, k': Key, v: string)
    ensures StartsWith(Flag(k) + v, Flag(k')) <==> k == k'
  {
    var t := Flag(k) + v;
    assert t[2] == Flag(k)[2];
    if k != k' {
      assert Flag(k)[2] != Flag(k')[2];
    }
  }

  /**
   * Reading tokens back: a token carrying one of the four flags sets that key
   * to the rest of the token; any other token is ignored.
   */
  function ReadToken(acc: Params, t: string): Params {
    if StartsWith(t, Flag(Ar)) then acc.(ar := Some(t[|Flag(Ar)|..]))
    else if StartsWith(t, Flag(V)) then acc.(v := Some(t[|Flag(V)|..]))
    else if StartsWith(t, Flag(S)) then acc.(s := Some(t[|Flag(S)|..]))
    else if StartsWith(t, Flag(C)) then acc.(c := Some(t[|Flag(C)|..]))
    else acc
  }

  /** Reads a list of tokens from left to right, starting from `acc`. */
  function ReadTokens(ts: seq<string>, acc: Params): Params
    decreases |ts|
  {
    if ts == [] then acc else ReadTokens(ts[1..], ReadToken(acc, ts[0]))
  }

  lemma {:induction false} ReadTokensAppend(a: seq<string>, b: seq<string>, acc: Params)
    ensures ReadTokens(a + b, acc) == ReadTokens(b, ReadTokens(a, acc))
    decreases |a|
  {
    if a == [] {
      assert a + b == b;
    } else {
      assert (a + b)[1..] == a[1..] + b;
      ReadTokensAppend(a[1..], b, ReadToken(acc, a[0]));
    }
  }

  /** Reading one key's token sets exactly that key, to the value written. */
  lemma ReadTokenOf(p: Params, k: Key, acc: Params)
    ensures ReadTokens(TokenOf(p, k), acc)
         == if Truthy(Get(p, k)) then HandleChange(acc, k, Get(p, k).value) else acc
  {
    if Truthy(Get(p, k)) {
      var v := Get(p, k).value;
      var t := Flag(k) + v;
      assert TokenOf(p, k) == [t];
      assert TokenOf(p, k)[1..] == [];
      FlagsDistinguishable(k, Ar, v);
      FlagsDistinguishable(k, V, v);
      FlagsDistinguishable(k, S, v);
      FlagsDistinguishable(k, C, v);
      assert t[|Flag(k)|..] == v;
      ParamsExtensional(ReadToken(acc, t), HandleChange(acc, k, v));
    }
  }

  /** The parameters with every falsy value dropped: what the tokens carry. */
  function TruthyPart(p: Params): (r: Params)
    ensures forall k :: Get(r, k) == if Truthy(Get(p, k)) then Get(p, k) else None
  {
    Params(if Truthy(p.ar) then p.ar else None,
           if Truthy(p.v) then p.v else None,
           if Truthy(p.s) then p.s else None,
           if Truthy(p.c) then p.c else None)
  }

  /**
   * Round trip: reading the tokens back recovers every truthy parameter and
   * nothing else, so no value is lost, duplicated or attached to the wrong flag.
   */
  lemma TokensRoundTrip(p: Params)
    ensures ReadTokens(Tokens(p), NO_PARAMS) == TruthyPart(p)
  {
    var a, v, s, c := TokenOf(p, Ar), TokenOf(p, V), TokenOf(p, S), TokenOf(p, C);
    ReadTokensAppend(a + v + s, c, NO_PARAMS);
    ReadTokensAppend(a + v, s, NO_PARAMS);
    ReadTokensAppend(a, v, NO_PARAMS);
    var r0 := ReadTokens(a, NO_PARAMS);
    ReadTokenOf(p, Ar, NO_PARAMS);
    var r1 := ReadTokens(v, r0);
    ReadTokenOf(p, V, r0);
    var r2 := ReadTokens(s, r1);
    ReadTokenOf(p, S, r1);
    ReadTokenOf(p, C, r2);
    ParamsExtensional(ReadTokens(Tokens(p), NO_PARAMS), TruthyPart(p));
  }

  /** Each token is a flag followed by its truthy value, and each truthy value yields a token. */
  lemma TokensSoundAndComplete(p: Params, k: Key)
    ensures (exists t :: t in Tokens(p) && StartsWith(t, Flag(k)))
        <==> Truthy(Get(p, k))
    ensures Truthy(Get(p, k)) ==> Flag(k) + Get(p, k).value in Tokens(p)
  {
    var ts := Tokens(p);
    forall t | t in ts && StartsWith(t, Flag(k)) ensures Truthy(Get(p, k)) {
      var j: Key :| t in TokenOf(p, j);
      FlagsDistinguishable(j, k, Get(p, j).value);
    }
    if Truthy(Get(p, k)) {
      var t := Flag(k) + Get(p, k).value;
      assert t in TokenOf(p, k);
      assert StartsWith(t, Flag(k));
    }
  }

  /** Tokens come in the push order, so no flag appears twice. */
  lemma TokensOrdered(p: Params, i: nat, j: nat, ki: Key, kj: Key)
    requires i < j < |Tokens(p)|
    requires StartsWith(Tokens(p)[i], Flag(ki)) && StartsWith(Tokens(p)[j], Flag(kj))
    ensures Rank(ki) < Rank(kj)
  {
    var ts := Tokens(p);
    KeyOfTokenFacts(p, i);
    KeyOfTokenFacts(p, j);
    FlagsDistinguishable(KeyOfToken(p, i), ki, Get(p, KeyOfToken(p, i)).value);
    FlagsDistinguishable(KeyOfToken(p, j), kj, Get(p, KeyOfToken(p, j)).value);
  }

  /** The number of truthy keys before `k` in the push order. */
  function CountBefore(p: Params, k: Key): nat {
    match k
    case Ar => 0
    case V => |TokenOf(p, Ar)|
    case S => |TokenOf(p, Ar)| + |TokenOf(p, V)|
    case C => |TokenOf(p, Ar)| + |TokenOf(p, V)| + |TokenOf(p, S)|
  }

  /** The key whose token sits at position `n`. */
  function KeyOfToken(p: Params, n: nat): Key
    requires n < |Tokens(p)|
  {
    if n < CountBefore(p, V) then Ar
    else if n < CountBefore(p, S) then V
    else if n < CountBefore(p, C) then S
    else C
  }

  lemma KeyOfTokenFacts(p: Params, n: nat)
    requires n < |Tokens(p)|
    ensures var k := KeyOfToken(p, n);
      Truthy(Get(p, k)) && Tokens(p)[n] == Flag(k) + Get(p, k).value
    ensures forall m :: n < m < |Tokens(p)| ==> Rank(KeyOfToken(p, n)) < Rank(KeyOfToken(p, m))
  {
  }

  /** With no truthy parameter the reply still gains one trailing space. */
  lemma NoParametersLeavesTrailingSpace(responseText: string, p: Params)
    requires !Truthy(p.ar) && !Truthy(p.v) && !Truthy(p.s) && !Truthy(p.c)
    ensures responseText + " " + Join(Tokens(p), " ") == responseText + " "
  {
  }

  /**
   * What a service returns for the model's raw reply text: the reply trimmed,
   * and for the Midjourney target the parameter suffix after it.
   */
  function Finished(modelType: string, p: Params, reply: string): (r: string)
    ensures StartsWith(r, Trim(reply))
  {
    if modelType == Constants.MODEL_MIDJOURNEY then
      SuffixAfter(Trim(reply), Join(Tokens(p), " "));
      Trim(reply) + " " + Join(Tokens(p), " ")
    else Trim(reply)
  }

  /** `responseText = ....trim()` followed by the Midjourney post-processing. */
  method FinishReply(modelType: string, p: Params, reply: string) returns (out: string)
    ensures out == Finished(modelType, p, reply)
  {
    out := Trim(reply);
    if modelType == Constants.MODEL_MIDJOURNEY {
      out := AppendParameters(out, p);
    }
  }

  /**
   * For targets other than Midjourney the finished text is the trimmed reply,
   * with no whitespace at either end; for Midjourney a single space and the
   * joined tokens follow the trimmed reply.
   */
  lemma FinishedShape(modelType: string, p: Params, reply: string)
    ensures var r := Finished(modelType, p, reply);
      modelType != Constants.MODEL_MIDJOURNEY ==>
        r == Trim(reply) && (r != "" ==> !IsJsWhitespace(r[0]) && !IsJsWhitespace(r[|r| - 1]))
    ensures var r := Finished(modelType, p, reply); var n := |Trim(reply)|;
      modelType == Constants.MODEL_MIDJOURNEY ==>
        |r| > n && r[n] == ' ' && r[n + 1..] == Join(Tokens(p), " ")
  {
    var t, j := Trim(reply), Join(Tokens(p), " ");
    if modelType == Constants.MODEL_MIDJOURNEY {
      SuffixAfter(t, j);
    }
  }

  /** The pieces of `t + " " + j`. */
  lemma SuffixAfter(t: string, j: string)
    ensures StartsWith(t + " " + j, t)
    ensures |t + " " + j| > |t| && (t + " " + j)[|t|] == ' ' && (t + " " + j)[|t| + 1..] == j
  {
    var r := t + " " + j;
    assert r == t + (" " + j);
    assert r[..|t|] == t;
  }
}
