/**
 * `EnhancedModel` (player.py): the Live2D parameters whose id contains "Mouth", and
 * `update_mouth`, which writes one clamped value into each of them.
 */
module Mouth {
  const MouthTag := "Mouth"

  /** `sub` occurs in `s` starting at index `i`. */
  predicate MatchesAt(s: string, sub: string, i: nat) {
    i + |sub| <= |s| && s[i..i + |sub|] == sub
  }

  /** Python's `sub in s` on strings: `sub` is a contiguous substring of `s`. */
  function Contains(s: string, sub: string): (r: bool)
    ensures r ==> |sub| <= |s|
    ensures |sub| <= |s| && s[..|sub|] == sub ==> r
    ensures |sub| <= |s| && s[|s| - |sub|..] == sub ==> r
    decreases |s|
  {
    if |sub| > |s| then false
    else
      assert |sub| == |s| ==> s[|s| - |sub|..] == s[..|sub|];
      assert |sub| < |s| ==> s[1..][|s| - 1 - |sub|..] == s[|s| - |sub|..];
      s[..|sub|] == sub || (s != [] && Contains(s[1..], sub))
  }

  lemma {:induction false} ContainsIffOccurs(s: string, sub: string)
    ensures Contains(s, sub) <==> exists i: nat :: MatchesAt(s, sub, i)
    decreases |s|
  {
    if |sub| > |s| {
      forall i: nat ensures !MatchesAt(s, sub, i) { }
    } else if s[..|sub|] == sub {
      assert MatchesAt(s, sub, 0);
    } else {
      ContainsIffOccurs(s[1..], sub);
      forall i: nat ensures MatchesAt(s, sub, i + 1) <==> MatchesAt(s[1..], sub, i) {
        if i + 1 + |sub| <= |s| {
          assert s[1..][i..i + |sub|] == s[i + 1..i + 1 + |sub|];
        }
      }
      if exists i: nat :: MatchesAt(s, sub, i) {
        var i: nat :| MatchesAt(s, sub, i);
        assert i != 0;
        assert MatchesAt(s[1..], sub, i - 1);
      }
      if exists i: nat :: MatchesAt(s[1..], sub, i) {
        var i: nat :| MatchesAt(s[1..], sub, i);
        assert MatchesAt(s, sub, i + 1);
      }
    }
  }

  /** The list comprehension of `__init__`: the ids containing "Mouth", in their order. */
  function MouthParams(ids: seq<string>): (r: seq<string>)
    ensures forall p :: p in r <==> p in ids && Contains(p, MouthTag)
    ensures |r| <= |ids|
    decreases |ids|
  {
    if ids == [] then []
    else (if Contains(ids[0], MouthTag) then [ids[0]] else []) + MouthParams(ids[1..])
  }

  /** The filter keeps order: filtering a concatenation concatenates the filtered parts. */
  lemma {:induction false} MouthParamsAppend(a: seq<string>, b: seq<string>)
    ensures MouthParams(a + b) == MouthParams(a) + MouthParams(b)
    decreases |a|
  {
    if a == [] {
      assert a + b == b;
    } else {
      assert (a + b)[0] == a[0] && (a + b)[1..] == a[1..] + b;
      MouthParamsAppend(a[1..], b);
    }
  }

  /** `max(0.0, min(value, 1.0))`. */
  function Clamp(value: real): (r: real)
    ensures 0.0 <= r <= 1.0
    ensures 0.0 <= value <= 1.0 ==> r == value
    ensures value < 0.0 ==> r == 0.0
    ensures value > 1.0 ==> r == 1.0
  {
    var upper := if value <= 1.0 then value else 1.0;
    if 0.0 >= upper then 0.0 else upper
  }

  /**
   * The controller; `params` stands for the parameter values of the wrapped Live2D model,
   * which `SetParameterValue` overwrites.
   */
  class EnhancedModel {
    const paramIds: seq<string>
    const mouthParams: seq<string>
    var params: map<string, real>

    /** `paramIds` is what the loaded model's `GetParamIds()` returned. */
    constructor (paramIds: seq<string>, params: map<string, real>)
      ensures this.paramIds == paramIds && this.params == params
      ensures mouthParams == MouthParams(paramIds)
    {
      this.paramIds := paramIds;
      this.mouthParams := MouthParams(paramIds);
      this.params := params;
    }

    /** `update_mouth`: every mouth parameter gets the clamped value, nothing else changes. */
    method UpdateMouth(value: real)
      modifies this`params
      ensures forall p :: p in mouthParams ==> p in params && params[p] == Clamp(value)
      ensures forall p :: p in mouthParams ==> 0.0 <= params[p] <= 1.0
      ensures forall p :: p !in mouthParams ==>
                (p in params <==> p in old(params)) && (p in params ==> params[p] == old(params)[p])
    {
      for k := 0 to |mouthParams|
        invariant forall j :: 0 <= j < k ==> mouthParams[j] in params && params[mouthParams[j]] == Clamp(value)
        invariant forall p :: p !in mouthParams[..k] ==>
                    (p in params <==> p in old(params)) && (p in params ==> params[p] == old(params)[p])
      {
        var clampedValue := Clamp(value);
        params := params[mouthParams[k] := clampedValue];
        assert mouthParams[..k + 1] == mouthParams[..k] + [mouthParams[k]];
      }
      assert mouthParams[..|mouthParams|] == mouthParams;
    }
  }
}
