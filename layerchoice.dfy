/** Choice of the feature-type layer to query: an explicit name wins; else the
    first discovered layer whose lower-cased name mentions "building" or "lod",
    else the first discovered layer; no discovered layer is an error. */
module LayerChoice {
  import opened Wrappers

  function LowerChar(c: char): char {
    if 'A' <= c <= 'Z' then (c as int + 32) as char else c
  }

  /** ASCII lower-casing, character by character. */
  function Lower(s: string): (r: string)
    ensures |r| == |s|
    ensures forall i :: 0 <= i < |s| ==> r[i] == LowerChar(s[i])
  {
    if |s| == 0 then [] else [LowerChar(s[0])] + Lower(s[1..])
  }

  /** `t` occurs in `s` at some position (Python's `t in s`), by scanning
      the start positions of `s` in order. */
  function HasInfix(s: string, t: string): bool
    decreases |s|
  {
    |t| <= |s| && (s[..|t|] == t || HasInfix(s[1..], t))
  }

  ghost predicate OccursAt(s: string, t: string, i: int) {
    0 <= i && i + |t| <= |s| && s[i..i + |t|] == t
  }

  /** The scan finds `t` exactly when it occurs at some position. */
  lemma {:induction false} HasInfixIff(s: string, t: string)
    ensures HasInfix(s, t) <==> exists i :: OccursAt(s, t, i)
    decreases |s|
  {
    if |t| <= |s| {
      if s[..|t|] == t {
        assert OccursAt(s, t, 0);
      } else {
        HasInfixIff(s[1..], t);
        if HasInfix(s[1..], t) {
          var i :| OccursAt(s[1..], t, i);
          assert s[i + 1..i + 1 + |t|] == s[1..][i..i + |t|];
          assert OccursAt(s, t, i + 1);
        }
        if exists i :: OccursAt(s, t, i) {
          var i :| OccursAt(s, t, i);
          assert i != 0;
          assert s[1..][i - 1..i - 1 + |t|] == s[i..i + |t|];
          assert OccursAt(s[1..], t, i - 1);
        }
      }
    }
  }

  predicate IsBuildingLayer(name: string) {
    HasInfix(Lower(name), "building") || HasInfix(Lower(name), "lod")
  }

  /** Index of the first building-like layer, if any. */
  function FirstBuildingLayer(layers: seq<string>): (r: Option<nat>)
    ensures r.Some? ==> r.value < |layers| && IsBuildingLayer(layers[r.value])
    ensures r.Some? ==> forall j :: 0 <= j < r.value ==> !IsBuildingLayer(layers[j])
    ensures r.None? ==> forall j :: 0 <= j < |layers| ==> !IsBuildingLayer(layers[j])
  {
    if |layers| == 0 then None
    else if IsBuildingLayer(layers[0]) then Some(0)
    else match FirstBuildingLayer(layers[1..])
      case None => None
      case Some(k) => Some(k + 1)
  }

  /** `layerName` is the explicitly configured layer; `discovered` is what the
      capabilities query listed (empty when that query failed). */
  function ChooseLayer(layerName: Option<string>, discovered: seq<string>): (r: Result<string, DownloadError>)
    ensures layerName.Some? ==> r == Success(layerName.value)
    ensures layerName.None? && |discovered| == 0 ==> r == Failure(NoLayerList)
    ensures layerName.None? && |discovered| > 0 ==>
      r.Success? &&
      ((exists k :: 0 <= k < |discovered| && IsBuildingLayer(discovered[k])) ==>
         exists k :: 0 <= k < |discovered| && r.value == discovered[k] && IsBuildingLayer(discovered[k]) &&
           forall j :: 0 <= j < k ==> !IsBuildingLayer(discovered[j])) &&
      ((forall k :: 0 <= k < |discovered| ==> !IsBuildingLayer(discovered[k])) ==>
         r.value == discovered[0])
  {
    match layerName
    case Some(name) => Success(name)
    case None =>
      if |discovered| == 0 then Failure(NoLayerList)
      else match FirstBuildingLayer(discovered)
        case Some(k) => Success(discovered[k])
        case None => Success(discovered[0])
  }
}
