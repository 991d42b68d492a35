/** `getBestVoice`: a speech-synthesis voice chosen by seven preference tiers. */
module Voice {
  import opened Wrappers
  import Text

  /** The two fields of a `SpeechSynthesisVoice` the choice reads. */
  datatype Voice = Voice(name: string, lang: string)

  predicate IsGoogle(v: Voice) { Text.Includes(Text.ToLower(v.name), "google") }
  predicate IsFemale(v: Voice) { Text.Includes(Text.ToLower(v.name), "female") }
  predicate IsEnUs(v: Voice) { Text.StartsWith(v.lang, "en-US") }
  predicate IsEnglish(v: Voice) { Text.StartsWith(v.lang, "en") }

  /** The test of the `k`-th `voices.find` (1 to 6). */
  predicate Tier(k: int, v: Voice) {
    if k == 1 then IsGoogle(v) && IsEnUs(v) && IsFemale(v)
    else if k == 2 then IsGoogle(v) && IsEnUs(v)
    else if k == 3 then IsGoogle(v) && IsEnglish(v)
    else if k == 4 then IsEnUs(v) && IsFemale(v)
    else if k == 5 then IsEnUs(v)
    else if k == 6 then IsEnglish(v)
    else true
  }

  /** The best tier a voice belongs to; 7 is "any voice". */
  function Rank(v: Voice): (r: int)
    ensures 1 <= r <= 7 && Tier(r, v)
    ensures forall k :: 1 <= k < r ==> !Tier(k, v)
  {
    if Tier(1, v) then 1 else if Tier(2, v) then 2 else if Tier(3, v) then 3
    else if Tier(4, v) then 4 else if Tier(5, v) then 5 else if Tier(6, v) then 6 else 7
  }

  /** `voices.find(test)`, as the index of the first voice passing tier `k`. */
  function Find(voices: seq<Voice>, k: int, from: nat): (r: Option<nat>)
    requires from <= |voices|
    decreases |voices| - from
    ensures r.Some? ==> from <= r.value < |voices| && Tier(k, voices[r.value])
    ensures r.Some? ==> forall j :: from <= j < r.value ==> !Tier(k, voices[j])
    ensures r.None? ==> forall j :: from <= j < |voices| ==> !Tier(k, voices[j])
  {
    if from == |voices| then None
    else if Tier(k, voices[from]) then Some(from)
    else Find(voices, k, from + 1)
  }

  /** The chain of `if (!preferredVoice)` searches from tier `k` on, ending
      with `voices[0]`. */
  function PickFrom(voices: seq<Voice>, k: int): Voice
    requires voices != [] && 1 <= k <= 7
    decreases 7 - k
  {
    if k == 7 then voices[0]
    else match Find(voices, k, 0)
      case Some(i) => voices[i]
      case None => PickFrom(voices, k + 1)
  }

  /** `getBestVoice(synth)`, given what the two `getVoices()` calls return. */
  function GetBestVoice(firstCall: seq<Voice>, secondCall: seq<Voice>): Option<Voice> {
    var voices := if |firstCall| == 0 then secondCall else firstCall;
    if voices == [] then None else Some(PickFrom(voices, 1))
  }

  /** `v` is the earliest of the voices in the best tier present. */
  predicate IsBestVoice(voices: seq<Voice>, v: Voice) {
    exists i :: 0 <= i < |voices| && voices[i] == v
      && (forall j :: 0 <= j < |voices| ==> Rank(voices[i]) <= Rank(voices[j]))
      && (forall j :: 0 <= j < i ==> Rank(voices[i]) < Rank(voices[j]))
  }

  lemma {:induction false} PickFromMeaning(voices: seq<Voice>, k: int) returns (i: nat)
    requires voices != [] && 1 <= k <= 7
    requires forall j :: 0 <= j < |voices| ==> Rank(voices[j]) >= k
    decreases 7 - k
    ensures i < |voices| && PickFrom(voices, k) == voices[i]
    ensures forall j :: 0 <= j < |voices| ==> Rank(voices[i]) <= Rank(voices[j])
    ensures forall j :: 0 <= j < i ==> Rank(voices[i]) < Rank(voices[j])
  {
    if k == 7 {
      i := 0;
    } else {
      match Find(voices, k, 0)
      case Some(f) =>
        i := f;
      case None =>
        i := PickFromMeaning(voices, k + 1);
    }
  }

  /** No voice only when both calls return none; otherwise the first voice
      of the best tier, the first call's list being used when it is not empty. */
  lemma GetBestVoiceMeaning(firstCall: seq<Voice>, secondCall: seq<Voice>)
    ensures GetBestVoice(firstCall, secondCall) == None <==> firstCall == [] && secondCall == []
    ensures firstCall != [] ==> IsBestVoice(firstCall, GetBestVoice(firstCall, secondCall).value)
    ensures firstCall == [] && secondCall != [] ==>
      IsBestVoice(secondCall, GetBestVoice(firstCall, secondCall).value)
  {
    var voices := if |firstCall| == 0 then secondCall else firstCall;
    if voices != [] {
      var i := PickFromMeaning(voices, 1);
    }
  }
}
