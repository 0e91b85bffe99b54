/**
 * The text-to-speech voice configuration: the table of popular voice ids,
 * the name lookup with its fallback, and the default voice chosen when the
 * environment does not name one.
 */
module Voices {
  import opened Text

  datatype Voice = Voice(id: string, name: string)

  /** The popular voices, in declaration order. */
  const Popular: seq<Voice> := [
    Voice("21m00Tcm4TlvDq8ikWAM", "Rachel"),
    Voice("AZnzlk1XvdvUeBnXmlld", "Domi"),
    Voice("EXAVITQu4vr4xnSDxMaL", "Bella"),
    Voice("ErXwobaYiN1P8YdB9Qj", "Antoni"),
    Voice("GBv7mTt0atIp3Br8iCZE", "Thomas"),
    Voice("TxGEqnHWrfWFTfGW9XjX", "Josh"),
    Voice("VR6AewLTigWG4xSOukaG", "Arnold"),
    Voice("pNInz6obpgDQGcFmaJgB", "Adam"),
    Voice("yoZ06aMxZJJ28mfd3POQ", "Sam")
  ]

  const RachelId: string := "21m00Tcm4TlvDq8ikWAM"
  const Unknown: string := "Unknown Voice"

  /** The ids of the popular voices, as a lookup-table key set. */
  predicate Listed(id: string) {
    exists i :: 0 <= i < |Popular| && Popular[i].id == id
  }

  /** The name table built from the popular voices; a later entry with the
      same key would overwrite an earlier one. */
  function NameTable(voices: seq<Voice>): (t: map<string, string>)
    ensures forall id :: id in t <==> exists i :: 0 <= i < |voices| && voices[i].id == id
    decreases |voices|
  {
    if |voices| == 0 then map[]
    else NameTable(voices[..|voices| - 1])[voices[|voices| - 1].id := voices[|voices| - 1].name]
  }

  /** `voiceNames[voiceId] || 'Unknown Voice'`: a missing key, like an
      empty name, falls through to the fallback. */
  function VoiceName(id: string): (r: string)
    ensures r != ""
  {
    NameIn(Popular, id)
  }

  function NameIn(voices: seq<Voice>, id: string): (r: string)
    ensures r != ""
  {
    var t := NameTable(voices);
    if id in t && t[id] != "" then t[id] else Unknown
  }

  /** `process.env.NEXT_PUBLIC_ELEVENLABS_VOICE_ID || RACHEL`: an absent or
      empty override selects the Rachel voice. */
  function DefaultVoiceId(env: Option<string>): (r: string)
    ensures r != ""
    ensures env.Some? && env.value != "" ==> r == env.value
    ensures env.None? || env.value == "" ==> r == Popular[0].id
  {
    if env.Some? && env.value != "" then env.value else RachelId
  }

  /** No two popular voices share an id, so the table loses no entry. */
  lemma IdsDistinct()
    ensures forall i, j :: 0 <= i < j < |Popular| ==> Popular[i].id != Popular[j].id
  {
    forall i, j | 0 <= i < j < |Popular|
      ensures Popular[i].id != Popular[j].id
    {
      assert Popular[i].id[0] != Popular[j].id[0] || Popular[i].id[1] != Popular[j].id[1];
    }
  }

  /** Distinct ids make the table exact: each key maps to the name listed
      with it. */
  lemma {:induction false} TableExact(voices: seq<Voice>, i: nat)
    requires i < |voices|
    requires Distinct(voices)
    ensures voices[i].id in NameTable(voices)
    ensures NameTable(voices)[voices[i].id] == voices[i].name
    decreases |voices|
  {
    if i < |voices| - 1 {
      var init := voices[..|voices| - 1];
      assert voices[i].id != voices[|voices| - 1].id;
      TableExact(init, i);
      assert init[i] == voices[i];
    }
  }

  predicate Distinct(voices: seq<Voice>) {
    forall a, b :: 0 <= a < b < |voices| ==> voices[a].id != voices[b].id
  }

  /** Over a table with distinct ids and real names, the lookup names each
      listed id as listed, and falls back exactly for the ids not listed. */
  lemma NameInExact(voices: seq<Voice>, id: string)
    requires Distinct(voices)
    requires forall k :: 0 <= k < |voices| ==> voices[k].name != "" && voices[k].name != Unknown
    ensures forall i :: 0 <= i < |voices| && voices[i].id == id ==> NameIn(voices, id) == voices[i].name
    ensures NameIn(voices, id) == Unknown <==> forall i :: 0 <= i < |voices| ==> voices[i].id != id
  {
    forall i | 0 <= i < |voices| && voices[i].id == id
      ensures NameIn(voices, id) == voices[i].name
    {
      TableExact(voices, i);
    }
  }

  lemma PopularNames()
    ensures Distinct(Popular)
    ensures forall k :: 0 <= k < |Popular| ==> Popular[k].name != "" && Popular[k].name != Unknown
  {
    IdsDistinct();
  }

  /** Each popular id is named as listed. */
  lemma ListedNames(i: nat)
    requires i < |Popular|
    ensures VoiceName(Popular[i].id) == Popular[i].name
  {
    PopularNames();
    NameInExact(Popular, Popular[i].id);
  }

  /** The lookup answers the fallback exactly for the ids not in the table. */
  lemma UnlistedIsUnknown(id: string)
    ensures VoiceName(id) == Unknown <==> !Listed(id)
  {
    PopularNames();
    NameInExact(Popular, id);
  }

  /** With no override the configured voice is Rachel. */
  lemma DefaultIsRachel()
    ensures VoiceName(DefaultVoiceId(None)) == "Rachel"
  {
    ListedNames(0);
  }
}
