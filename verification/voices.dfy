/** The built-in voice table of the ElevenLabs adapter
    (internal/provider/elevenlabs/voices.go). */
module VoiceCatalog {

  /** Friendly names of commonly used voices, mapped to provider voice IDs. */
  const DefaultVoices: map<string, string> := map[
    "adam" := "pNInz6obpgDQGcFmaJgB",
    "aria" := "9BWtsMINqrJLrRacOk9x",
    "sarah" := "EXAVITQu4vr4xnSDxMaL",
    "laura" := "FGY2WhTYpPnrIDTdsKH5",
    "charlie" := "IKne3meq5aSn9XLyUdCD",
    "george" := "JBFqnCBsd6RMkjVDRZzb"
  ]

  /** The voice used when none is specified (Adam). */
  const DefaultVoiceID: string := "pNInz6obpgDQGcFmaJgB"

  /** A known name resolves to its ID; anything else is taken to be an ID already. */
  function GetVoiceID(nameOrId: string): (id: string)
    ensures nameOrId in DefaultVoices ==> id == DefaultVoices[nameOrId]
    ensures nameOrId !in DefaultVoices ==> id == nameOrId
  {
    if nameOrId in DefaultVoices then DefaultVoices[nameOrId] else nameOrId
  }

  lemma DefaultVoiceIsAdam()
    ensures "adam" in DefaultVoices && DefaultVoices["adam"] == DefaultVoiceID
    ensures GetVoiceID("adam") == DefaultVoiceID
  {
  }

  /** No ID in the table is also a name in it. */
  lemma IdsAreNotNames()
    ensures forall name :: name in DefaultVoices ==> DefaultVoices[name] !in DefaultVoices
  {
  }

  /** Resolving twice is the same as resolving once. */
  lemma GetVoiceIDIdempotent(nameOrId: string)
    ensures GetVoiceID(GetVoiceID(nameOrId)) == GetVoiceID(nameOrId)
  {
    IdsAreNotNames();
  }
}
