/** Voice tuning parameters and the voice catalogue entry (internal/domain/voice.go). */
module Voice {
  import opened Wrappers

  /** Every field is optional: an absent field means "not specified". The
      numeric values are opaque payloads that the server only chooses and
      forwards, never computes with. */
  datatype VoiceSettings = VoiceSettings(
    stability: Option<real>,
    similarityBoost: Option<real>,
    style: Option<real>,
    speed: Option<real>,
    useSpeakerBoost: Option<bool>)

  /** One selectable voice of a provider. */
  datatype Voice = Voice(
    voiceId: string,
    name: string,
    provider: string,
    language: string,
    gender: string,
    previewUrl: string)

  /** Settings with no field specified. */
  const Unset := VoiceSettings(None, None, None, None, None)

  predicate FullyPopulated(v: VoiceSettings) {
    && v.stability.Some?
    && v.similarityBoost.Some?
    && v.style.Some?
    && v.speed.Some?
    && v.useSpeakerBoost.Some?
  }

  function DefaultVoiceSettings(): (d: VoiceSettings)
    ensures FullyPopulated(d)
    ensures d.stability == Some(0.0) && d.similarityBoost == Some(1.0)
    ensures d.style == Some(0.0) && d.speed == Some(1.0)
    ensures d.useSpeakerBoost == Some(true)
  {
    VoiceSettings(Some(0.0), Some(1.0), Some(0.0), Some(1.0), Some(true))
  }

  /** The fields a merge receiver contributes: a nil receiver contributes none. */
  function Contribution(v: Option<VoiceSettings>): VoiceSettings {
    v.GetOr(Unset)
  }

  function Prefer<T>(theirs: Option<T>, mine: Option<T>): Option<T> {
    if theirs.Some? then theirs else mine
  }

  /** `v.Merge(other)`: a nil `other` returns the receiver itself; otherwise a
      fresh record takes each field from `other` when set there, and from the
      receiver (absent for a nil receiver) when not. */
  function Merge(v: Option<VoiceSettings>, other: Option<VoiceSettings>): (r: Option<VoiceSettings>)
    ensures other.None? ==> r == v
    ensures other.Some? ==> r.Some?
    ensures other.Some? && other.value.stability.Some? ==> r.value.stability == other.value.stability
    ensures other.Some? && other.value.stability.None? ==> r.value.stability == Contribution(v).stability
    ensures other.Some? && other.value.similarityBoost.Some? ==> r.value.similarityBoost == other.value.similarityBoost
    ensures other.Some? && other.value.similarityBoost.None? ==> r.value.similarityBoost == Contribution(v).similarityBoost
    ensures other.Some? && other.value.style.Some? ==> r.value.style == other.value.style
    ensures other.Some? && other.value.style.None? ==> r.value.style == Contribution(v).style
    ensures other.Some? && other.value.speed.Some? ==> r.value.speed == other.value.speed
    ensures other.Some? && other.value.speed.None? ==> r.value.speed == Contribution(v).speed
    ensures other.Some? && other.value.useSpeakerBoost.Some? ==> r.value.useSpeakerBoost == other.value.useSpeakerBoost
    ensures other.Some? && other.value.useSpeakerBoost.None? ==> r.value.useSpeakerBoost == Contribution(v).useSpeakerBoost
  {
    match other
    case None => v
    case Some(o) =>
      var base := Contribution(v);
      Some(VoiceSettings(
        Prefer(o.stability, base.stability),
        Prefer(o.similarityBoost, base.similarityBoost),
        Prefer(o.style, base.style),
        Prefer(o.speed, base.speed),
        Prefer(o.useSpeakerBoost, base.useSpeakerBoost)))
  }

  /** A fully populated `other` overrides the receiver completely. */
  lemma MergeFullyPopulated(v: Option<VoiceSettings>, o: VoiceSettings)
    requires FullyPopulated(o)
    ensures Merge(v, Some(o)) == Some(o)
  {
  }

  /** With a nil receiver nothing is invented: the result is `other` as given,
      so a field absent there stays absent. */
  lemma MergeIntoNil(o: VoiceSettings)
    ensures Merge(None, Some(o)) == Some(o)
  {
  }

  /** Merging settings with themselves changes nothing. */
  lemma MergeSelf(v: Option<VoiceSettings>)
    ensures Merge(v, v) == v
  {
  }

  /** Merging is associative, so layering defaults, then configuration, then
      request settings gives the same result however the layers are grouped. */
  lemma MergeAssociative(a: Option<VoiceSettings>, b: Option<VoiceSettings>, c: Option<VoiceSettings>)
    ensures Merge(Merge(a, b), c) == Merge(a, Merge(b, c))
  {
  }

  /** Anything merged onto the defaults is fully populated. */
  lemma MergeOntoDefaults(o: Option<VoiceSettings>)
    ensures Merge(Some(DefaultVoiceSettings()), o).Some?
    ensures FullyPopulated(Merge(Some(DefaultVoiceSettings()), o).value)
  {
  }
}
