/** The audio settings asset: category volumes, kept in [0, 1] by their
    setters, and the maximum numbers of simultaneous sounds. */
module Settings {
  import opened Engine

  const DefaultMaxSECount: int := 10
  const DefaultMaxBGMCount: int := 1

  /** Clamping twice clamps once, so a setter applied twice with the same value
      leaves the same volume as applying it once. */
  lemma Clamp01Idempotent(value: real)
    ensures Clamp01(Clamp01(value)) == Clamp01(value)
  {
  }

  class AudioSettings {
    var seVolume: real
    var bgmVolume: real
    var maxSECount: int
    var maxBGMCount: int

    /** Both category volumes lie in [0, 1]. */
    ghost predicate Valid()
      reads this
    {
      0.0 <= seVolume <= 1.0 && 0.0 <= bgmVolume <= 1.0
    }

    /** A freshly created settings asset: silent volumes and the default counts. */
    constructor ()
      ensures Valid()
      ensures seVolume == 0.0 && bgmVolume == 0.0
      ensures maxSECount == DefaultMaxSECount && maxBGMCount == DefaultMaxBGMCount
    {
      seVolume := 0.0;
      bgmVolume := 0.0;
      maxSECount := DefaultMaxSECount;
      maxBGMCount := DefaultMaxBGMCount;
    }

    /** The SE volume; in [0, 1] whenever the settings are valid. */
    function SEVolume(): (volume: real)
      reads this
      ensures Valid() ==> 0.0 <= volume <= 1.0
    {
      seVolume
    }

    /** The BGM volume; in [0, 1] whenever the settings are valid. */
    function BGMVolume(): (volume: real)
      reads this
      ensures Valid() ==> 0.0 <= volume <= 1.0
    {
      bgmVolume
    }

    /** Stores the value clamped to [0, 1] as the SE volume and touches nothing else. */
    method SetSEVolume(value: real)
      modifies this`seVolume
      ensures seVolume == Clamp01(value)
      ensures 0.0 <= seVolume <= 1.0
      ensures old(Valid()) ==> Valid()
    {
      seVolume := Clamp01(value);
    }

    /** Stores the value clamped to [0, 1] as the BGM volume and touches nothing else. */
    method SetBGMVolume(value: real)
      modifies this`bgmVolume
      ensures bgmVolume == Clamp01(value)
      ensures 0.0 <= bgmVolume <= 1.0
      ensures old(Valid()) ==> Valid()
    {
      bgmVolume := Clamp01(value);
    }
  }
}
