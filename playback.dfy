/** One playback channel: a wrapper around an engine audio source that guards
    every volume and pitch change and remembers the requested base volume. */
module Playback {
  import opened Engine

  /** The volumes the player accepts. */
  predicate VolumeInRange(volume: real) { 0.0 <= volume <= 1.0 }

  /** The pitches the player accepts. */
  predicate PitchInRange(pitch: real) { -3.0 <= pitch <= 3.0 }

  class AudioPlayer {
    const source: AudioSource
    var baseVolume: real

    /** The base volume only ever holds an accepted volume. */
    ghost predicate Valid()
      reads this
    {
      VolumeInRange(baseVolume)
    }

    constructor (audioSource: AudioSource)
      ensures Valid()
      ensures source == audioSource && baseVolume == 1.0
    {
      source := audioSource;
      baseVolume := 1.0;
    }

    /** A pure query: it reports the source's play state and changes nothing. */
    method IsPlaying() returns (playing: bool)
      ensures playing == source.isPlaying
    {
      playing := source.isPlaying;
    }

    /** Accepts exactly the volumes in [0, 1]; an accepted volume becomes both the
        base volume and the source's volume, a rejected one changes neither. */
    method SetVolume(volume: real)
      requires Valid()
      modifies this`baseVolume, source`volume
      ensures Valid()
      ensures VolumeInRange(volume) ==> baseVolume == volume && source.volume == volume
      ensures !VolumeInRange(volume) ==> baseVolume == old(baseVolume) && source.volume == old(source.volume)
    {
      if volume < 0.0 || volume > 1.0 {
        return;
      }
      baseVolume := volume;
      source.volume := baseVolume;
    }

    /** Sets the loop flag, whatever its value. */
    method SetLoop(loop: bool)
      modifies source`loop
      ensures source.loop == loop
    {
      source.loop := loop;
    }

    /** Accepts exactly the pitches in [-3, 3]; a rejected pitch changes nothing. */
    method SetPitch(pitch: real)
      modifies source`pitch
      ensures PitchInRange(pitch) ==> source.pitch == pitch
      ensures !PitchInRange(pitch) ==> source.pitch == old(source.pitch)
    {
      if pitch < -3.0 || pitch > 3.0 {
        return;
      }
      source.pitch := pitch;
    }

    /** Without a clip nothing changes. With a clip, the clip and loop flag are
        assigned and playback starts even when the volume or the pitch is
        rejected: a rejected value leaves the previous one in place. */
    method Play(clip: Option<AudioClip>, volume: real := 1.0, pitch: real := 1.0, loop: bool := false)
      requires Valid()
      modifies this`baseVolume, source`clip, source`volume, source`pitch, source`loop, source`isPlaying
      ensures Valid()
      ensures clip == None ==> baseVolume == old(baseVolume) && unchanged(source)
      ensures clip != None ==> source.clip == clip && source.loop == loop && source.isPlaying
      ensures clip != None && VolumeInRange(volume) ==> baseVolume == volume && source.volume == volume
      ensures clip != None && !VolumeInRange(volume) ==>
                baseVolume == old(baseVolume) && source.volume == old(source.volume)
      ensures clip != None && PitchInRange(pitch) ==> source.pitch == pitch
      ensures clip != None && !PitchInRange(pitch) ==> source.pitch == old(source.pitch)
    {
      if clip == None {
        return;
      }
      source.clip := clip;
      SetVolume(volume);
      SetPitch(pitch);
      SetLoop(loop);
      source.Play();
    }

    /** Afterwards the source is silent; a source that was already silent is left as it was. */
    method Stop()
      modifies source`isPlaying
      ensures !source.isPlaying
      ensures !old(source.isPlaying) ==> unchanged(source)
    {
      var playing := IsPlaying();
      if playing {
        source.Stop();
      }
    }

    /** A non-positive duration is rejected and changes nothing. An accepted fade
        silences the source, starts it when it has a clip, and takes the first
        step of the ramp towards full volume: the call returns to its caller at
        the first suspension, which lies inside the ramp loop after that step.
        deltaTime is the engine's frame time at the call. */
    method FadeIn(duration: real, deltaTime: real) returns (started: bool)
      modifies source`volume, source`isPlaying
      ensures started <==> duration > 0.0
      ensures !started ==> unchanged(source)
      ensures started ==> source.volume == Lerp(0.0, 1.0, deltaTime / duration)
      ensures started ==> 0.0 <= source.volume <= 1.0
      ensures started && deltaTime >= duration ==> source.volume == 1.0
      ensures started && source.clip != None ==> source.isPlaying
      ensures started && source.clip == None ==> source.isPlaying == old(source.isPlaying)
    {
      if duration <= 0.0 {
        return false;
      }
      var startVolume := 0.0;
      source.volume := startVolume;
      source.Play();
      // elapsedTime starts below the positive duration, so the loop runs its
      // first step before the first suspension.
      var elapsedTime := 0.0;
      elapsedTime := elapsedTime + deltaTime;
      assert elapsedTime >= duration ==> elapsedTime / duration >= 1.0;
      source.volume := Lerp(startVolume, 1.0, elapsedTime / duration);
      started := true;
    }

    /** A non-positive duration is rejected and changes nothing. An accepted fade
        takes the first step of the ramp from the current volume towards silence
        and returns at the first suspension inside the ramp loop; the volume
        never rises, and a frame as long as the fade silences it at once.
        deltaTime is the engine's frame time at the call. */
    method FadeOut(duration: real, deltaTime: real) returns (started: bool)
      modifies source`volume
      ensures started <==> duration > 0.0
      ensures !started ==> unchanged(source)
      ensures started ==> source.volume == Lerp(old(source.volume), 0.0, deltaTime / duration)
      ensures started && old(source.volume) >= 0.0 ==> 0.0 <= source.volume <= old(source.volume)
      ensures started && deltaTime >= duration ==> source.volume == 0.0
    {
      if duration <= 0.0 {
        return false;
      }
      var startVolume := source.volume;
      var elapsedTime := 0.0;
      elapsedTime := elapsedTime + deltaTime;
      assert elapsedTime >= duration ==> elapsedTime / duration >= 1.0;
      source.volume := Lerp(startVolume, 0.0, elapsedTime / duration);
      started := true;
    }
  }
}
