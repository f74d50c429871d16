/** The sound-effect manager: a pool of one-shot sources. Every operation
    other than building the pool is not implemented and always fails. */
module SE {
  import opened Engine

  class SEManager {
    var audioSourceQueue: seq<AudioSource>

    /** Replaces the queue with one holding poolSize new sources (none for a
        negative size), in creation order, each not looping and not playing on awake. */
    method Initialize(poolSize: int)
      modifies this`audioSourceQueue
      ensures |audioSourceQueue| == if poolSize < 0 then 0 else poolSize
      ensures forall i :: 0 <= i < |audioSourceQueue| ==>
                fresh(audioSourceQueue[i]) && !audioSourceQueue[i].loop && !audioSourceQueue[i].playOnAwake
      ensures forall i :: 0 <= i < |audioSourceQueue| ==>
                audioSourceQueue[i].clip == None && !audioSourceQueue[i].isPlaying
      ensures forall i, j :: 0 <= i < j < |audioSourceQueue| ==> audioSourceQueue[i] != audioSourceQueue[j]
      ensures forall i :: 0 <= i < |audioSourceQueue| ==> audioSourceQueue[i] !in old(audioSourceQueue)
    {
      audioSourceQueue := [];
      var i := 0;
      while i < poolSize
        invariant 0 <= i <= (if poolSize < 0 then 0 else poolSize)
        invariant |audioSourceQueue| == i
        invariant forall k :: 0 <= k < i ==>
                    fresh(audioSourceQueue[k]) && !audioSourceQueue[k].loop && !audioSourceQueue[k].playOnAwake
        invariant forall k :: 0 <= k < i ==>
                    audioSourceQueue[k].clip == None && !audioSourceQueue[k].isPlaying
        invariant forall k, l :: 0 <= k < l < i ==> audioSourceQueue[k] != audioSourceQueue[l]
      {
        var audioSource := new AudioSource();
        audioSource.playOnAwake := false;
        audioSource.loop := false;
        audioSourceQueue := audioSourceQueue + [audioSource];
        i := i + 1;
      }
    }

    /** Not implemented: always fails and changes nothing. */
    method Play(path: string) returns (outcome: Outcome)
      ensures outcome == Fail(NotImplemented)
    {
      outcome := Fail(NotImplemented);
    }

    /** Not implemented: always fails and changes nothing. */
    method Release() returns (outcome: Outcome)
      ensures outcome == Fail(NotImplemented)
    {
      outcome := Fail(NotImplemented);
    }

    /** Not implemented: always fails and changes nothing. */
    method SetVolume(volume: real) returns (outcome: Outcome)
      ensures outcome == Fail(NotImplemented)
    {
      outcome := Fail(NotImplemented);
    }

    /** Not implemented: always fails and changes nothing. */
    method Stop(path: string) returns (outcome: Outcome)
      ensures outcome == Fail(NotImplemented)
    {
      outcome := Fail(NotImplemented);
    }

    /** Not implemented: always fails and changes nothing. */
    method StopAll() returns (outcome: Outcome)
      ensures outcome == Fail(NotImplemented)
    {
      outcome := Fail(NotImplemented);
    }
  }
}
