/** The parts of the game engine and runtime that the audio manager touches:
    clip handles, the audio output component, and failure outcomes. */
module Engine {

  datatype Option<+T> = None | Some(value: T)

  /** An audio clip asset. Its contents are opaque to the audio manager. */
  datatype AudioClip = AudioClip(name: string)

  /** Why an operation of a category manager failed. */
  datatype Failure = NotImplemented

  /** The outcome of an operation that returns no value. */
  datatype Outcome = Pass | Fail(error: Failure)

  /** The distance between two values. */
  function Distance(a: real, b: real): real
  {
    if a <= b then b - a else a - b
  }

  /** The engine's clamp to [0, 1]: the point of [0, 1] nearest to the value,
      so values already in range are kept. */
  function Clamp01(value: real): (r: real)
    ensures 0.0 <= r <= 1.0
    ensures 0.0 <= value <= 1.0 ==> r == value
    ensures forall y :: 0.0 <= y <= 1.0 ==> Distance(r, value) <= Distance(y, value)
  {
    if value < 0.0 then 0.0 else if value > 1.0 then 1.0 else value
  }

  /** The engine's linear interpolation from a to b: the parameter is clamped to
      [0, 1] first, so the result never leaves the interval between a and b. */
  function Lerp(a: real, b: real, t: real): (r: real)
    ensures t <= 0.0 ==> r == a
    ensures t >= 1.0 ==> r == b
    ensures a <= b ==> a <= r <= b
    ensures b <= a ==> b <= r <= a
  {
    if t <= 0.0 then a
    else if t >= 1.0 then b
    else a + Scaled(b - a, t)
  }

  /** A difference scaled by a factor in [0, 1]: it keeps the sign of the
      difference and does not exceed it in size. */
  function Scaled(d: real, t: real): (p: real)
    requires 0.0 <= t <= 1.0
    ensures 0.0 <= d ==> 0.0 <= p <= d
    ensures d <= 0.0 ==> d <= p <= 0.0
  {
    assert d - d * t == d * (1.0 - t);
    d * t
  }

  /** An engine audio output component: the properties the audio manager reads and writes. */
  class AudioSource {
    var clip: Option<AudioClip>
    var volume: real
    var pitch: real
    var loop: bool
    var isPlaying: bool
    var playOnAwake: bool

    /** A component freshly added to a game object carries the engine's defaults. */
    constructor ()
      ensures clip == None && volume == 1.0 && pitch == 1.0
      ensures !loop && !isPlaying && playOnAwake
    {
      clip := None;
      volume := 1.0;
      pitch := 1.0;
      loop := false;
      isPlaying := false;
      playOnAwake := true;
    }

    /** Starts playback of the assigned clip; without a clip nothing starts. */
    method Play()
      modifies this`isPlaying
      ensures clip != None ==> isPlaying
      ensures clip == None ==> isPlaying == old(isPlaying)
    {
      if clip != None {
        isPlaying := true;
      }
    }

    /** Halts playback; the clip stays assigned. */
    method Stop()
      modifies this`isPlaying
      ensures !isPlaying
    {
      isPlaying := false;
    }
  }
}
