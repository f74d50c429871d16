# AudioManager core, modelled in Dafny

This project models the core of a Unity audio manager. The manager plays
background music (BGM) and sound effects (SE) through pools of engine audio
sources. Four parts are modelled:

- **Playback** (`playback.dfy`). `AudioPlayer` is one playback channel. It
  wraps an engine `AudioSource` and remembers a base volume. Volume and pitch
  changes are guarded: a volume outside [0, 1] or a pitch outside [-3, 3] is
  rejected and changes nothing. `Play` with no clip does nothing. A fade with a
  non-positive duration is rejected. An accepted fade returns to its caller
  after the first step of its volume ramp; the model takes that frame's time
  as a parameter.
- **Settings** (`settings.dfy`). The `AudioSettings` asset holds the SE and BGM
  volumes and the maximum numbers of simultaneous sounds. Its volume setters
  clamp to [0, 1], so settings changed only through them keep both volumes in
  range (`Valid`). A loaded asset may hold any serialized value; the range
  attribute only constrains the editor's inspector.
- **Category managers** (`bgm.dfy`, `se.dfy`). `BGMManager` and `SEManager`
  build a pool of new audio sources: looping for BGM, one-shot for SE, and
  never playing on awake. Their other five operations are not implemented.
  Each one always fails; the model returns `Fail(NotImplemented)`.
- **Path generation** (`path_generation.dfy`). `AudioPathGenerator` is an
  editor tool. It reads the Addressables groups named `AudioManagerSE` and
  `AudioManagerBGM`. It keeps the addresses of the entries whose asset path has
  an `.mp3`, `.wav` or `.ogg` extension, in any letter case. It then writes a C#
  class with one string constant per address.

`engine.dfy` holds the engine pieces the core touches:

- the `AudioSource` component, as a class whose fields the player updates;
- clip handles;
- an `Option` type for a clip reference that may be null;
- the `Outcome` of an operation that can fail;
- the engine's `Clamp01` and `Lerp` on volumes.

The managers' Play, Release, SetVolume, Stop and StopAll are not implemented,
so the model makes them always fail. `AudioPlayer.SetVolume` rejects a volume
outside [0, 1] rather than clamping it.

## Model

| member | source | states |
|---|---|---|
| Playback.AudioPlayer.constructor | Assets/AudioManager/Scripts/Core/AudioPlayer.cs:8-13 | The player wraps the given source with base volume 1. |
| Playback.AudioPlayer.IsPlaying | Assets/AudioManager/Scripts/Core/AudioPlayer.cs:15-18 | Reports exactly the source's play state and changes nothing. |
| Playback.AudioPlayer.Play | Assets/AudioManager/Scripts/Core/AudioPlayer.cs:20-32 | With no clip, nothing changes. With a clip, the clip and loop flag are set and the source plays. An in-range volume and pitch are applied. A rejected volume or pitch leaves the previous value. The base volume stays in [0, 1]. |
| Playback.AudioPlayer.Stop | Assets/AudioManager/Scripts/Core/AudioPlayer.cs:34-40 | Afterwards the source is not playing. A source that was already silent is left untouched. |
| Playback.AudioPlayer.SetVolume | Assets/AudioManager/Scripts/Core/AudioPlayer.cs:42-51 | A volume in [0, 1] becomes both the base volume and the source volume. Any other volume changes neither. The base volume stays in [0, 1]. |
| Playback.AudioPlayer.SetLoop | Assets/AudioManager/Scripts/Core/AudioPlayer.cs:53-56 | The loop flag becomes the given value, and nothing else changes. |
| Playback.AudioPlayer.SetPitch | Assets/AudioManager/Scripts/Core/AudioPlayer.cs:58-66 | A pitch in [-3, 3] is applied. Any other pitch leaves the source pitch unchanged. |
| Playback.AudioPlayer.FadeIn | Assets/AudioManager/Scripts/Core/AudioPlayer.cs:68-87 | The fade starts exactly when the duration is positive. A rejected fade changes nothing. An accepted one starts the source (when it has a clip) from volume 0 and returns after the first ramp step: the volume is the interpolation from 0 to 1 at frame time over duration. It lies in [0, 1] and is full when the frame lasts the whole fade. |
| Playback.AudioPlayer.FadeOut | Assets/AudioManager/Scripts/Core/AudioPlayer.cs:89-106 | The fade starts exactly when the duration is positive. A rejected fade changes nothing. An accepted one returns after the first ramp step: the volume is the interpolation from the old volume to 0 at frame time over duration. It never rises, and it is 0 when the frame lasts the whole fade. |
| Engine.Lerp | Assets/AudioManager/Scripts/Core/AudioPlayer.cs:84 | The ramp's interpolation gives the start at or below parameter 0, the end at or above 1, and never leaves the interval between them. |
| Engine.Clamp01 | Assets/AudioManager/Scripts/Settings/AudioSettings.cs:37-45 | The setters' clamp gives a value in [0, 1] and keeps an in-range value. It is the point of [0, 1] nearest the input. |
| Settings.Clamp01Idempotent | Assets/AudioManager/Scripts/Settings/AudioSettings.cs:37-45 | Setting the same volume twice stores what setting it once stores. |
| Settings.AudioSettings.constructor | Assets/AudioManager/Scripts/Settings/AudioSettings.cs:24-35 | A new asset has both volumes at 0, at most 10 SE sounds and at most 1 BGM sound, and is valid. |
| Settings.AudioSettings.SEVolume | Assets/AudioManager/Scripts/Settings/AudioSettings.cs:24-26 | The SE volume of valid settings lies in [0, 1]. |
| Settings.AudioSettings.BGMVolume | Assets/AudioManager/Scripts/Settings/AudioSettings.cs:27-29 | The BGM volume of valid settings lies in [0, 1]. |
| Settings.AudioSettings.SetSEVolume | Assets/AudioManager/Scripts/Settings/AudioSettings.cs:37-40 | Only the SE volume changes. It becomes the clamped value, always in [0, 1], and validity is kept. |
| Settings.AudioSettings.SetBGMVolume | Assets/AudioManager/Scripts/Settings/AudioSettings.cs:42-45 | Only the BGM volume changes. It becomes the clamped value, always in [0, 1], and validity is kept. |
| BGM.BGMManager.Initialize | Assets/AudioManager/Scripts/BGM/BGMManager.cs:27-40 | The queue is replaced by exactly max(poolSize, 0) new, pairwise distinct sources. None was in the old queue. Each one loops, does not play on awake, has no clip and is silent. |
| BGM.BGMManager.Play | Assets/AudioManager/Scripts/BGM/BGMManager.cs:42-45 | Always fails as not implemented. |
| BGM.BGMManager.Release | Assets/AudioManager/Scripts/BGM/BGMManager.cs:47-50 | Always fails as not implemented. |
| BGM.BGMManager.SetVolume | Assets/AudioManager/Scripts/BGM/BGMManager.cs:52-55 | Always fails as not implemented. |
| BGM.BGMManager.Stop | Assets/AudioManager/Scripts/BGM/BGMManager.cs:57-60 | Always fails as not implemented. |
| BGM.BGMManager.StopAll | Assets/AudioManager/Scripts/BGM/BGMManager.cs:62-65 | Always fails as not implemented. |
| SE.SEManager.Initialize | Assets/AudioManager/Scripts/SE/SEManager.cs:51-64 | The queue is replaced by exactly max(poolSize, 0) new, pairwise distinct sources. None was in the old queue. Each one does not loop, does not play on awake, has no clip and is silent. |
| SE.SEManager.Play | Assets/AudioManager/Scripts/SE/SEManager.cs:21-24 | Always fails as not implemented. |
| SE.SEManager.Release | Assets/AudioManager/Scripts/SE/SEManager.cs:26-29 | Always fails as not implemented. |
| SE.SEManager.SetVolume | Assets/AudioManager/Scripts/SE/SEManager.cs:31-34 | Always fails as not implemented. |
| SE.SEManager.Stop | Assets/AudioManager/Scripts/SE/SEManager.cs:36-39 | Always fails as not implemented. |
| SE.SEManager.StopAll | Assets/AudioManager/Scripts/SE/SEManager.cs:41-44 | Always fails as not implemented. |
| PathGeneration.LastDotBefore | Assets/AudioManager/Scripts/Core/AudioPathGenerator.cs:111 | Finds the last '.' of the last path component: no separator and no later '.' follows it. None means that component has no '.'. |
| PathGeneration.Extension | Assets/AudioManager/Scripts/Core/AudioPathGenerator.cs:111 | A non-empty extension is a suffix of the path. It starts with '.' and holds no other '.' and no separator. An empty extension means the last component has no '.' or ends with one. |
| PathGeneration.ExtensionOfName | Assets/AudioManager/Scripts/Core/AudioPathGenerator.cs:111 | A path ending in '.' plus a name free of dots and separators has extension "." + name. |
| PathGeneration.IsAudioFile | Assets/AudioManager/Scripts/Core/AudioPathGenerator.cs:109-113 | An accepted path is at least four characters long, and its fourth character from the end is '.'. |
| PathGeneration.IsAudioFileByExtension | Assets/AudioManager/Scripts/Core/AudioPathGenerator.cs:109-113 | The audio-file test holds exactly when the lower-cased extension is ".mp3", ".wav" or ".ogg". |
| PathGeneration.IsAudioFileByName | Assets/AudioManager/Scripts/Core/AudioPathGenerator.cs:109-113 | A file named stem.name is accepted if and only if the lower-cased name is mp3, wav or ogg. |
| PathGeneration.AudioFileShape | Assets/AudioManager/Scripts/Core/AudioPathGenerator.cs:109-113 | Every accepted path ends in '.' and three characters that spell mp3, wav or ogg in some letter case. |
| PathGeneration.IsAudioFileIgnoresCase | Assets/AudioManager/Scripts/Core/AudioPathGenerator.cs:111 | Lower-casing the whole path never changes the verdict. |
| PathGeneration.UpperCaseExtensionAccepted | Assets/AudioManager/Scripts/Core/AudioPathGenerator.cs:111-112 | "Assets/Jump.WAV" is accepted. |
| PathGeneration.DoubleExtensionRejected | Assets/AudioManager/Scripts/Core/AudioPathGenerator.cs:111-112 | "Assets/a.wav.txt" is rejected: only the last extension counts. |
| PathGeneration.FolderDotRejected | Assets/AudioManager/Scripts/Core/AudioPathGenerator.cs:111-112 | "a.ogg/b" is rejected: a dot in a folder name is no extension. |
| PathGeneration.TrailingDotRejected | Assets/AudioManager/Scripts/Core/AudioPathGenerator.cs:111-112 | "a.wav." is rejected: a trailing dot leaves an empty extension. |
| PathGeneration.BackslashFolderRejected | Assets/AudioManager/Scripts/Core/AudioPathGenerator.cs:111-112 | `x.wav\y` is rejected: the audio extension is not at the end of the path. |
| PathGeneration.EntryAddresses | Assets/AudioManager/Scripts/Core/AudioPathGenerator.cs:31-41 | The inner loop's result: at most one address per entry. |
| PathGeneration.EntryAddressesNonePass | Assets/AudioManager/Scripts/Core/AudioPathGenerator.cs:31-41 | When no entry passes the test, no address is collected. |
| PathGeneration.Addresses | Assets/AudioManager/Scripts/Core/AudioPathGenerator.cs:24-42 | The outer loop's result: no address when no group with the category's name has an entry that passes the test. |
| PathGeneration.EntryAddressesAllPass | Assets/AudioManager/Scripts/Core/AudioPathGenerator.cs:31-41 | When every entry passes the test, every entry's address is collected, one per entry and in entry order. |
| PathGeneration.EntryAddressesMembership | Assets/AudioManager/Scripts/Core/AudioPathGenerator.cs:31-41 | An address is collected from a group's entries if and only if some entry under that address passes the test. |
| PathGeneration.AddressesMembership | Assets/AudioManager/Scripts/Core/AudioPathGenerator.cs:24-42 | An address is collected if and only if some group with the category's name has an entry under it that passes the test. Other groups and failing entries contribute nothing. |
| PathGeneration.CollectsAudioFiles | Assets/AudioManager/Scripts/Core/AudioPathGenerator.cs:24-42 | With the tool's test, an address is collected if and only if some group with the category's name has an audio-file entry under it. |
| PathGeneration.EntryAddressesAppend | Assets/AudioManager/Scripts/Core/AudioPathGenerator.cs:31-41 | Collection keeps entry order: collecting two runs of entries concatenates their results. |
| PathGeneration.AddressesAppend | Assets/AudioManager/Scripts/Core/AudioPathGenerator.cs:24-42 | Collection keeps group order: collecting two runs of groups concatenates their results. |
| PathGeneration.RenderPathClass | Assets/AudioManager/Scripts/Core/AudioPathGenerator.cs:91-99 | The generated text opens with the header comment on a line of its own and ends with the closing brace and a line terminator. |
| PathGeneration.RenderedLines | Assets/AudioManager/Scripts/Core/AudioPathGenerator.cs:91-99 | The generated text reads back as |addresses| + 3 lines: the header comment, the class line, one constant per address in list order, and the closing brace. |
| PathGeneration.CombinePath | Assets/AudioManager/Scripts/Core/AudioPathGenerator.cs:85 | An empty part yields the other part, and the result is at most one character longer than the two parts. |
| PathGeneration.CombinePathJoins | Assets/AudioManager/Scripts/Core/AudioPathGenerator.cs:85 | The second part always ends the result. When both parts are present and the second is not rooted, the first part starts the result and a separator precedes the second. |
| PathGeneration.OutputFilePaths | Assets/AudioManager/Scripts/Core/AudioPathGenerator.cs:12-13 | The SE class goes to Assets/AudioManager/Scripts/SE/SEPath.cs. The BGM class goes to Assets/AudioManager/Scripts/BGM/BGMPath.cs. |
| PathGeneration.AudioPathGenerator.constructor | Assets/AudioManager/Scripts/Core/AudioPathGenerator.cs:16-17 | Both address lists start empty, and no file has been written. |
| PathGeneration.AudioPathGenerator.AppendSEEntryAddresses | Assets/AudioManager/Scripts/Core/AudioPathGenerator.cs:31-41 | The SE list grows by exactly the addresses of the entries that pass the test, in entry order. |
| PathGeneration.AudioPathGenerator.AppendBGMEntryAddresses | Assets/AudioManager/Scripts/Core/AudioPathGenerator.cs:60-70 | The BGM list grows by exactly the addresses of the entries that pass the test, in entry order. |
| PathGeneration.AudioPathGenerator.UpdateSEPaths | Assets/AudioManager/Scripts/Core/AudioPathGenerator.cs:19-45 | The SE list becomes the collected SE addresses (audio files of the SE groups), whatever it held before. Exactly one file is written: the SE class rendered from that list, at the SE class path. |
| PathGeneration.AudioPathGenerator.UpdateBGMPaths | Assets/AudioManager/Scripts/Core/AudioPathGenerator.cs:48-74 | The BGM list becomes the collected BGM addresses (audio files of the BGM groups), whatever it held before. Exactly one file is written: the BGM class rendered from that list, at the BGM class path. |
| PathGeneration.AudioPathGenerator.UpdateAllAudioPaths | Assets/AudioManager/Scripts/Core/AudioPathGenerator.cs:77-81 | Both lists are recollected. Exactly two files are written: the SE class first, then the BGM class. |
| PathGeneration.AudioPathGenerator.WriteAudioPathsToFile | Assets/AudioManager/Scripts/Core/AudioPathGenerator.cs:83-102 | The text built line by line is the rendered class. It is recorded as written to folder/fileName.cs. |

## Left out

- Playback.AudioPlayer.FadeIn: models the call up to its return at the first suspension, one ramp step. The later frames run after the call returns, on the engine's schedule, and are not modelled.
- Playback.AudioPlayer.FadeOut: models the call up to its return at the first suspension, one ramp step. The later frames and the final stop run after the call returns and are not modelled.
- Engine.AudioSource.Play: without a clip, nothing starts; other engine effects of playing are not modelled.
- PathGeneration.RenderedLines: holds only when no address and not the class name contains a line terminator. An address holding one would split the generated text into more lines.
- Log messages (warnings and errors) are not modelled. Each logged case is modelled as its effect on state, which is none. The pitch warning's text names 0.1 as the lower bound, but the guard uses -3; the model follows the guard.
- Volumes and pitches are real numbers. 32-bit float rounding, NaN and infinities are not modelled.
- The managers read their pool size from settings properties that `AudioSettings` does not define. The model takes the pool size as a parameter; a negative size builds no sources, as the counting loop does.
- The container game object, `DontDestroyOnLoad`, `AddComponent` and the startup hooks `InitializeStatic` and `Awake` are engine lifecycle and are not modelled. A new source has the engine's default property values.
- Before `Initialize`, the managers' queue is null in the code. The model starts from an arbitrary sequence.
- The not-implemented operations throw an exception in the code. The model returns a failure outcome instead.
- The lazily loaded `AudioSettings.Instance` singleton (resource loading) is not modelled. The settings constructor stands for a newly created asset with its declared defaults.
- The path tool reads the Addressables settings object from the editor. The model takes its groups as input; a missing settings object is not modelled.
- Directory creation, the UTF-8 file write and the asset database refresh are recorded as one `FileWrite` per written file; the file system itself is not modelled. Menu registration is not modelled.
- Lines end in "\n", which is the platform newline on Unix hosts; the "\r\n" of Windows hosts is not modelled.
- PathGeneration.Extension: treats both `/` and `\` as separators, as on Windows hosts. On Unix hosts `\` is an ordinary character, but the audio-file verdict is the same on every host: an accepted path ends in '.' and three characters free of both separators, which is the extension on either host.
- PathGeneration.CombinePath: inserts `/` and treats a leading `/` or `\` as rooted. Windows hosts insert `\` instead, which names the same file; the tool's second part never starts with a separator. Drive letters and other volume-rooted paths are not modelled.
- Lower-casing is ASCII-only. Culture-specific case mappings of non-ASCII characters are not modelled.
- Addresses are not checked to be valid C# identifiers. An address that is not one yields a class that does not compile, as in the code.
- `AudioManager.cs` and `AudioManagerBase.cs` only declare interfaces and base types, and the test harness scripts only drive the code above; neither is modelled.
- Asset caching, channel selection, pause/resume and volume rescaling are not in the code, so they are not modelled.
