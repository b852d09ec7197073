# JavaMediaUtils loaders, modelled in Dafny

This project models the core of the `javax.media.utils.loaders` package:

- **Image holders.** `ImageHolder` is a list of frames. `GroupImageHolder` adds a name for every frame.
- **Animators.** `ImageAnimator` and `GroupImageAnimator` turn timer ticks into a current frame. They tell their watchers when a sequence ends or loops.
- **Sound holders.** There are two:
  - `ClipSoundHolder` plays a `javax.sound` clip.
  - `MidiSoundHolder` plays a MIDI sequence through the one sequencer that `MidiLoader` owns.
- **Configuration loaders.** `ImageLoader` and `SoundLoader` read configuration files line by line. They register holders under names and reject a bad line with `BadConfigurationLineException`.

Each Dafny module follows one part of the package:

| module | models |
|---|---|
| `Wrappers` | `Option`, `Result` and `Outcome` (passes, or fails with an error), used for Java's `null` and its exceptions |
| `Watchers` | `ImageWatcher` and `SoundWatcher` callbacks. A call is an appended `Notice(watcher, event)`. `Fanout` says every registered watcher got exactly one. |
| `FrameClock` | the tick arithmetic of `ImageAnimator.actionPerformed`, as pure functions, with the full-cycle and restart properties |
| `Images` | `ImageHolder` with `GroupImageHolder`, and `ImageAnimator` with `GroupImageAnimator`, as classes. The subclass is a `const isGroup` flag on the base class. |
| `ConfigText` | the string handling the loaders rely on (see the list after this table) |
| `ImageLoading` | the image configuration grammar, a pure specification of what each line and each whole file does, and the `ImageLoader` class proved against it |
| `Sound` | `BaseSoundHolder`, its playback `State`, and `ClipSoundHolder` |
| `Midi` | `MidiLoader` and `MidiSoundHolder`, which refer to each other |
| `SoundLoading` | the sound configuration grammar, its specification over an abstract registry, and the `SoundLoader` class proved against it |
| `Scenarios` | concrete runs that exhibit each finding below beside the corrected operation, and runs over inputs the documentation does not cover (a file that reads as `null`, a MIDI sequence the sequencer refuses) |

The string handling in `ConfigText` covers:

- `String.trim`;
- `StringTokenizer`;
- `Integer.parseInt` within the 32-bit `int` range, and `intFromCommandToken`;
- `String.split("\\*")`;
- `File.getName`, `getFileName` and `new File(parent, child)`.

What the code does not compute itself becomes a parameter:

- `present: string -> bool` is `File.exists` for the numbered files of an `n` line.
- `decode: string -> Option<Image>` is `ImageIO.read`. `None` stands for the `IOException` the loader catches. `Some(NullImage)` is the `null` that `ImageIO.read` returns for a file no reader recognises.
- `readable: string -> bool` is `exists() && canRead()` on a sound file.
- `audio: string -> AudioData` is what a holder's `loadFile` makes of a sound file:
  - `Accepted`: the data loads;
  - `Refused`: the data is rejected, which `loadFile` reports as `UnsupportedAudioFileException` (`InvalidMidiDataException` for MIDI, or no line for the clip's format);
  - `Failed`: an `IOException` or an unchecked exception escapes `loadFile`.
- `midiAvailable: bool` means `MidiSystem.getSequencer()` succeeds when the MIDI loader is created.
- `dir: Option<string>` is the directory of the configuration file.
- `resourceIndex: string -> string` is the name a group holder gives each frame file. The source calls `ImageLoader.getResourceIndex`, which no file of the source defines, so the function is left uninterpreted.
- The text of a configuration file is a `seq<string>` of its lines.

The specification functions `Run` and `SoundRun` take a whole file and return how reading ended: `Loaded`, `BadLine(lineNumber, line, error)` or `Crashed`. They also return the set of names registered. `LoadImagesFromConfig` and `LoadSoundsFromConfig` (through its loop `LoadLines`) are loops whose postcondition equals that function on the object's state. Lemmas prove the following about those functions:

- a file that loads passed every line;
- a file that fails reports the first bad line, with its 1-based number and trimmed text;
- registration only ever adds names;
- a MIDI name can be taken only once.

Where the documentation and the code disagree, the model follows the code:

- `setAnimationPeriod` is documented to ignore arguments `<= 0`. The code accepts 0.
- A `MidiSoundHolder.play` that is denied the sequencer is described as a no-op. The code dereferences `null` (Findings).
- `GroupImageAnimator.setCurrentImage` followed by one tick is described as reaching the next frame. The code continues from the old animation time (Findings).
- `SoundHolder.stop` is documented to reset the position to the start (`SoundHolder.java:27`). `ClipSoundHolder.stop` and `MidiSoundHolder.stop` keep the position.
- `restartAt` documents the range 0 to count-1 (`ImageAnimator.java:167`). The code ignores position 0 (`ImageAnimator.java:170`).
- The source does not compile as written at three points. The model takes one reading of each:
  - `GroupImageHolder.addImage(String, BufferedImage)` (`GroupImageHolder.java:15-23`) is marked `@Override`, but `ImageHolder` has only `addImage(File, BufferedImage)` (`ImageHolder.java:40`). It also calls a `super.addImage(String, …)` and an `ImageLoader.getResourceIndex` that do not exist.
    The model follows the javadoc at `ImageHolder.java:34-35`: when `loadImage` calls `addImage(file, image)` (`ImageLoader.java:269`), a group holder names the frame after that file, and it drops a frame that comes without a file. This is `AddImage` on a group holder.
    With `@Override` removed, the `File` call would reach the base method instead, and a group holder loaded from a configuration would record no names. That reading is not modelled.
  - `BadConfigurationLineException` has no `setConfigurationFile`. It is called at `ImageLoader.java:211` and `SoundLoader.java:127`. The model keeps the line number, line and error, and does not record the file.
- `SoundHolder.seek` takes milliseconds (`SoundHolder.java:43-47`). Both holders pass the value to `setMicrosecondPosition`, so the model's position is in microseconds.

## Model

| member | source | states |
|---|---|---|
| Images.IndexOf | src/javax/media/utils/loaders/images/GroupImageHolder.java:43-45 | `List.indexOf`: -1 exactly when the name is absent, else the first position holding it |
| Images.ImageHolder.constructor | src/javax/media/utils/loaders/images/ImageHolder.java:26-28 | a new plain holder has no frames and no names |
| Images.ImageHolder.Group | src/javax/media/utils/loaders/images/GroupImageHolder.java:10-13 | a new group holder is empty and keeps the resource-index function it was given |
| Images.ImageHolder.AddImage | src/javax/media/utils/loaders/images/GroupImageHolder.java:16-23 | a plain holder appends the frame. A group holder drops a frame that comes without a file. Otherwise it appends the frame and the name `resourceIndex` derives from the file, so names and frames stay the same length. |
| Images.ImageHolder.GetIndexOf | src/javax/media/utils/loaders/images/GroupImageHolder.java:43-45 | -1 if and only if no frame has the name, else the first frame that has it |
| Images.ImageHolder.GetImageByName | src/javax/media/utils/loaders/images/GroupImageHolder.java:31-35 | `None` (Java `null`) if and only if the name is unknown, else the image of the first frame with that name |
| Images.ImageHolder.GetImage | src/javax/media/utils/loaders/images/ImageHolder.java:50-52 | the frame added at that position, or `IndexOutOfBounds` exactly when the position is outside the frames |
| Images.ImageHolder.GetImageName | src/javax/media/utils/loaders/images/GroupImageHolder.java:53-55 | `IndexOutOfBounds` exactly outside the names. Otherwise, looking the frame's name up again finds that frame, or an earlier frame with the same name, and finds exactly that frame when the name is not used earlier. |
| Images.ImageHolder.GetAnimator | src/javax/media/utils/loaders/images/ImageHolder.java:69-71 | a fresh animator over this holder in its initial state: frame 0, time 0, not repeating, no watchers |
| Images.ImageHolder.GetGroupAnimator | src/javax/media/utils/loaders/images/GroupImageHolder.java:63-65 | the same for a group holder, so the animator can go to frames by name |
| Images.ImageAnimator.constructor | src/javax/media/utils/loaders/images/ImageAnimator.java:34-39 | bound to its holder with the given tick period (0 when negative), at frame 0 and time 0, not running, not repeating, no watchers |
| Images.ImageAnimator.Grouped | src/javax/media/utils/loaders/images/GroupImageAnimator.java:9-12 | the same initial state, over a group holder |
| Images.ImageAnimator.AddWatcher | src/javax/media/utils/loaders/images/ImageAnimator.java:55-57 | the watcher set gains exactly that watcher. A second add changes nothing. |
| Images.ImageAnimator.SetRepeating | src/javax/media/utils/loaders/images/ImageAnimator.java:64-66 | as written: the animator repeats afterwards, whatever the argument |
| Images.ImageAnimator.SetRepeatingAsDocumented | src/javax/media/utils/loaders/images/ImageAnimator.java:59-66 | as documented: repeating afterwards equals the argument |
| Images.ImageAnimator.SetAnimationPeriod | src/javax/media/utils/loaders/images/ImageAnimator.java:74-78 | a period `>= 0` replaces the old one. A negative period leaves it unchanged. |
| Images.ImageAnimator.Tick | src/javax/media/utils/loaders/images/ImageAnimator.java:84-111 | the new time and frame are `FrameClock.Step` of the old time. The animator stops exactly when it reaches the last frame while not repeating. At the last frame every watcher is told exactly once, "looped" if repeating and "ended" if not; at other frames nobody is told. |
| Images.ImageAnimator.Start | src/javax/media/utils/loaders/images/ImageAnimator.java:134-136 | the timer runs afterwards |
| Images.ImageAnimator.Stop | src/javax/media/utils/loaders/images/ImageAnimator.java:141-143 | the timer is stopped afterwards |
| Images.ImageAnimator.Resume | src/javax/media/utils/loaders/images/ImageAnimator.java:181-183 | the timer runs again |
| Images.ImageAnimator.RestartAt | src/javax/media/utils/loaders/images/ImageAnimator.java:169-176 | a position outside 1 .. count-1 changes nothing. Otherwise the animator shows that frame, its time is the start of that frame, and it runs. |
| Images.ImageAnimator.GetCurrentImage | src/javax/media/utils/loaders/images/ImageAnimator.java:118-120 | the holder's frame at the current position. A holder without that frame, such as an empty one, gives `IndexOutOfBounds` of the position. |
| Images.ImageAnimator.GetCurrentImageName | src/javax/media/utils/loaders/images/GroupImageAnimator.java:32-34 | the group's name for the current frame, or `IndexOutOfBounds` of the position when there is no such frame |
| Images.ImageAnimator.Destroy | src/javax/media/utils/loaders/images/ImageAnimator.java:190-195 | afterwards the animator is stopped, has no watchers and is marked destroyed |
| Images.ImageAnimator.SetCurrentImage | src/javax/media/utils/loaders/images/GroupImageAnimator.java:20-25 | as written: a known name shows the first frame with that name, and the animator then names that frame, but the animation time is left as it was. An unknown name fails with `NoSuchElement` and changes nothing. |
| Images.ImageAnimator.SetCurrentImageSynced | src/javax/media/utils/loaders/images/GroupImageAnimator.java:20-25 | corrected: as `SetCurrentImage`, and the time also moves to the start of the named frame, so the next tick shows the frame after it. An unknown name changes nothing. |
| FrameClock.Step | src/javax/media/utils/loaders/images/ImageAnimator.java:85-94 | with more than one frame and a positive period, the new index is the time divided by the period, below the frame count, and the time stays within one cycle. Otherwise the frame is 0 and the time is unchanged. |
| FrameClock.TicksAccumulate | src/javax/media/utils/loaders/images/ImageAnimator.java:85-94 | after k ticks the time is the start time plus k periods, modulo the cycle length. No drift builds up. |
| FrameClock.FullCycle | src/javax/media/utils/loaders/images/ImageAnimator.java:85-94 | a whole number of extra cycles of ticks leads to the same frame and time |
| FrameClock.TicksFromStart | src/javax/media/utils/loaders/images/ImageAnimator.java:85-94 | from time 0, k ticks show frame k mod count at time period·(k mod count) |
| FrameClock.StepFromAligned | src/javax/media/utils/loaders/images/ImageAnimator.java:169-176 | from the start time of frame i, which `restartAt` sets, one tick shows frame (i+1) mod count |
| Watchers.Broadcast | src/javax/media/utils/loaders/images/ImageAnimator.java:96-110 | notifying a set of watchers produces exactly one notice of the event for each of them |
| Watchers.FanoutSize | src/javax/media/utils/loaders/images/ImageAnimator.java:96-110 | a fan-out has as many notices as there are watchers |
| Watchers.FanoutToNobody | src/javax/media/utils/loaders/images/ImageAnimator.java:96-110 | a fan-out to no watchers leaves no notice |
| ConfigText.Trim | src/javax/media/utils/loaders/images/ImageLoader.java:80-88 | `String.trim`: the result starts and ends with a character above space. It is empty exactly when every character is at or below space. |
| ConfigText.TrimPadded | src/javax/media/utils/loaders/images/ImageLoader.java:80-88 | trimming text padded with blanks on both sides gives back the text |
| ConfigText.Tokens | src/javax/media/utils/loaders/images/ImageLoader.java:91-92 | `StringTokenizer`: every token is a non-empty run of non-delimiters, and the first token is the leading word |
| ConfigText.TokensUnwords | src/javax/media/utils/loaders/images/ImageLoader.java:91-92 | tokenizing words joined by single spaces gives back the words |
| ConfigText.ParseInt | src/javax/media/utils/loaders/images/ImageLoader.java:282 | `Integer.parseInt` in base 10. It accepts exactly an optional sign followed by at least one digit whose value fits a 32-bit `int`, and it returns that value. Anything else is a `NumberFormatException` (`None`). |
| ConfigText.ParseIntRoundTrip | src/javax/media/utils/loaders/images/ImageLoader.java:282 | every `int`, written out as `Integer.toString` writes it, is read back as itself |
| ConfigText.IntFromCommandToken | src/javax/media/utils/loaders/images/ImageLoader.java:279-289 | an accepted count is positive, fits an `int` and is the value of the token's digits. A refused count is refused as not an integer or as not positive. |
| ConfigText.CountRoundTrip | src/javax/media/utils/loaders/images/ImageLoader.java:279-289 | every positive `int` written in decimal is accepted as itself |
| ConfigText.NonPositiveCountRejected | src/javax/media/utils/loaders/images/ImageLoader.java:279-289 | 0 and negative counts are rejected as not positive, not as malformed |
| ConfigText.PatternAccepted | src/javax/media/utils/loaders/images/ImageLoader.java:117-119 | a pattern of a non-empty prefix, `*`, a non-empty suffix and any trailing `*`s passes the split check and yields that prefix and suffix |
| ConfigText.PatternShape | src/javax/media/utils/loaders/images/ImageLoader.java:117-119 | conversely, every pattern that passes has exactly that shape |
| ConfigText.BaseNameSpec | src/javax/media/utils/loaders/images/ImageLoader.java:360-365 | `File.getName` is the `/`-free tail of the path, preceded by `/` when it is not the whole path |
| ConfigText.GetFileNameSpec | src/javax/media/utils/loaders/images/ImageLoader.java:360-365 | a non-empty result is a proper prefix of the name, followed by the last `.` with at least one character after it |
| ConfigText.FileNameEmpty | src/javax/media/utils/loaders/images/ImageLoader.java:360-365 | an empty result means no `.` strictly inside the name is the last `.` |
| ConfigText.FileNameOfStem | src/javax/media/utils/loaders/images/ImageLoader.java:360-365 | `STEM.EXT` gives `STEM` |
| ConfigText.NoFileName | src/javax/media/utils/loaders/images/ImageLoader.java:360-365 | a name with no `.`, or whose only `.` is at the start or the end, gives the empty name |
| ConfigText.ResolvedName | src/javax/media/utils/loaders/images/ImageLoader.java:124-130 | a file named without `/` keeps its own name in any directory |
| ConfigText.SingleIndex | src/javax/media/utils/loaders/images/ImageLoader.java:99-104 | an `o STEM.EXT` line registers its image under `STEM` |
| ImageLoading.ParseImageLine | src/javax/media/utils/loaders/images/ImageLoader.java:80-202 | a line is skipped exactly when it is blank or a `//` comment. An `o` or `s` file is one word; `n` and `s` counts are positive `int`s; an `n` pattern has a non-empty, star-free prefix and suffix; a `g` line has a one-word name and at least one one-word file. A malformed line is rejected with the error of the first check it fails. |
| ImageLoading.FirstAbsentSpec | src/javax/media/utils/loaders/images/ImageLoader.java:124-130 | no missing index means every numbered file exists. Otherwise the index is the first missing file. |
| ImageLoading.FirstAbsentAt | src/javax/media/utils/loaders/images/ImageLoader.java:124-130 | a missing file after only present ones is the one reported |
| ImageLoading.SequenceFiles | src/javax/media/utils/loaders/images/ImageLoader.java:124-130 | the loop that checks the numbered files reports the first missing one. When none is missing it returns `PREFIX0SUFFIX` … `PREFIX(N-1)SUFFIX` in the configuration's directory. |
| ImageLoading.DecodedEmpty | src/javax/media/utils/loaders/images/ImageLoader.java:223-231 | no frame is read exactly when every file fails to decode |
| ImageLoading.DecodedStep | src/javax/media/utils/loaders/images/ImageLoader.java:223-231 | one more file adds its frame, and under a group its name, exactly when it decodes |
| ImageLoading.StripFrames | src/javax/media/utils/loaders/images/ImageLoader.java:155-179 | a strip is cut into exactly the number of frames the line asks for |
| ImageLoading.ExpectedKinds | src/javax/media/utils/loaders/images/ImageLoader.java:73-216 | only a well-formed, non-strip line can pass. Only a strip line throws. A malformed line is rejected with its own error. |
| ImageLoading.RunLoaded | src/javax/media/utils/loaders/images/ImageLoader.java:73-216 | a configuration that loads passed every line |
| ImageLoading.RunStops | src/javax/media/utils/loaders/images/ImageLoader.java:204-213 | a configuration that fails reports the first failing line, with its 1-based number and trimmed text. Every earlier line passed, a rejected line carries its parse error, and a crash comes only from a strip line. |
| ImageLoading.RunGrows | src/javax/media/utils/loaders/images/ImageLoader.java:73-216 | reading a configuration never unregisters a name |
| ImageLoading.ImageLoader.constructor | src/javax/media/utils/loaders/images/ImageLoader.java:43-45 | a new loader has no holders |
| ImageLoading.ImageLoader.LoadImage | src/javax/media/utils/loaders/images/ImageLoader.java:259-270 | refused as a duplicate exactly when the name belongs to a different given holder, changing nothing. Otherwise the frame is appended to the holder registered under the name; when the name is free, the given holder, or a fresh plain one when none is given, is registered first. |
| ImageLoading.ImageLoader.LoadImages | src/javax/media/utils/loaders/images/ImageLoader.java:223-231 | if the name belongs to another holder nothing changes, and the call fails only when some file decoded. Otherwise the frames of the files that do not throw are appended in order, a `null` frame included, with their names under a group, and the holder is registered when it got a frame or already had the name. |
| ImageLoading.ImageLoader.LoadImagesArrays | src/javax/media/utils/loaders/images/ImageLoader.java:238-241 | as written, and as line 181 calls it: no frames does nothing; no file names (`null`) fails with `NullFileArray` before anything changes; a name clash fails. Otherwise as many frames as there are names are loaded, failing at the first frame without a name. |
| ImageLoading.ImageLoader.LoadFrames | src/javax/media/utils/loaders/images/ImageLoader.java:238-241 | corrected: the strip frames go into the holder with no file names. The holder is registered unless its name belongs to another holder. |
| ImageLoading.ImageLoader.LoadFresh | src/javax/media/utils/loaders/images/ImageLoader.java:99-104 | loading into a new holder is rejected as a duplicate only when the name is taken and some frame was read. It registers a fresh holder exactly when the name is new and a frame was read. |
| ImageLoading.ImageLoader.LoadSingle | src/javax/media/utils/loaders/images/ImageLoader.java:99-104 | an `o` line ends as `Expected` says and changes the registry as `Fills` says |
| ImageLoading.ImageLoader.LoadNumbered | src/javax/media/utils/loaders/images/ImageLoader.java:106-133 | the same for an `n` line: a taken prefix or a missing numbered file rejects it before anything is read |
| ImageLoading.ImageLoader.LoadStripLine | src/javax/media/utils/loaders/images/ImageLoader.java:135-183 | the same for an `s` line: a strip whose reading throws `IOException` is rejected. A strip that reads as `null` throws when its width is taken (line 155). Any other strip throws (Findings). |
| ImageLoading.ImageLoader.LoadGroup | src/javax/media/utils/loaders/images/ImageLoader.java:185-200 | the same for a `g` line, registering a group holder under the group name |
| ImageLoading.ImageLoader.LoadParsed | src/javax/media/utils/loaders/images/ImageLoader.java:94-202 | any parsed line ends as `Expected` says. The names afterwards are `After`. Other holders are untouched. A newly registered holder is fresh and has at least one frame. |
| ImageLoading.ImageLoader.LoadLine | src/javax/media/utils/loaders/images/ImageLoader.java:73-216 | one line of the file advances `Run` by exactly one step |
| ImageLoading.ImageLoader.LoadImagesFromConfig | src/javax/media/utils/loaders/images/ImageLoader.java:73-216 | reading a whole file ends as `Run` says and leaves exactly the names `Run` says. Earlier holders are kept, and new ones are fresh. |
| ImageLoading.ImageLoader.GetHolder | src/javax/media/utils/loaders/images/ImageLoader.java:298-303 | the holder registered under the name, or `NoSuchElement` exactly when none is |
| ImageLoading.ImageLoader.GetGroupHolder | src/javax/media/utils/loaders/images/ImageLoader.java:313-318 | `NoSuchElement` exactly as `GetHolder`. Otherwise the holder when it is a group holder, and `None` (Java `null`) when it is not a group holder. |
| ImageLoading.ImageLoader.NumImages | src/javax/media/utils/loaders/images/ImageLoader.java:348-352 | the frame count of the registered holder, 0 for an unknown name |
| ImageLoading.ImageLoader.GetImage | src/javax/media/utils/loaders/images/ImageLoader.java:327-329 | the holder's first frame. An unknown name gives `NoSuchElement`, and an empty holder gives `IndexOutOfBounds(0)`. |
| Sound.BaseSoundHolder.constructor | src/javax/media/utils/loaders/sound/BaseSoundHolder.java:11-22 | a new holder is `FINISHED`, not looping, with no watchers |
| Sound.BaseSoundHolder.SetLooping | src/javax/media/utils/loaders/sound/BaseSoundHolder.java:25-27 | looping afterwards equals the argument |
| Sound.BaseSoundHolder.AddWatcher | src/javax/media/utils/loaders/sound/BaseSoundHolder.java:30-32 | the watcher set gains exactly that watcher |
| Sound.BaseSoundHolder.RemoveWatcher | src/javax/media/utils/loaders/sound/BaseSoundHolder.java:35-37 | the watcher set loses exactly that watcher. Removing an absent watcher changes nothing. |
| Sound.BaseSoundHolder.OnFinish | src/javax/media/utils/loaders/sound/BaseSoundHolder.java:44-47 | every watcher is told once that the sound ended |
| Sound.BaseSoundHolder.OnLoop | src/javax/media/utils/loaders/sound/BaseSoundHolder.java:54-57 | every watcher is told once that the sound looped |
| Sound.ClipSoundHolder.constructor | src/javax/media/utils/loaders/sound/ClipSoundHolder.java:22-24 | a new clip holder has no clip and an initial base state |
| Sound.ClipSoundHolder.LoadFile | src/javax/media/utils/loaders/sound/ClipSoundHolder.java:27-61 | it passes exactly when the data is accepted, and then the clip is open at position 0 and not running. Refused data fails with `UnsupportedAudioFile`. Any other failure escapes as `LoadFailed`. Both failures keep the old clip. |
| Sound.ClipSoundHolder.Play | src/javax/media/utils/loaders/sound/ClipSoundHolder.java:64-70 | with no clip nothing changes. Otherwise the clip runs from position 0 and the state is `PLAYING`. |
| Sound.ClipSoundHolder.Stop | src/javax/media/utils/loaders/sound/ClipSoundHolder.java:73-78 | the clip stops where it is, and the state is `STOPPED_MANUALLY` |
| Sound.ClipSoundHolder.Pause | src/javax/media/utils/loaders/sound/ClipSoundHolder.java:81-86 | the clip stops where it is, and the state is `PAUSED` |
| Sound.ClipSoundHolder.Resume | src/javax/media/utils/loaders/sound/ClipSoundHolder.java:89-94 | the clip runs on from where it is, and the state is `PLAYING` |
| Sound.ClipSoundHolder.Seek | src/javax/media/utils/loaders/sound/ClipSoundHolder.java:97-101 | only the clip's position changes |
| Sound.ClipSoundHolder.Update | src/javax/media/utils/loaders/sound/ClipSoundHolder.java:104-122 | a `STOP` event while playing either rewinds and restarts the clip, telling the watchers it looped, or leaves the clip stopped where it is, finishes and tells them it ended, according to looping. Any other event or state changes nothing. |
| Midi.MidiLoader.constructor | src/javax/media/utils/loaders/sound/MidiLoader.java:37-56 | the loader is open, its sequencer is idle with no sequence, no holders exist, and no holder has the sequencer |
| Midi.MidiLoader.GetMidiHolder | src/javax/media/utils/loaders/sound/MidiLoader.java:65-71 | a taken name fails with `KeyAlreadyExists` and changes nothing. A new name gets a fresh holder that belongs to this loader and has no sequence yet. |
| Midi.MidiLoader.GetMidi | src/javax/media/utils/loaders/sound/MidiLoader.java:79-81 | the holder registered under the name, or `None` exactly when there is none |
| Midi.MidiLoader.NotifyStoppedPlaying | src/javax/media/utils/loaders/sound/MidiLoader.java:89-94 | the current holder gives up the sequencer, and its meta-event listener is removed. Anyone else's notice changes nothing. |
| Midi.MidiLoader.RequestPlay | src/javax/media/utils/loaders/sound/MidiLoader.java:102-108 | granted exactly when the sequencer is free or already this holder's. The grantee becomes the current holder and the only listener. A denial changes nothing. |
| Midi.MidiLoader.RequestSequencer | src/javax/media/utils/loaders/sound/MidiLoader.java:116-120 | true exactly for the current holder, which is exactly the registered listener |
| Midi.MidiLoader.Close | src/javax/media/utils/loaders/sound/MidiLoader.java:125-136 | the current holder is stopped manually, the sequencer stops and is released, and the loader is closed. The holders stay registered. |
| Midi.MidiSoundHolder.constructor | src/javax/media/utils/loaders/sound/MidiSoundHolder.java:31-33 | a new holder belongs to its loader, has no sequence and is in the initial state |
| Midi.MidiSoundHolder.LoadFile | src/javax/media/utils/loaders/sound/MidiSoundHolder.java:36-42 | it passes exactly when the data is accepted, and then the file becomes the holder's sequence. Invalid MIDI data fails with `UnsupportedAudioFile`. An `IOException` escapes as `LoadFailed`. Both failures keep the old sequence. |
| Midi.MidiSoundHolder.Play | src/javax/media/utils/loaders/sound/MidiSoundHolder.java:45-58 | as written: with no sequence it returns and changes nothing. When the sequencer is free or already its own, it becomes the current holder and only listener. Then, if the sequencer accepts the sequence, it loads it from position 0, starts it and is `PLAYING`. If not, `play` throws `InvalidAudioData` and leaves the sequencer and the state as they were. When another holder has the sequencer, it dereferences `null` (`NullPointer`). |
| Midi.MidiSoundHolder.PlayWhenFree | src/javax/media/utils/loaders/sound/MidiSoundHolder.java:45-58 | corrected `play`: it never ends in `NullPointer`, and a denial changes nothing and returns. A grant does what `Play` does, `InvalidAudioData` included. |
| Midi.MidiSoundHolder.Stop | src/javax/media/utils/loaders/sound/MidiSoundHolder.java:61-74 | the current holder stops the sequencer where it is, releases it and is `STOPPED_MANUALLY`. For any other holder nothing changes. |
| Midi.MidiSoundHolder.Pause | src/javax/media/utils/loaders/sound/MidiSoundHolder.java:77-87 | the current holder stops the sequencer where it is and is `PAUSED`. For any other holder nothing changes. |
| Midi.MidiSoundHolder.Seek | src/javax/media/utils/loaders/sound/MidiSoundHolder.java:90-96 | only the current holder moves the sequencer's position |
| Midi.MidiSoundHolder.Resume | src/javax/media/utils/loaders/sound/MidiSoundHolder.java:99-108 | the current holder starts the sequencer again from where it is and is `PLAYING` |
| Midi.MidiSoundHolder.Meta | src/javax/media/utils/loaders/sound/MidiSoundHolder.java:111-129 | an end-of-track event (type 47) while `PLAYING` either restarts from position 0 and tells the watchers it looped, or finishes and tells them it ended, according to looping. A finished track leaves the sequencer of the holder playing it stopped, as a sequencer does at the end of its track. Any other event or state changes nothing. |
| SoundLoading.ParseSoundLine | src/javax/media/utils/loaders/sound/SoundLoader.java:72-93 | a line is skipped exactly when it is blank or a `//` comment, and rejected with "no file name" exactly when it does not have exactly one word after the command. Otherwise the command is the lower-cased first character and the file is that one word. |
| SoundLoading.SoundLineRoundTrip | src/javax/media/utils/loaders/sound/SoundLoader.java:83-93 | writing a command word and a file name on one line parses back to that command letter, lower-cased, and that file |
| SoundLoading.StepEffect | src/javax/media/utils/loaders/sound/SoundLoader.java:89-128 | one sound line throws exactly when its file is read (it is readable, the command is `m` or `c`, and for `m` the name is new and a MIDI loader exists or can be created) and loading fails with something other than `UnsupportedAudioFileException`. It passes exactly when it is well formed, its file is readable with accepted data, its command is `m` or `c`, and for `m` the same MIDI conditions hold. A passing line maps its name to its kind, and MIDI names only grow. |
| SoundLoading.SoundRunKeeps | src/javax/media/utils/loaders/sound/SoundLoader.java:65-132 | reading a sound configuration never drops a name. MIDI names only grow. The bound between sounds and MIDI names holds throughout. |
| SoundLoading.SoundRunLoaded | src/javax/media/utils/loaders/sound/SoundLoader.java:65-132 | a configuration that loads passed every line, and the names afterwards are the old ones plus one per sound line |
| SoundLoading.SoundRunMidiOnce | src/javax/media/utils/loaders/sound/MidiLoader.java:65-71 | in a configuration that loads, no MIDI line reuses a name the MIDI loader had, and no two MIDI lines share a name |
| SoundLoading.SoundRunStops | src/javax/media/utils/loaders/sound/SoundLoader.java:123-129 | a configuration that is not read to the end stops at a line inside the file, and every earlier line passed. Either that line is rejected with its trimmed text, or it read a file whose loading failed with an exception the reader does not catch. |
| SoundLoading.SoundLoader.constructor | src/javax/media/utils/loaders/sound/SoundLoader.java:45-47 | a new loader has no sounds and no MIDI loader yet |
| SoundLoading.SoundLoader.LoadClip | src/javax/media/utils/loaders/sound/SoundLoader.java:105-117 | one `c` line changes the abstract registry as `ClipStep` says: a file with accepted data replaces whatever was under the name with a fresh clip holder. Refused data rejects the line, a failed load throws, and neither changes anything. |
| SoundLoading.SoundLoader.LoadMidi | src/javax/media/utils/loaders/sound/SoundLoader.java:99-117 | one `m` line changes the loader's abstract registry as `MidiStep` says. The MIDI loader is created once and then kept. A loaded holder has the file as its sequence. A name whose data is refused or whose loading throws stays taken in the MIDI loader. |
| SoundLoading.SoundLoader.LoadSound | src/javax/media/utils/loaders/sound/SoundLoader.java:89-128 | any parsed line changes the abstract registry as `SoundStep` says. Every new or replaced entry is a fresh holder. |
| SoundLoading.SoundLoader.LoadLines | src/javax/media/utils/loaders/sound/SoundLoader.java:72-129 | the reading loop over the trimmed and parsed lines ends as `SoundRun` says and leaves the registry `SoundRun` computes. The MIDI loader is created at most once and then kept, and every new or replaced holder is fresh. |
| SoundLoading.SoundLoader.LoadSoundsFromConfig | src/javax/media/utils/loaders/sound/SoundLoader.java:65-132 | reading a whole file ends as `SoundRun` says, with the registry `SoundRun` computes |
| SoundLoading.SoundLoader.GetHolder | src/javax/media/utils/loaders/sound/SoundLoader.java:140-142 | the holder registered under the name, or `None` (Java `null`) exactly when there is none |
| Scenarios.RepeatingCannotBeDisabled | src/javax/media/utils/loaders/images/ImageAnimator.java:64-66 | `setRepeating(false)` on a new animator leaves it repeating |
| Scenarios.RepeatingDisabled | src/javax/media/utils/loaders/images/ImageAnimator.java:59-63 | the documented operation turns repeating off again |
| Scenarios.JumpThenTick | src/javax/media/utils/loaders/images/GroupImageAnimator.java:20-25 | in a group a, b, c, jumping to c and ticking once shows b |
| Scenarios.JumpSyncedThenTick | src/javax/media/utils/loaders/images/GroupImageAnimator.java:20-25 | with the time moved to c as well, the tick shows a, the frame after c |
| Scenarios.PlayWhileAnotherPlays | src/javax/media/utils/loaders/sound/MidiSoundHolder.java:45-58 | playing a second MIDI while the first plays ends in a null dereference |
| Scenarios.PlayWhenFreeWhileAnotherPlays | src/javax/media/utils/loaders/sound/MidiSoundHolder.java:45-58 | with the corrected play, the first MIDI keeps the sequencer and the second stays silent |
| Scenarios.RefusedSequenceKeepsSequencer | src/javax/media/utils/loaders/sound/MidiSoundHolder.java:49-56 | after a play whose sequence the sequencer refuses, that holder still has the sequencer, so playing a second MIDI ends in a null dereference |
| Scenarios.NullFrameRegistered | src/javax/media/utils/loaders/images/ImageLoader.java:223-231 | an `o` line for a file that reads as `null` registers a holder whose first frame is `null` |
| Scenarios.NullStripThrows | src/javax/media/utils/loaders/images/ImageLoader.java:148-155 | an `s` line for a file that reads as `null` throws |
| Scenarios.StripLineThrows | src/javax/media/utils/loaders/images/ImageLoader.java:181 | a readable four-frame strip line throws instead of loading |
| Scenarios.StripFramesLoad | src/javax/media/utils/loaders/images/ImageLoader.java:238-241 | loading the same strip's frames without file names registers a holder with all four |

## Left out

- I/O, as a whole:
  - reading the configuration file and `IOException`, because the lines are an input;
  - `System.out` logging;
  - the `ImageLoader(File)` and `SoundLoader(File)` constructors, because they are the no-argument constructor followed by the modelled `LoadImagesFromConfig` or `LoadSoundsFromConfig`.
- Image decoding, audio decoding and format conversion (`ImageIO`, `AudioSystem`, `MidiSystem`). They become the parameters `decode`, `present`, `readable`, `audio` and `midiAvailable`.
- Pixel content. A decoded `Image` is `Picture(id)` with an uninterpreted number.
- Cutting a strip into sub-images with `Graphics2D` (`ImageLoader.java:155-179`). `StripFrames` yields `count` frames that stand for the strip's pieces, so frame contents are not modelled.
- The Swing `Timer` and its thread. The timer is a `running` flag, and a tick is a call to `Tick`. Real time and delay drift are not modelled.
- Threads and synchronization: the timer thread, `javax.sound` event threads, and `Collections.synchronizedSet`. Every operation is modelled as atomic.
- What watchers do when called. A call is a logged `Notice`.
- `long` arithmetic in `ImageAnimator`, and the `(int)` cast in `setAnimationPeriod`. Integers are unbounded, so overflow after very long runs is not modelled.
- Path normalisation by `java.io.File`. A path is the directory, `/` and the name. Platform separators are not modelled.
- Case folding beyond ASCII. `Character.toLowerCase` is only applied to the command letter.
- `getResourceIndex`, which `GroupImageHolder` calls, is defined in no file of the source. It is the uninterpreted `resourceIndex`.
- `GroupImageHolder.addImage(String, BufferedImage)` is not modelled separately. It is `AddImage` on a group holder, as the list of places where the code does not compile explains.
- `ImageAnimator.getImageHolder` and `GroupImageAnimator.getImageGroupHolder` need no member of their own: they return the animator's `source` field.
- `GetGroupHolder` returns `None` (Java `null`) when the holder is not a group holder, as the `instanceof` check before the cast does.
- The accessors without a contract of their own are plain functions and predicates on the state: `countImages`, `getCurrentPosition`, `isStopped`, `finishedLooping` and `isLoaded`.
- `BadConfigurationLineException`'s setters and getters are not modelled separately. The line number, line and error are the fields of `BadLine`.
- `ImageLoader.loadImage(File)` is the `decode` parameter.
- `toString` methods are not modelled.
- `ClipSoundHolder.play` declares `InvalidAudioDataException` but never throws it. Only `MidiSoundHolder.play` does, and `Play` models that.
- Sound.ClipSoundHolder.LoadFile: when the line fails to open (`ClipSoundHolder.java:52-54`), Java has already stored the unopened clip in its field. The model keeps the old clip. The sound loader discards the holder either way.
- ConfigText.ParseInt: ASCII digits only. `Integer.parseInt` also accepts digits of other scripts, such as Arabic-Indic digits. Those are rejected here.
- Images.ImageAnimator.AddWatcher: requires an animator that is not destroyed. After `destroy` the watcher set is `null` and Java throws `NullPointerException`. That is not modelled.
- Images.ImageAnimator.SetAnimationPeriod: requires an animator that is not destroyed. After `destroy` the timer is `null`, so every call throws `NullPointerException` once the period is stored or kept. That is not modelled.
- Images.ImageAnimator.Tick: requires an animator that is not destroyed. `destroy` unhooks the animator from its timer, so no further tick arrives.
- Images.ImageAnimator.Start: requires an animator that is not destroyed. Java's `NullPointerException` on the `null` timer is not modelled.
- Images.ImageAnimator.Stop: requires an animator that is not destroyed. Java's `NullPointerException` on the `null` timer is not modelled.
- Images.ImageAnimator.Resume: requires an animator that is not destroyed. Java's `NullPointerException` on the `null` timer is not modelled.
- Images.ImageAnimator.RestartAt: requires an animator that is not destroyed. Java's `NullPointerException` for a position in range is not modelled.
- Images.ImageAnimator.Destroy: requires an animator that is not destroyed. A second `destroy` throws `NullPointerException` on the `null` timer, which is not modelled.
- Midi.MidiLoader.Close: requires an open loader. A second `close` throws `NullPointerException` on the `null` sequencer (`MidiLoader.java:131`), which is not modelled.
- The `SoundHolder`, `SoundWatcher` and `ImageWatcher` interfaces declare no behaviour. A watcher is the `Watcher` identity of the Watchers module, and a sound holder is a `SoundRef`.
- Midi.MidiSoundHolder.Play: requires the loader to be open. Playing after `MidiLoader.close` is not modelled.
- Midi.MidiSoundHolder.PlayWhenFree: requires the loader to be open, as `Play` does.
- SoundLoading.SoundLoader.LoadSoundsFromConfig: `midiAvailable` is one value for the whole file. It is only consulted when the first `m` line creates the MIDI loader.
- SoundLoading.SoundLoader.LoadSoundsFromConfig: trims and parses every line before `LoadLines` loads them, where the Java loop trims and parses each line when it reaches it. Both are pure and total in the model, so no outcome differs. Only lines after the one that stops the reading are parsed needlessly.
- SoundLoading.SoundLoader.LoadSoundsFromConfig: promises only that new or replaced holders are fresh. It does not carry each holder's loaded file across the loop. `LoadClip` and `LoadMidi` state that per line.
- ImageLoading.ImageLoader.LoadImagesFromConfig: promises that new holders are fresh, but not that they are non-empty. `LoadParsed` states non-emptiness per line.

## Findings

| source | as written | input that shows it | evidently intended | confidence | as-written member | corrected member |
|---|---|---|---|---|---|---|
| src/javax/media/utils/loaders/images/ImageAnimator.java:64-66 | `setRepeating` always sets repeating to true and ignores its argument | `setRepeating(false)` on any animator | repeating equals the argument, as the method's documentation says | not executed | Scenarios.RepeatingCannotBeDisabled | Scenarios.RepeatingDisabled |
| src/javax/media/utils/loaders/images/GroupImageAnimator.java:20-25 | `setCurrentImage` changes the frame but not the animation time, so the next tick goes on from the old time | group a, b, c at frame 0, `setCurrentImage("c")`, one tick: frame b is shown | the next tick goes on from the named frame (to a) | not executed | Scenarios.JumpThenTick | Scenarios.JumpSyncedThenTick |
| src/javax/media/utils/loaders/sound/MidiSoundHolder.java:45-58 | when `requestPlay` denies the sequencer, `play` calls a method on `null` | two loaded MIDI holders, `first.play()` then `second.play()` | a denied play does nothing and throws nothing | not executed | Scenarios.PlayWhileAnotherPlays | Scenarios.PlayWhenFreeWhileAnotherPlays |
| src/javax/media/utils/loaders/images/ImageLoader.java:181 | an `s` line passes `null` as the file-name array to `loadImages`, which indexes it for the first frame, so every readable strip throws | `s strip.png 4` with a readable strip | the strip's frames are registered under the strip's name | not executed | Scenarios.StripLineThrows | Scenarios.StripFramesLoad |

More on the two halves of each finding:

- **setRepeating.** The as-written half is `Images.ImageAnimator.SetRepeating`. The corrected half is `Images.ImageAnimator.SetRepeatingAsDocumented`.
- **setCurrentImage.** The as-written half is `Images.ImageAnimator.SetCurrentImage`. The corrected half is `Images.ImageAnimator.SetCurrentImageSynced`. Its postcondition proves that the next tick shows the following frame, by `FrameClock.StepFromAligned`.
- **play.** The as-written half is `Midi.MidiSoundHolder.Play`. The corrected half is `Midi.MidiSoundHolder.PlayWhenFree`.
- **strip lines.**
  - The as-written half is `ImageLoading.ImageLoader.LoadImagesArrays` with no file names. `LoadStripLine` uses it, so a strip line ends in `Threw`, and `Run` turns that into `Crashed`.
  - The corrected half is `ImageLoading.ImageLoader.LoadFrames`, which loads the frames alone.
  - The loader specification (`Expected`, `Run`) keeps the behaviour as written, so that it describes what the loader does.
