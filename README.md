# flutter_midi_pro control layer, modelled in Dafny

flutter_midi_pro lets a Flutter app load a SoundFont, pick an instrument and
start and stop notes on a platform synthesizer. Each platform has its own
handler for the method channel `flutter_midi_pro`. This project models the
control logic of five files, each as written and each on its own:

- `native_lib.dfy` (`NativeLib`): the JNI library over FluidSynth. Its
  global state is one class, `NativeSynth`: the nullable `synth` and
  `adriver` pointers, the `std::map<int, int> soundfonts`, and a log of
  every FluidSynth call. Reads of the map go through `operator[]`, so an
  unknown id gets an entry 0 inserted. `Subscript` and `Indexed` model that
  read. `selectInstrument` loops over the channel count, and the read sits
  inside the loop, so the insertion happens only if there is at least one
  channel. `dispose` does not reset `adriver`, so a second `dispose` deletes
  the same driver pointer again: `Dispose`'s contract shows this.
- `android_plugin.dfy` (`AndroidPlugin`): the Kotlin `onMethodCall`.
  `Decide` is the pure part: required arguments, defaults, error replies, and
  `notImplemented`. The class `FlutterMidiProPlugin` runs the load branch in
  order: capture the music stream volume, set it to 0, call the native load,
  restore the captured volume, reply. A missing `path` makes
  `as String` throw inside the coroutine, so no reply is sent; the model
  calls this `Uncaught`.
- `ios_plugin.dfy` (`IosPlugin`): the Swift `handle` on iOS. It is a
  `NOT_INITIALIZED` guard over three fields that nothing writes, followed by
  a switch of fixed answers.
- `macos_plugin.dfy` (`MacosPlugin`): the Swift `handle` on macOS. It has
  three commands over an engine and a sampler, which appear only as an event
  log. Every Swift runtime trap ends the call with `Trap`: a failed `!`, a
  failed `as!`, or a note or velocity outside `UInt8`. `decimal.dfy`
  (`Decimal`) renders the note the way `String(describing:)` prints a
  `UInt8`.
- `audio_system.dfy` (`AudioSystem`): provider selection in the Java
  `AudioSystem`. Readers are searched first-success in a fixed order. The
  conversion has an identity shortcut and then takes the first supporting
  converter. `getTargetFormats` concatenates the converters' arrays. The
  readers and the converter are function parameters. Formats and streams are
  type parameters.

Collaborators are parameters. These are the id that `fluid_synth_sfload`
returns, the channel count, the pointers (possibly NULL) that creating the
synthesizer and the driver returns, the value the
Kotlin native load returns, whether `AVAudioEngine.start()` throws, and what
each reader or converter answers.

The code has one global synthesizer per platform and no bookkeeping beyond
what is described above: there is no instance registry and no `NotFound`
failure, no lifecycle state machine, no table of active notes, no
`stopAllNotes`, no range check on channel, key or velocity (other than the
Swift `UInt8` conversion on macOS), and no locking. The model has none of
these either.

## Model

| member | source | states |
|---|---|---|
| `NativeLib.NativeSynth.constructor` | android/src/main/cpp/native-lib.cpp:7-9 | `synth` and `adriver` start NULL, the map starts empty, and no call has been made |
| `NativeLib.NativeSynth.FluidsynthInit` | android/src/main/cpp/native-lib.cpp:12-29 | the synth is created and then the audio driver on it; each pointer takes exactly what creation returned, NULL included, with no check; the map is untouched |
| `NativeLib.Indexed` | android/src/main/cpp/native-lib.cpp:57 | `operator[]` leaves `key` present: its old value if it had one, else 0; `key` is the only new key and existing values do not change |
| `NativeLib.IndexedIdempotent` | android/src/main/cpp/native-lib.cpp:56-58 | reading the same key through `operator[]` again, as each loop iteration does, changes nothing more |
| `NativeLib.NativeSynth.Subscript` | android/src/main/cpp/native-lib.cpp:57 | the read returns the stored value, or 0 for an absent key, and the map becomes `Indexed` of the old map |
| `NativeLib.NativeSynth.LoadSoundfont` | android/src/main/cpp/native-lib.cpp:31-51 | returns exactly the loader's id and stores it under itself unchecked, so a failure id is stored too; the log gains the load and then the demo trace |
| `NativeLib.Chime` | android/src/main/cpp/native-lib.cpp:39-41 | one demo note is a note-on on channel 0 at velocity 127 followed by the note-off of the same key |
| `NativeLib.DemoTrace` | android/src/main/cpp/native-lib.cpp:39-49 | the demo trace is six calls: for keys 60, 62, 64 in turn, note-on(0, k, 127) directly followed by note-off(0, k) |
| `NativeLib.ProgramSelects` | android/src/main/cpp/native-lib.cpp:56-58 | exactly one program-select per channel index 0..count-1 (none when count ≤ 0), all with the same font, bank and program |
| `NativeLib.NativeSynth.SelectInstrument` | android/src/main/cpp/native-lib.cpp:54-59 | the log gains `ProgramSelects` of the font stored for `sfId`, or font 0 if absent; an absent id is inserted with 0 whenever at least one channel exists |
| `NativeLib.NativeSynth.PlayNote` | android/src/main/cpp/native-lib.cpp:62-65 | forwards channel, key and velocity unchanged; the map is not in its frame |
| `NativeLib.NativeSynth.StopNote` | android/src/main/cpp/native-lib.cpp:68-71 | forwards channel and key unchanged; the map is not in its frame |
| `NativeLib.UnloadEffect` | android/src/main/cpp/native-lib.cpp:76-77 | `operator[]` then `erase` removes `key` and keeps every other entry; for an absent key the map ends up as it was |
| `NativeLib.NativeSynth.UnloadSoundfont` | android/src/main/cpp/native-lib.cpp:74-78 | no entry remains for `sfId` and all others are unchanged; the unload is issued for the stored font id, or for 0 when the id was absent |
| `NativeLib.NativeSynth.Dispose` | android/src/main/cpp/native-lib.cpp:81-86 | afterwards the map is empty and `synth` is NULL whatever the state before, so a second call changes neither; both deletes are logged, and the driver delete uses the `adriver` that is never reset |
| `NativeLib.NativeSynth.DisposeTwice` | android/src/main/cpp/native-lib.cpp:82-84 | two `dispose` calls in a row delete the same driver pointer twice, because `adriver` is never reset, and the second deletes a NULL synthesizer; afterwards `synth` is NULL and the map is empty |
| `AndroidPlugin.IntArgument` | android/src/main/kotlin/com/melihhakanpektas/flutter_midi_pro/FlutterMidiProPlugin.kt:75-78 | `call.argument<Int>` is null exactly when the argument is absent, and is its value otherwise |
| `AndroidPlugin.Decide` | android/src/main/kotlin/com/melihhakanpektas/flutter_midi_pro/FlutterMidiProPlugin.kt:47-111 | per method: load defaults bank and program to 0 and throws without a path; select never fails and defaults sfId 1, channel 0, bank 0, program 0; play needs channel, key, velocity and sfId, stop needs channel, key and sfId, and unload needs sfId. A missing argument gives `INVALID_ARGUMENT` with its message and no native call, otherwise one native call with those values and success(null); dispose always succeeds; any other name gives notImplemented with no native call |
| `AndroidPlugin.NativeCallOnlyWhenArgumentsPresent` | android/src/main/kotlin/com/melihhakanpektas/flutter_midi_pro/FlutterMidiProPlugin.kt:74-105 | an error reply never comes with a native call, and an immediate native call is always answered with success(null) |
| `AndroidPlugin.LoadReply` | android/src/main/kotlin/com/melihhakanpektas/flutter_midi_pro/FlutterMidiProPlugin.kt:59-63 | the load reply is `INVALID_ARGUMENT` exactly when native returned -1, and success(sfId) otherwise |
| `AndroidPlugin.VolumeAfter` | android/src/main/kotlin/com/melihhakanpektas/flutter_midi_pro/FlutterMidiProPlugin.kt:55-58 | the stream volume after a log of effects is the initial volume or one of the levels the log set, and the initial volume when the log sets none |
| `AndroidPlugin.LoadEffects` | android/src/main/kotlin/com/melihhakanpektas/flutter_midi_pro/FlutterMidiProPlugin.kt:54-58 | the load branch makes exactly one native call, the load, as its second step; after the first two steps the volume is 0 from any start, and after all three it is the restored level |
| `AndroidPlugin.VolumeAfterConcat` | android/src/main/kotlin/com/melihhakanpektas/flutter_midi_pro/FlutterMidiProPlugin.kt:54-58 | the stream volume after a log is the volume after its first part, replayed through the rest |
| `AndroidPlugin.QuietSwap` | android/src/main/kotlin/com/melihhakanpektas/flutter_midi_pro/FlutterMidiProPlugin.kt:53-58 | after any history, the native load runs while the stream volume is 0, and once the branch ends the volume equals the volume before it |
| `AndroidPlugin.FlutterMidiProPlugin.SetVolume` | android/src/main/kotlin/com/melihhakanpektas/flutter_midi_pro/FlutterMidiProPlugin.kt:55 | `setStreamVolume` sets the volume and is logged |
| `AndroidPlugin.FlutterMidiProPlugin.CallNative` | android/src/main/kotlin/com/melihhakanpektas/flutter_midi_pro/FlutterMidiProPlugin.kt:20-35 | a native call is logged and leaves the volume alone |
| `AndroidPlugin.FlutterMidiProPlugin.OnMethodCall` | android/src/main/kotlin/com/melihhakanpektas/flutter_midi_pro/FlutterMidiProPlugin.kt:46-112 | the handler does what `Decide` says. For a load the log gains mute, native load, restore of the captured volume; the reply is `LoadReply` of the native result; the final volume equals the initial volume whether or not the load failed |
| `IosPlugin.Handle` | ios/Classes/FlutterMidiProPlugin.swift:19-56 | `NOT_INITIALIZED` exactly when `(isDisposed ∨ ¬isInitialized) ∧ method ≠ "loadSoundfont" ∧ synth == nil`, and then no branch runs; past the guard `isInitialized` answers `synth != nil`, the six other known methods their confirmation text, and anything else `FlutterMethodNotImplemented` |
| `IosPlugin.Confirmation` | ios/Classes/FlutterMidiProPlugin.swift:27-52 | each confirming method has its fixed, non-empty text |
| `IosPlugin.Rejects` | ios/Classes/FlutterMidiProPlugin.swift:22 | the guard never rejects `loadSoundfont` or any call while `synth` is non-nil, never rejects an initialized, undisposed plugin, and in the initial state rejects exactly the names other than `loadSoundfont` |
| `IosPlugin.GuardExemptions` | ios/Classes/FlutterMidiProPlugin.swift:22 | `loadSoundfont` is never rejected, and no method is rejected while `synth` is non-nil |
| `IosPlugin.Session` | ios/Classes/FlutterMidiProPlugin.swift:19-56 | a series of calls is answered call by call against the same fields, since `handle` writes none of them |
| `IosPlugin.RegisteredSession` | ios/Classes/FlutterMidiProPlugin.swift:9-25 | from the initial fields (nil, false, false), every call of a series except `loadSoundfont` answers `NOT_INITIALIZED`, `isInitialized` included |
| `MacosPlugin.SwiftFlutterMidiProPlugin.constructor` | macos/Classes/SwiftFlutterMidiProPlugin.swift:8-9 | `message` starts as "Please Send Message" and `_arguments` starts empty |
| `MacosPlugin.AsStringDictionary` | macos/Classes/SwiftFlutterMidiProPlugin.swift:22 | `as? Dictionary<String, String>` succeeds exactly when the arguments are a dictionary of strings only, and keeps every entry |
| `MacosPlugin.LoadPath` | macos/Classes/SwiftFlutterMidiProPlugin.swift:22-24 | the path is present exactly when the arguments are a string dictionary with a `path` key; otherwise `data!` traps |
| `MacosPlugin.UInt8Argument` | macos/Classes/SwiftFlutterMidiProPlugin.swift:38-39 | `UInt8(x as! Int)` succeeds exactly when the argument is an Int in 0..255, and keeps its value |
| `MacosPlugin.SwiftFlutterMidiProPlugin.Handle` | macos/Classes/SwiftFlutterMidiProPlugin.swift:19-53 | load answers "Prepared Sound Font" even when start or the bank load throws, after attach, connect, start and, if start succeeded, the bank load with program 0 and banks 0x79/0; play and stop store the argument map in `_arguments`, start or stop `note` on channel 0 (play at `velocity`) and answer "Playing: " or "Stopped: " plus the note; a trap ends the call and no note is sent; any other name answers `FlutterMethodNotImplemented` and changes nothing |
| `MacosPlugin.LoadEvents` | macos/Classes/SwiftFlutterMidiProPlugin.swift:26-33 | the load asks for attach, connect and start in that order; a failed start leaves out only the bank load, and a successful one adds the bank load with program 0, bank MSB 0x79 and bank LSB 0 |
| `MacosPlugin.NoteReplyNamesNote` | macos/Classes/SwiftFlutterMidiProPlugin.swift:41-47 | two note replies with the same prefix are equal only for the same note |
| `Decimal.DigitChar` | macos/Classes/SwiftFlutterMidiProPlugin.swift:41 | a digit value maps to its character |
| `Decimal.DecimalString` | macos/Classes/SwiftFlutterMidiProPlugin.swift:41 | the rendering is a non-empty run of digits without a leading zero, and "0" for zero |
| `Decimal.ParseDecimalString` | macos/Classes/SwiftFlutterMidiProPlugin.swift:47 | reading back the rendering of a number gives the number |
| `Decimal.DecimalStringInjective` | macos/Classes/SwiftFlutterMidiProPlugin.swift:47 | different numbers render differently |
| `AudioSystem.AudioFileReaders` | android/src/main/kotlin/com/melihhakanpektas/midisynthesizer/sampled/AudioSystem.java:470-475 | the installed readers are WaveFloatFileReader and then WaveExtensibleFileReader, each once |
| `AudioSystem.FormatConversionProviders` | android/src/main/kotlin/com/melihhakanpektas/midisynthesizer/sampled/AudioSystem.java:453-458 | AudioFloatFormatConverter is the one installed converter |
| `AudioSystem.Interpret` | android/src/main/kotlin/com/melihhakanpektas/midisynthesizer/sampled/AudioSystem.java:224-229 | the stopping reader's answer becomes the result if non-null; null becomes UnsupportedAudioFileException with the method's message; an IOException propagates |
| `AudioSystem.FirstReader` | android/src/main/kotlin/com/melihhakanpektas/midisynthesizer/sampled/AudioSystem.java:213-229 | a found result is the non-null answer of some reader; an IOException comes from some reader that threw it; UnsupportedAudioFileException carries the method's message and is the outcome whenever every reader throws Unsupported |
| `AudioSystem.StopIndex` | android/src/main/kotlin/com/melihhakanpektas/midisynthesizer/sampled/AudioSystem.java:213-222 | the index of the first reader that does not throw Unsupported: every earlier one throws it |
| `AudioSystem.FirstReaderAtStopIndex` | android/src/main/kotlin/com/melihhakanpektas/midisynthesizer/sampled/AudioSystem.java:213-229 | the search answers what the first non-Unsupported reader answers and consults no later reader; UnsupportedAudioFileException exactly when every reader throws Unsupported or the stopping reader returned null |
| `AudioSystem.InstalledReaderOrder` | android/src/main/kotlin/com/melihhakanpektas/midisynthesizer/sampled/AudioSystem.java:470-475 | with the installed readers, WaveFloatFileReader decides unless it throws Unsupported, and then WaveExtensibleFileReader decides |
| `AudioSystem.SearchReaders` | android/src/main/kotlin/com/melihhakanpektas/midisynthesizer/sampled/AudioSystem.java:210-229 | the `for`/`break`/`continue` loop over the installed readers computes the first-success search |
| `AudioSystem.GetAudioFileFormat` | android/src/main/kotlin/com/melihhakanpektas/midisynthesizer/sampled/AudioSystem.java:207-230 | `getAudioFileFormat(InputStream)` is the first-success search with "file is not a supported file type" |
| `AudioSystem.GetAudioInputStream` | android/src/main/kotlin/com/melihhakanpektas/midisynthesizer/sampled/AudioSystem.java:255-278 | the stream overload follows the same rule with its own message |
| `AudioSystem.GetAudioInputStreamFromFile` | android/src/main/kotlin/com/melihhakanpektas/midisynthesizer/sampled/AudioSystem.java:336-359 | the File overload follows the same rule with its own message |
| `AudioSystem.GetAudioInputStreamFromUrl` | android/src/main/kotlin/com/melihhakanpektas/midisynthesizer/sampled/AudioSystem.java:376-399 | the URL overload follows the same rule with its own message |
| `AudioSystem.FirstSupporting` | android/src/main/kotlin/com/melihhakanpektas/midisynthesizer/sampled/AudioSystem.java:303-310 | the index of the first converter that supports the pair: no earlier one does |
| `AudioSystem.FirstCodec` | android/src/main/kotlin/com/melihhakanpektas/midisynthesizer/sampled/AudioSystem.java:303-314 | a converted stream comes from some converter that supports the pair; IllegalArgumentException exactly when no converter supports it, naming the target and the source format |
| `AudioSystem.Convert` | android/src/main/kotlin/com/melihhakanpektas/midisynthesizer/sampled/AudioSystem.java:297-314 | a source whose format matches the target is returned itself; IllegalArgumentException only when the formats do not match, naming both |
| `AudioSystem.FirstCodecAtFirstSupporting` | android/src/main/kotlin/com/melihhakanpektas/midisynthesizer/sampled/AudioSystem.java:303-314 | the converter search converts with the first supporting converter, or throws IllegalArgumentException naming both formats |
| `AudioSystem.ConvertUsesFirstSupporting` | android/src/main/kotlin/com/melihhakanpektas/midisynthesizer/sampled/AudioSystem.java:297-314 | a source whose format matches the target is returned itself; otherwise the first supporting converter is used; IllegalArgumentException exactly when the formats do not match and no converter supports the pair |
| `AudioSystem.GetConvertedAudioInputStream` | android/src/main/kotlin/com/melihhakanpektas/midisynthesizer/sampled/AudioSystem.java:294-315 | the method with its early returns computes that conversion over the installed converters |
| `AudioSystem.TargetFormatLists` | android/src/main/kotlin/com/melihhakanpektas/midisynthesizer/sampled/AudioSystem.java:423-428 | one target-format array per converter, in converter order |
| `AudioSystem.Concat` | android/src/main/kotlin/com/melihhakanpektas/midisynthesizer/sampled/AudioSystem.java:432-438 | every format of every converter's array appears in the joined array, and every element of the joined array comes from one of them |
| `AudioSystem.ConcatLength` | android/src/main/kotlin/com/melihhakanpektas/midisynthesizer/sampled/AudioSystem.java:417-432 | the concatenation is exactly as long as the sum of the arrays' lengths |
| `AudioSystem.TotalLengthOfPrefix` | android/src/main/kotlin/com/melihhakanpektas/midisynthesizer/sampled/AudioSystem.java:433-438 | the formats before any converter's number never exceed `size`, which keeps the write index in bounds |
| `AudioSystem.ConcatAppend` | android/src/main/kotlin/com/melihhakanpektas/midisynthesizer/sampled/AudioSystem.java:433-438 | concatenating two runs of arrays is concatenating each run and joining the results |
| `AudioSystem.ConcatPlacesEachList` | android/src/main/kotlin/com/melihhakanpektas/midisynthesizer/sampled/AudioSystem.java:433-438 | each converter's array appears unchanged and contiguous in the result, after all arrays of earlier converters |
| `AudioSystem.InstalledTargetFormats` | android/src/main/kotlin/com/melihhakanpektas/midisynthesizer/sampled/AudioSystem.java:453-458 | with the one installed converter, AudioFloatFormatConverter, the result is exactly its target formats |
| `AudioSystem.GetTargetFormats` | android/src/main/kotlin/com/melihhakanpektas/midisynthesizer/sampled/AudioSystem.java:412-440 | returns a new array whose length is the sum of the converters' array lengths and whose contents are their concatenation in converter order; every write index is below `size` |

## Left out

- FluidSynth settings and the audio driver's behaviour (sample rate 44100, gain 0.8, buffer sizes, periods): `fluidsynthInit` is modelled only as creating the synthesizer and the driver, because the settings are floating-point and driver configuration inside FluidSynth.
- What FluidSynth does with a call (including a call on a NULL `synth`): each call is only logged, and the values it returns are parameters, because FluidSynth is not part of this model.
- `sleep(1)` in the native load and `delay(1000L)` in the Kotlin load: no-ops, because only the order of the surrounding steps is observable in the model.
- The coroutine on `Dispatchers.Main` in the Kotlin load: modelled as running to completion in sequence, because concurrency is out of scope. This hides one interleaving: while `delay(1000L)` is suspended, a second load can start on Main, capture the muted level 0 and later restore 0. So "the final volume equals the initial volume" in `OnMethodCall` and `QuietSwap` holds only for loads that do not overlap.
- The synthesizer argument of FluidSynth calls: the call log records it for the driver creation and the synthesizer delete only. Every other call is made on the `synth` global's value at that moment, and the log does not show which. On Android that value stays NULL unless `fluidsynthInit` runs, and the Kotlin side declares no `fluidsynthInit`.
- JNI string marshalling, `System.loadLibrary`, method-channel registration, `onAttachedToEngine`/`onDetachedFromEngine`, `register`, `detachFromEngine` and Swift `print` logging: platform plumbing with no control logic.
- AVAudioEngine and AVAudioUnitSampler: only the requests are logged; attach, connect and start have no modelled effect, and URL construction is modelled as the path string.
- `getSourceDataLine` in AudioSystem.java: a one-line wrapper around a class that is not part of this model.
- The audio file readers and the format converter: their answers are function parameters, because their classes are not part of this model.
- SoundbankReader.java, MidiDeviceReceiver.java and AutoCloseable.java: only abstract declarations, with nothing to verify.
- AndroidPlugin.Decide: does not model an argument of the wrong type (ClassCastException); arguments are split into an Int map and a String map by the type under which the handler reads them.
- AudioSystem.GetTargetFormats: does not model 32-bit overflow of `size`; the sum is an unbounded integer.
- MacosPlugin.SwiftFlutterMidiProPlugin.Handle: a thrown `loadSoundBankInstrument` is not distinguished from a successful one, because the handler only prints it and answers the same.
- MacosPlugin.SwiftFlutterMidiProPlugin.Handle: the `UInt8` range of note and velocity is modelled as a `Trap` outcome rather than as a precondition, because the conversion traps at run time.
- Nothing is said about the process after a Swift trap or an uncaught Kotlin exception; the model only reports that the call ended that way.
