# Android audio recorder module, modelled in Dafny

This project models the recorder side of the React Native audio toolkit on
Android (`AudioRecorderModule`). The module keeps a registry of native
`MediaRecorder` objects keyed by ids that JavaScript chooses. It holds an
auto-destroy flag per id and one module-wide metering state: the target id and
recorder, the interval, the frame counter and the timer. Its bridge commands
are `prepare`, `record`, `stop`, `pause` and `destroy`. Two native
listeners, `onError` and `onInfo`, report to JavaScript as events. A timer
task samples the target's amplitude and emits `meter` events.

Layout:

- `wrappers.dfy`: `Option`, for Java's `null` and for absent option keys.
- `config.dfy` (`RecorderConfig`): the output-format and encoder lookup tables,
  `lastIndexOf` and the path extension, and the option defaults
  (bitrate 128000, 2 channels, 44100 Hz, auto-destroy on).
- `events.dfy` (`RecorderEvents`): channel names
  (`RCTAudioRecorderEvent:<id>`, or `:null`), event payloads, the meter sample
  and Java's wrapping `int` increment of the frame counter.
- `registry.dfy` (`RecorderSpec`): the whole module state as a value
  (`Registry`) and the invariant every reachable state keeps (`Inv`). It also
  has one function per command and callback, returning the next state and the
  promise's settlement, and the lemmas about them.
- `recorder_module.dfy` (`RecorderModule`): the class
  `AudioRecorderModule`. Its fields are those of the Java class, plus the logs
  of released recorders and emitted events. It has one method per command,
  callback and timer tick. Each of those keeps `Valid()` and leaves
  `State()` equal to the corresponding `RecorderSpec` function of the old
  state. The two private helpers, `EmitEvent` and `StopMeteringTimer`, are
  stated by their effect on `State()` alone.
- `boxed_ids.dfy` (`BoxedIds`): the finding below.

Each native call is a boolean input to the method: `nativeOk` says whether
`MediaRecorder.prepare`, `start`, `stop` or `pause` returned normally. The
amplitude that `getMaxAmplitude` returns is an input to the tick. The Android
SDK version is an input to `pause`. Path resolution (`uriFromPath`) is a
function `resolvePath` that the module receives at construction.
`new MediaRecorder()` allocates a fresh object of the class
`RecorderSpec.MediaRecorder`. `release()` appends the recorder to
`released`. `emitEvent` appends to `emitted`.

Behaviour of the code that the model keeps as it is:

- A failed native `prepare` leaves the new recorder in the pool. The
  half-created session is not destroyed.
- `stop` and `pause` on the metering target cancel the timer. They reset the
  frame counter only if a timer was scheduled; otherwise the count is kept.
  They do not clear the target. Only `destroy` does.
- `destroy` clears the target but does not cancel the timer.
- The timer runs at the configured period. No elapsed-time test is made
  inside the tick.

## Model

| member | source | states |
|---|---|---|
| RecorderConfig.FormatFromName | android/src/main/java/com/reactnativecommunity/rctaudiotoolkit/AudioRecorderModule.java:87-102 | total: "aac", "mp4", "amr" each select their own format, "webm" and "ogg" both select WEBM, and exactly the names outside the table select DEFAULT |
| RecorderConfig.EncoderFromName | android/src/main/java/com/reactnativecommunity/rctaudiotoolkit/AudioRecorderModule.java:109-126 | total: "aac" and "aac-lc" both select AAC, "mp4" selects HE_AAC, "webm" and "ogg" both select VORBIS, "amr" selects AMR_WB, and exactly the other names select DEFAULT |
| RecorderConfig.SynonymousNames | android/src/main/java/com/reactnativecommunity/rctaudiotoolkit/AudioRecorderModule.java:87-126 | "webm" and "ogg" give the same format and the same encoder; "aac" and "aac-lc" give the same encoder |
| RecorderConfig.LastIndexOf | android/src/main/java/com/reactnativecommunity/rctaudiotoolkit/AudioRecorderModule.java:104 | -1 exactly when the character is absent; otherwise a position holding it with no occurrence after it |
| RecorderConfig.Extension | android/src/main/java/com/reactnativecommunity/rctaudiotoolkit/AudioRecorderModule.java:103-107 | the extension has no dot, is a suffix of the path, is the whole path when the path has no dot, and otherwise follows a dot |
| RecorderConfig.FormatFromPath | android/src/main/java/com/reactnativecommunity/rctaudiotoolkit/AudioRecorderModule.java:103-107 | a path without a dot is read as a format name itself; the default format is chosen exactly when the extension is not in the format table, and any other format comes from a known name at the end of the path |
| RecorderConfig.EncoderFromPath | android/src/main/java/com/reactnativecommunity/rctaudiotoolkit/AudioRecorderModule.java:127-131 | a path without a dot is read as an encoder name itself; the default encoder is chosen exactly when the extension is not in the encoder table, and any other encoder comes from a known name at the end of the path |
| RecorderConfig.ExtensionAfterLastDot | android/src/main/java/com/reactnativecommunity/rctaudiotoolkit/AudioRecorderModule.java:103-131 | for any stem, the text after the last dot is the extension, and it alone decides the format and the encoder taken from the path |
| RecorderConfig.ResolveConfig | android/src/main/java/com/reactnativecommunity/rctaudiotoolkit/AudioRecorderModule.java:231-251 | an explicit format or encoder option wins over the path's extension; bitrate, channels and sample rate are the options' values, or 128000, 2 and 44100 when absent |
| RecorderConfig.MeteringIntervalOf | android/src/main/java/com/reactnativecommunity/rctaudiotoolkit/AudioRecorderModule.java:271-276 | the installed interval is never negative, and it is positive exactly when the option is present and positive, in which case it is the option's value |
| RecorderEvents.Inc32 | android/src/main/java/com/reactnativecommunity/rctaudiotoolkit/AudioRecorderModule.java:157 | the frame counter stays a 32-bit int: it goes up by one and wraps from the largest int to the smallest |
| RecorderEvents.FrameAfter | android/src/main/java/com/reactnativecommunity/rctaudiotoolkit/AudioRecorderModule.java:157 | n increments of the frame counter keep it a 32-bit int, and equal plain addition while no wrap-around occurs |
| RecorderEvents.FrameAfterWraps | android/src/main/java/com/reactnativecommunity/rctaudiotoolkit/AudioRecorderModule.java:157 | n increments of the frame counter add n modulo 2^32 within the int range |
| RecorderEvents.NatToStringValue | android/src/main/java/com/reactnativecommunity/rctaudiotoolkit/AudioRecorderModule.java:61 | the digits rendered for a natural number read back as that number |
| RecorderEvents.IntToString | android/src/main/java/com/reactnativecommunity/rctaudiotoolkit/AudioRecorderModule.java:61 | the decimal rendering of an id is never empty; its sign, digits, value and the rendering of 0 are stated by IntToStringValue |
| RecorderEvents.IntToStringValue | android/src/main/java/com/reactnativecommunity/rctaudiotoolkit/AudioRecorderModule.java:61 | the rendering starts with a minus sign exactly when the number is negative; 0 renders as "0"; a non-negative number renders as its decimal digits without a leading zero, a negative one as a minus sign followed by the digits of its magnitude |
| RecorderEvents.ChannelName | android/src/main/java/com/reactnativecommunity/rctaudiotoolkit/AudioRecorderModule.java:54-61 | every channel name starts with "RCTAudioRecorderEvent:" and has something after it |
| RecorderEvents.ChannelNameSuffix | android/src/main/java/com/reactnativecommunity/rctaudiotoolkit/AudioRecorderModule.java:54-61 | what follows the prefix is "null" for a missing id, "0" for id 0, and otherwise reads back as the id in decimal without a leading zero, after a minus sign when it is negative |
| RecorderEvents.ChannelNameInjective | android/src/main/java/com/reactnativecommunity/rctaudiotoolkit/AudioRecorderModule.java:54-61 | two different ids, or an id and null, never share a channel |
| RecorderEvents.MeterSample | android/src/main/java/com/reactnativecommunity/rctaudiotoolkit/AudioRecorderModule.java:156-166 | the sample carries the frame and the raw amplitude; its value is -160 exactly when the amplitude is 0 |
| RecorderSpec.Emit | android/src/main/java/com/reactnativecommunity/rctaudiotoolkit/AudioRecorderModule.java:54-62 | emitting appends exactly one event, with the channel of the id, to the log |
| RecorderSpec.StopTimer | android/src/main/java/com/reactnativecommunity/rctaudiotoolkit/AudioRecorderModule.java:173-180 | afterwards no timer is scheduled; if one was, the frame count restarts at 0; if none was, nothing changes; the pool, flags, events, target, interval and releases are untouched |
| RecorderSpec.Destroy | android/src/main/java/com/reactnativecommunity/rctaudiotoolkit/AudioRecorderModule.java:182-204 | the id is absent afterwards; an absent id changes nothing; only that id leaves the pool; the interval, timer and frame count are untouched |
| RecorderSpec.DestroyPresent | android/src/main/java/com/reactnativecommunity/rctaudiotoolkit/AudioRecorderModule.java:184-199 | on a registered id: exactly that id leaves the pool and the flags, exactly one "info" event on its channel, its recorder released once and under no id; if it was the target, both the target id and the target recorder become null, otherwise the target is kept; the interval, timer and frame count are untouched |
| RecorderSpec.DestroyIdempotent | android/src/main/java/com/reactnativecommunity/rctaudiotoolkit/AudioRecorderModule.java:182-204 | destroying twice is the same as destroying once |
| RecorderSpec.DestroyPreservesInv | android/src/main/java/com/reactnativecommunity/rctaudiotoolkit/AudioRecorderModule.java:182-204 | destroy keeps the registry invariant: no recorder under two ids, the target is live, and no recorder is released twice or used after release |
| RecorderSpec.Prepare | android/src/main/java/com/reactnativecommunity/rctaudiotoolkit/AudioRecorderModule.java:210-296 | a null or empty path rejects "invalidpath" and changes nothing; otherwise the new recorder is installed under the id with auto-destroy defaulting to true, the module-wide interval is overwritten, and the promise resolves with the configuration and output path or rejects "preparefail" |
| RecorderSpec.PrepareReplaces | android/src/main/java/com/reactnativecommunity/rctaudiotoolkit/AudioRecorderModule.java:217-279 | a valid prepare releases the old recorder under the id with one "info" event (or emits nothing if there was none), installs the new one whether the native prepare succeeds or fails, and leaves every other id as it was; a replaced target is cleared, any other target kept, and the timer and frame count are untouched |
| RecorderSpec.PreparePreservesInv | android/src/main/java/com/reactnativecommunity/rctaudiotoolkit/AudioRecorderModule.java:210-296 | with a fresh native recorder, prepare keeps the registry invariant |
| RecorderSpec.LastPrepareSetsInterval | android/src/main/java/com/reactnativecommunity/rctaudiotoolkit/AudioRecorderModule.java:271-279 | after two prepares, for any ids, the metering interval is the one the second prepare gave |
| RecorderSpec.Record | android/src/main/java/com/reactnativecommunity/rctaudiotoolkit/AudioRecorderModule.java:298-319 | an unknown id rejects "notfound" and a native failure rejects "startfail", both without change; it resolves exactly when the id is registered and the start succeeds; the pool, flags and events never change |
| RecorderSpec.RecordTarget | android/src/main/java/com/reactnativecommunity/rctaudiotoolkit/AudioRecorderModule.java:306-315 | a successful record makes the recorder the metering target, with a timer at the interval's period, exactly when the interval is positive; otherwise nothing changes; either way the frame count, the interval and the releases stay |
| RecorderSpec.RecordPreservesInv | android/src/main/java/com/reactnativecommunity/rctaudiotoolkit/AudioRecorderModule.java:298-319 | record keeps the registry invariant |
| RecorderSpec.Stop | android/src/main/java/com/reactnativecommunity/rctaudiotoolkit/AudioRecorderModule.java:321-344 | an unknown id rejects "notfound" and a native failure rejects "stopfail", both without change |
| RecorderSpec.StopSucceeds | android/src/main/java/com/reactnativecommunity/rctaudiotoolkit/AudioRecorderModule.java:329-340 | a successful stop resolves and keeps the interval; on the target the timer is cancelled and the frame count reset if a timer was scheduled (kept otherwise), on another id they are untouched; with auto-destroy set the result is destroy of that state: the id leaves the pool and flags, its recorder is released, one "info" event is emitted and it is no longer the target; without it the result is exactly the timer stop on the target and the unchanged registry on any other id |
| RecorderSpec.StopPreservesInv | android/src/main/java/com/reactnativecommunity/rctaudiotoolkit/AudioRecorderModule.java:321-344 | stop keeps the registry invariant |
| RecorderSpec.Pause24 | android/src/main/java/com/reactnativecommunity/rctaudiotoolkit/AudioRecorderModule.java:356-374 | an unknown id rejects "notfound" and a native failure rejects "pausefail", both without change; it resolves exactly when the id is registered and the native pause succeeds; pausing never changes the pool, the flags, the target or the events |
| RecorderSpec.Pause | android/src/main/java/com/reactnativecommunity/rctaudiotoolkit/AudioRecorderModule.java:346-354 | below SDK 24 it rejects "notsupported" without change; from 24 on it is pause24 |
| RecorderSpec.PauseUnsupportedBeforeLookup | android/src/main/java/com/reactnativecommunity/rctaudiotoolkit/AudioRecorderModule.java:347-353 | below SDK 24 "notsupported" wins, even for an id that pause24 would report "notfound" |
| RecorderSpec.PauseSucceeds | android/src/main/java/com/reactnativecommunity/rctaudiotoolkit/AudioRecorderModule.java:356-370 | from SDK 24 a successful pause resolves and keeps the interval and releases; on the target the result is exactly the timer stop: timer cancelled, frame count reset if a timer was scheduled and kept otherwise, target kept; on any other id nothing changes |
| RecorderSpec.PausePreservesInv | android/src/main/java/com/reactnativecommunity/rctaudiotoolkit/AudioRecorderModule.java:346-374 | pause keeps the registry invariant |
| RecorderSpec.FindRecorderId | android/src/main/java/com/reactnativecommunity/rctaudiotoolkit/AudioRecorderModule.java:376-385 | the id found holds the recorder; when none is found, no id holds it |
| RecorderSpec.FindRecorderIdUnique | android/src/main/java/com/reactnativecommunity/rctaudiotoolkit/AudioRecorderModule.java:376-385 | in a pool where no recorder is under two ids, any answer of the scan is the one id that holds the recorder, whatever the iteration order |
| RecorderSpec.OnError | android/src/main/java/com/reactnativecommunity/rctaudiotoolkit/AudioRecorderModule.java:387-403 | the first new event is "error" on the recorder's channel; a found id alone leaves the pool and the flags; for an unknown recorder the pool, flags and releases are unchanged; a target other than the found id is kept; the interval, timer and frame count never change |
| RecorderSpec.OnErrorDestroys | android/src/main/java/com/reactnativecommunity/rctaudiotoolkit/AudioRecorderModule.java:387-403 | for a registered recorder the result is destroy of its id after the "error" event: exactly that id leaves the pool and the flags, an "error" then an "info" event on its channel, the recorder released and under no id, the target cleared only if it was that id, the interval, timer and frame count kept, and the invariant kept |
| RecorderSpec.OnErrorUnknown | android/src/main/java/com/reactnativecommunity/rctaudiotoolkit/AudioRecorderModule.java:387-403 | for a recorder under no id, the error goes to the "null" channel and nothing else changes |
| RecorderSpec.OnInfo | android/src/main/java/com/reactnativecommunity/rctaudiotoolkit/AudioRecorderModule.java:405-419 | exactly one "info" event, on the channel of the id that holds the recorder (or "null"), carrying what and extra, is appended, and nothing else in the registry changes |
| RecorderSpec.OnInfoPreservesInv | android/src/main/java/com/reactnativecommunity/rctaudiotoolkit/AudioRecorderModule.java:405-419 | onInfo keeps the registry invariant |
| RecorderSpec.Tick | android/src/main/java/com/reactnativecommunity/rctaudiotoolkit/AudioRecorderModule.java:150-171 | a tick never changes the pool, flags, timer, target, interval or releases; without a target it changes nothing; the frame count stays a 32-bit int |
| RecorderSpec.Ticks | android/src/main/java/com/reactnativecommunity/rctaudiotoolkit/AudioRecorderModule.java:150-171 | successive ticks keep the target and keep the frame count a 32-bit int |
| RecorderSpec.TicksNumberFrames | android/src/main/java/com/reactnativecommunity/rctaudiotoolkit/AudioRecorderModule.java:155-168 | with a target set, n ticks append exactly n "meter" events on the target's channel, the i-th numbered by the counter after i increments from the current count (wrapping like a Java int), and leave the count after n increments |
| RecorderSpec.TickMeters | android/src/main/java/com/reactnativecommunity/rctaudiotoolkit/AudioRecorderModule.java:155-168 | with a target set, one tick appends exactly one "meter" event on the target's channel under the current frame and increments the count with 32-bit wrap-around; nothing else changes |
| RecorderSpec.TicksOnTargetChannel | android/src/main/java/com/reactnativecommunity/rctaudiotoolkit/AudioRecorderModule.java:155-168 | any number of ticks only appends events, all on the target's channel, and appends none without a target |
| RecorderSpec.TickSilence | android/src/main/java/com/reactnativecommunity/rctaudiotoolkit/AudioRecorderModule.java:159-162 | a silent sample is reported as value -160 and raw value 0 under the current frame |
| RecorderSpec.TickPreservesInv | android/src/main/java/com/reactnativecommunity/rctaudiotoolkit/AudioRecorderModule.java:150-171 | a tick keeps the registry invariant |
| RecorderSpec.TickReportsLiveRecorder | android/src/main/java/com/reactnativecommunity/rctaudiotoolkit/AudioRecorderModule.java:155-168 | with the invariant, every meter event goes to the channel of a registered id |
| BoxedIds.DestroyAsWritten | android/src/main/java/com/reactnativecommunity/rctaudiotoolkit/AudioRecorderModule.java:190 | destroy with the reference comparison removes the id like destroy, and agrees with it for ids inside the Integer cache |
| BoxedIds.DestroyAsWrittenKeepsReleasedTarget | android/src/main/java/com/reactnativecommunity/rctaudiotoolkit/AudioRecorderModule.java:186-193 | destroying metering target 1000 releases its recorder but leaves it the target while the timer is still scheduled, breaking the invariant: the next tick calls getMaxAmplitude on a released recorder |
| BoxedIds.DestroyEndsMetering | android/src/main/java/com/reactnativecommunity/rctaudiotoolkit/AudioRecorderModule.java:186-193 | with value comparison, a destroyed recorder is no longer the target and no number of later ticks reports anything on its channel |
| RecorderModule.AudioRecorderModule.constructor | android/src/main/java/com/reactnativecommunity/rctaudiotoolkit/AudioRecorderModule.java:34-47 | starts with an empty pool, no target, interval 0, frame 0 and no timer |
| RecorderModule.AudioRecorderModule.EmitEvent | android/src/main/java/com/reactnativecommunity/rctaudiotoolkit/AudioRecorderModule.java:54-62 | appends one event on the id's channel |
| RecorderModule.AudioRecorderModule.StopMeteringTimer | android/src/main/java/com/reactnativecommunity/rctaudiotoolkit/AudioRecorderModule.java:173-180 | the state becomes StopTimer of the old state |
| RecorderModule.AudioRecorderModule.Destroy | android/src/main/java/com/reactnativecommunity/rctaudiotoolkit/AudioRecorderModule.java:182-204 | always resolves; the state becomes Destroy of the old state and keeps the invariant |
| RecorderModule.AudioRecorderModule.Prepare | android/src/main/java/com/reactnativecommunity/rctaudiotoolkit/AudioRecorderModule.java:210-296 | an invalid path rejects without change; otherwise a freshly allocated recorder is registered under the id, and the state and reply are those of Prepare with that recorder |
| RecorderModule.AudioRecorderModule.Record | android/src/main/java/com/reactnativecommunity/rctaudiotoolkit/AudioRecorderModule.java:298-319 | state and reply are those of Record; the invariant is kept |
| RecorderModule.AudioRecorderModule.Stop | android/src/main/java/com/reactnativecommunity/rctaudiotoolkit/AudioRecorderModule.java:321-344 | state and reply are those of Stop; the invariant is kept |
| RecorderModule.AudioRecorderModule.Pause | android/src/main/java/com/reactnativecommunity/rctaudiotoolkit/AudioRecorderModule.java:346-354 | state and reply are those of Pause; the invariant is kept |
| RecorderModule.AudioRecorderModule.Pause24 | android/src/main/java/com/reactnativecommunity/rctaudiotoolkit/AudioRecorderModule.java:356-374 | state and reply are those of Pause24; the invariant is kept |
| RecorderModule.AudioRecorderModule.GetRecorderId | android/src/main/java/com/reactnativecommunity/rctaudiotoolkit/AudioRecorderModule.java:376-385 | the scan over the pool returns an id holding the recorder, or nothing when no id holds it |
| RecorderModule.AudioRecorderModule.OnError | android/src/main/java/com/reactnativecommunity/rctaudiotoolkit/AudioRecorderModule.java:387-403 | the state becomes OnError of the old state; the invariant is kept |
| RecorderModule.AudioRecorderModule.OnInfo | android/src/main/java/com/reactnativecommunity/rctaudiotoolkit/AudioRecorderModule.java:405-419 | the state becomes OnInfo of the old state; the invariant is kept |
| RecorderModule.AudioRecorderModule.MeteringTick | android/src/main/java/com/reactnativecommunity/rctaudiotoolkit/AudioRecorderModule.java:152-169 | the state becomes Tick of the old state; the invariant is kept |

## Findings

| source | as written | input that shows it | evidently intended | confidence | as-written member | corrected member |
|---|---|---|---|---|---|---|
| android/src/main/java/com/reactnativecommunity/rctaudiotoolkit/AudioRecorderModule.java:190 | `recorderId == meteringRecorderId` compares two `Integer` objects by reference. Lines 331 and 366 do the same. Ids outside -128..127 are boxed afresh on each bridge call, so the comparison is false for them. | `prepare(1000, ...)` with meteringInterval 100, `record(1000)`, `destroy(1000)`: the released recorder stays the metering target while the timer is still scheduled, so the next tick calls `getMaxAmplitude` on a released recorder | compare the id values, so that destroying, stopping or pausing the target ends its metering | medium; not executed; assumes the bridge boxes each call's id with `Integer.valueOf` | BoxedIds.DestroyAsWrittenKeepsReleasedTarget | BoxedIds.DestroyEndsMetering |

## Left out

- Promise messages, `errObj` (stack-trace text) and all `Log` calls are diagnostics. The model keeps only the rejection code.
- `uriFromPath` depends on `URLUtil`, `Uri` and the app's files directory. It is the function `resolvePath` that the module receives at construction.
- The native `MediaRecorder` setters (`setAudioSource`, `setOutputFormat`, `setAudioEncoder`, ...) are not modelled. The exceptions they can throw outside the `try` are not modelled either. Only the outcome of `prepare`, `start`, `stop` and `pause` is an input.
- The prepare result gives the format and encoder as enum values. The source gives the decimal string of the platform constant.
- The timer thread and its races with the commands are not modelled. One tick is one call of `MeteringTick`. The scheduler that calls it, and its initial delay of 0, are outside the model.
- `startMeteringTimer` replaces `meteringUpdateTimer` without cancelling the old timer. The model records only the field replacement. A timer orphaned this way keeps running ticks, and the model does not track it.
- RecorderEvents.MeterSample: for a non-zero amplitude the value is the uninterpreted term `Log10Ratio(amplitude)`. The model does not compute the integer `20*log10(amplitude/32767)`, because that is floating point.
- Recorder ids are non-null integers. A `null` id sent from JavaScript, and the `null` key it would create in the `HashMap`, are not modelled. Option values are taken to have the right types.
- Boxed `Integer` comparisons of ids are modelled as value equality. This matches Java only for ids in -128..127 (see Findings).
- Exceptions from `release()` and from event emission are not modelled.
- The playback module and the readiness wait are not part of this model.
