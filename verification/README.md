# A verified model of the voice-typing core

This project models, in Dafny, the core of a push-to-talk / voice-activated
dictation tool. It covers five parts:

- **The voice-activity detector (VAD).** This is a hysteresis state machine
  with four states: `Silent`, `SpeechDetected`, `Recording` and
  `SilenceDetected`. Every 512-sample frame and its speech probability go
  into it. It keeps a bounded pre-buffer and a sixty-second utterance
  buffer, and each drops its oldest samples when full. It emits
  `StartSpeech` when speech has lasted long enough and `EndSpeech(samples)`
  when silence has.
- **The frame assembler of the capture callback.** Incoming samples go one
  by one into a two-second ring buffer, which refuses new samples when
  full. Whole frames are then popped in FIFO order, scored and fed to the
  detector.
- **The key-trigger controller.** It tracks the pressed keys and a
  `recording` flag.
  - In toggle mode a completed chord flips recording on and off.
  - In push-to-talk (hold) mode recording lasts while the chord is held.
- **The handling of a finished transcript.** A failure is an error. An
  empty transcript is reported as "No voice detected". Any other
  transcript is summarised, notified and pasted, and Return is pressed
  when auto-send is on.
- **The small pure mappings.** These are the prompt text, the sample
  formats and their widths, the configuration defaults, and the
  byte-to-key table.

The stateful parts are classes proved against specification functions:

- `Vad.VADState.ProcessFrame` performs exactly `Vad.Step`. It buffers the
  frame (`BufferFrame`) and then runs the hysteresis match (`Transition`,
  proved against `Vad.Decide`).
- `Capture.InputCallback.OnData` performs `Capture.Fill` followed by
  `Capture.Drain`. Its frame loop keeps the invariant `Capture.Resumes`:
  what `Drain` has left to do from the current state, together with what
  was already sent, is the whole draining.
- `App.App.HandleEvent` performs `App.EventStep`.

The properties are proved about those functions.

Files:

| file | contents |
|---|---|
| `common.dfy` | `Option`, `Result`, fixed-width integer types |
| `ringbuf.dfy` | the bounded FIFO: `push_slice`, `pop_slice`, `try_push`, `clear` |
| `vad.dfy` | the VAD state, its transition function and the `VADState` class |
| `vad_properties.dfy` | multi-frame properties and the unit-test scenarios of the VAD |
| `capture.dfy` | the frame assembler and the callback class |
| `keyboard.dfy` | the byte-to-key table and its layout properties |
| `config.dfy` | sample formats, defaults, prompt text |
| `utf8.dfy` | well-formed UTF-8 (RFC 3629, section 4), character boundaries |
| `app.dfy` | the event handlers, the `App` class, summary and transcript handling |
| `app_properties.dfy` | properties of the controller over single events and whole sessions |

These are the places where the code behaves otherwise than a reader of
its names and comments would expect; the model follows the code:

- **The hysteresis counters.** One would expect both counters to be reset
  on every state transition. The code only zeroes the *other*
  counter on each frame, so a counter keeps growing across a transition.
  `Vad.Step` states what the code does.
- **The assembly buffer when full.** A full assembly buffer drops the
  *incoming* sample, not the oldest one, because `try_push` refuses it
  (`Capture.FillDropsNewest`).
- **A pre-buffer shorter than one frame.** A pre-buffer ("amount of audio
  to keep before voice detection") would be expected to keep the most
  recent samples. A pre-buffer shorter than a
  frame is emptied by the drop and then keeps the *first* samples of the
  new frame (`Vad.DropOldestPush`).

## Model

| member | source | states |
|---|---|---|
| `RingBuf.Ring.PushSlice` | src/audio/vad/mod.rs:98 | copies the longest prefix of the slice that fits, reports how many, and keeps the buffer within capacity |
| `RingBuf.Ring.PopSlice` | src/audio/vad/mod.rs:96 | removes `min(n, occupied)` elements from the front; the popped elements followed by what is left are the old contents |
| `RingBuf.Ring.TryPush` | src/audio/vad/mod.rs:404 | appends the element if and only if the buffer is not full; otherwise the contents are unchanged |
| `RingBuf.Empty` | src/audio/vad/mod.rs:81-82 | `HeapRb::new` of a positive capacity: an empty buffer of that capacity |
| `RingBuf.Ring.Clear` | src/audio/vad/mod.rs:126 | empties the buffer and keeps its capacity |
| `RingBuf.LastNAppend` | src/audio/vad/mod.rs:92-98 | keeping the last `n` samples twice is the same as keeping the last `n` of everything, so per-frame trimming equals trimming the whole stream |
| `Vad.Initial` | src/audio/vad/mod.rs:61-84 | the fresh state is `Silent` with zero counters and empty buffers; the utterance buffer holds 960000 samples; the given thresholds and pre-buffer size are kept; the pre-buffer size must be positive, since `HeapRb::new` panics on zero |
| `Vad.VADState.constructor` | src/audio/vad/mod.rs:61-84 | the new object's fields are `Vad.Initial`, under the same positive pre-buffer size |
| `Vad.DropOldestPush` | src/audio/vad/mod.rs:89-117 | within capacity; a buffer at least a frame long ends with the most recent `capacity` samples of old contents plus frame; a shorter one holds the first `capacity` samples of the frame |
| `Vad.BeginUtterance` | src/audio/vad/mod.rs:125-138 | the utterance buffer becomes the pre-buffer's contents and the pre-buffer becomes empty |
| `Vad.EndUtterance` | src/audio/vad/mod.rs:181-186 | `EndSpeech` carries the whole utterance buffer in order, and the buffer becomes empty |
| `Vad.Step` | src/audio/vad/mod.rs:87-212 | speech is strictly `prob > threshold`; a speech frame adds 512 to the speech counter and zeroes the silence counter, and a silence frame does the reverse; the next state, in each of four if-and-only-ifs; `StartSpeech` exactly when speech reaches its threshold from `Silent`/`SpeechDetected`; `EndSpeech` exactly when silence reaches its threshold from `Recording`/`SilenceDetected`; the frame goes into the utterance buffer if and only if the old state is not `Silent`; the buffers after each event |
| `Vad.VADState.BufferFrame` | src/audio/vad/mod.rs:88-117 | the pre-buffer and, unless the state is `Silent`, the utterance buffer become `DropOldestPush` of the frame; nothing else changes |
| `Vad.VADState.SeedFromPreBuffer` | src/audio/vad/mod.rs:126-133 | the utterance buffer is cleared and then holds exactly the old pre-buffer contents, and the pre-buffer is empty |
| `Vad.VADState.DrainAudioBuffer` | src/audio/vad/mod.rs:183-185 | returns the whole utterance buffer in order and leaves it empty |
| `Vad.Decide` | src/audio/vad/mod.rs:119-211 | the hysteresis match on an already buffered state: the counters, the next state in four if-and-only-ifs, each event exactly when its threshold is reached, and the buffers after each event |
| `Vad.VADState.Transition` | src/audio/vad/mod.rs:119-211 | the match on the state leaves the fields and returns the event exactly as `Vad.Decide` specifies |
| `Vad.VADState.ProcessFrame` | src/audio/vad/mod.rs:87-212 | the new fields and the returned event are exactly those of `Vad.Step` |
| `VadProperties.Run` | src/audio/vad/mod.rs:87-212 | feeding frames one by one keeps the state valid and the configuration unchanged, with at most one event per frame |
| `VadProperties.TestSession` | src/audio/vad/mod.rs:489-496 | the test fixture: `Silent`, zero counters, empty buffers, threshold 0.5, and 1600 samples (0.1 s) for speech, silence and pre-buffer |
| `VadProperties.ThresholdIsSilence` | src/audio/vad/mod.rs:121 | a probability equal to the threshold keeps `Silent` and emits nothing |
| `VadProperties.PreBufferKeepsMostRecent` | src/audio/vad/mod.rs:89-101 | until `StartSpeech`, a pre-buffer at least a frame long holds the most recent samples in arrival order, as many as fit |
| `VadProperties.RecordingAccumulates` | src/audio/vad/mod.rs:104-117 | while recording without events, the state stays `Recording`/`SilenceDetected` and the utterance buffer is the old contents plus every frame, trimmed to sixty seconds |
| `VadProperties.UtteranceIsSeedPlusFrames` | src/audio/vad/mod.rs:124-138 | the `EndSpeech` payload is the pre-buffer seed followed by every later frame, including the last, trimmed to sixty seconds |
| `VadProperties.ThresholdEdgeCases` | src/audio/vad/mod.rs:565-583 | 0.5 is silence, 0.5001 gives `SpeechDetected`, then 0.4999 gives `Silent`, with no events |
| `VadProperties.PreBufferAfterOneFrame` | src/audio/vad/mod.rs:585-598 | after one frame from a fresh state the pre-buffer is exactly that frame |
| `VadProperties.ScenarioOnset` | src/audio/vad/mod.rs:506-521 | the test's first four speech frames: `SpeechDetected` three times with no event, then `Recording` with `StartSpeech`, the silence counter zero and the utterance seeded with the last 64 samples of frame 1 and frames 2-4 whole |
| `VadProperties.SeedOfFourFrames` | src/audio/vad/mod.rs:125-133 | the last 1600 samples of four frames are the last 64 of the first and the other three whole |
| `VadProperties.ScenarioRecording` | src/audio/vad/mod.rs:523-541 | from `Recording`: silence gives `SilenceDetected`, speech gives `Recording` again, three silent frames stay `SilenceDetected`, and the fourth gives `Silent` with `EndSpeech` of the utterance followed by the six frames |
| `VadProperties.QuietFrameWhileRecording` | src/audio/vad/mod.rs:177-208 | while recording, a silent frame below the silence threshold is buffered, adds 512 to the silence counter and moves to `SilenceDetected` with no event |
| `VadProperties.SpeechFrameWhileRecording` | src/audio/vad/mod.rs:174-196 | while recording, a speech frame is buffered and moves to `Recording` with the silence counter zero and no event |
| `VadProperties.TransitionsScenario` | src/audio/vad/mod.rs:498-563 | the test's ten frames: `StartSpeech` on the fourth, then `Silent` and `EndSpeech` on the tenth with the last 64 samples of frame 1 and then frames 2-10 whole, 4672 samples |
| `Capture.ToAudio` | src/audio/vad/mod.rs:423-449 | `StartSpeech` becomes the warm-up message and `EndSpeech` the sample message with the same samples |
| `Capture.FillDropsNewest` | src/audio/vad/mod.rs:402-407 | pushing samples one by one keeps the buffered ones and appends the longest prefix of the new ones that fits: the newest are lost |
| `Capture.Fill` | src/audio/vad/mod.rs:402-407 | pushing the incoming samples one by one keeps the buffer valid and its capacity; its contents are given by `Capture.FillDropsNewest` |
| `Capture.Drain` | src/audio/vad/mod.rs:409-451 | popping, scoring and processing frames keeps the detector state valid with an unchanged configuration; fewer than 512 samples remain, and 512 per frame plus the remainder is the buffer's length |
| `Capture.Scored` | src/audio/vad/mod.rs:416-420 | scoring frames in order, with the scorer's state carried along, gives one probability per frame |
| `Capture.ScoredFrames` | src/audio/vad/mod.rs:416-420 | the scored pairs carry the frames unchanged and in order |
| `Capture.Messages` | src/audio/vad/mod.rs:423-449 | one message per event, in order, each the event's `ToAudio` |
| `Capture.DrainFeedsDetector` | src/audio/vad/mod.rs:409-451 | draining feeds exactly the popped frames, in order, with the probabilities of the threaded scorer, to `Vad.Step`: the detector ends where `VadProperties.Run` of them ends, the scorer where the scoring ends, and the messages sent are the run's events mapped through `ToAudio` |
| `Capture.MessagesCons` | src/audio/vad/mod.rs:423-449 | the messages of one frame's event come before those of later frames |
| `Capture.DrainFrames` | src/audio/vad/mod.rs:409-414 | the processed frames, concatenated and followed by the remainder, are exactly the buffered samples: none skipped, repeated or reordered |
| `Capture.DrainFrameCount` | src/audio/vad/mod.rs:409-414 | draining `n` samples processes `n / 512` frames and leaves `n % 512` samples |
| `Capture.ResumesTrans` | src/audio/vad/mod.rs:409-451 | what is left of a draining after one more frame is what is left of it with that frame's messages sent |
| `Capture.InputCallback.constructor` | src/audio/vad/mod.rs:328-364 | the state the callback closes over: an empty assembly buffer of 32000 samples, a fresh 512-sample frame array, `i == 0`, and the given detector and scorer |
| `Capture.InputCallback.PushSamples` | src/audio/vad/mod.rs:402-407 | the buffer becomes `Fill` of the incoming samples |
| `Capture.InputCallback.ProcessFrames` | src/audio/vad/mod.rs:409-451 | the loop leaves the buffer, detector, scorer, counter `i` and messages sent exactly as `Drain` specifies |
| `Capture.InputCallback.ProcessOneFrame` | src/audio/vad/mod.rs:410-450 | one iteration consumes one frame: what `Drain` has left afterwards is what it had left before, minus that frame and the messages it sent |
| `Capture.InputCallback.OnData` | src/audio/vad/mod.rs:402-451 | one callback is `Fill` followed by `Drain` |
| `Capture.InputCallback.CopyToChunk` | src/audio/vad/mod.rs:413 | the frame array holds exactly the popped samples |
| `Keyboard.KeyFromChar` | src/keyboard.rs:17-132 | a byte has a key if and only if it is printable ASCII, tab, line feed, carriage return or escape; every byte of 128 or more gives `None` |
| `Keyboard.LowerCaseLetters` | src/keyboard.rs:19-44 | `a`..`z` give their letter key without Shift |
| `Keyboard.UpperCaseLetters` | src/keyboard.rs:46-71 | `A`..`Z` give their letter key with Shift |
| `Keyboard.CaseDiffersOnlyInShift` | src/keyboard.rs:19-71 | an uppercase letter and its lowercase form share the key and differ only in Shift |
| `Keyboard.Digits` | src/keyboard.rs:73-82 | each digit gives its number key without Shift, except that `1` gives `Num0` |
| `Keyboard.DigitOneIsZero` | src/keyboard.rs:73-74 | `0` and `1` give the same result, and no byte gives `Num1` without Shift |
| `Keyboard.ShiftedDigits` | src/keyboard.rs:84-93 | `)!@#$%^&*(` give `Num0`..`Num9` with Shift |
| `Keyboard.PunctuationPairs` | src/keyboard.rs:95-122 | each of the eleven punctuation pairs shares one key, with the first unshifted and the second shifted |
| `Keyboard.Whitespace` | src/keyboard.rs:124-128 | space, tab and escape give their keys; line feed and carriage return both give Return; none is shifted |
| `Keyboard.DigitOneMissesItsKey` | src/keyboard.rs:74-84 | as written, `1` and `!` give different keys |
| `Keyboard.CorrectedKeyFromChar` | src/keyboard.rs:73-82 | the corrected table: the same bytes have keys, and each digit gives its own number key |
| `Keyboard.CorrectedDigitsShareKeyWithShifted` | src/keyboard.rs:73-93 | with the correction, every digit and its shifted symbol share a key |
| `Config.BitsPerSample` | src/config.rs:52-58 | the bit width is eight times the byte size of the device format it converts to: 32 for `F32`, 16 for `I16` |
| `Config.ToDevice` | src/config.rs:32-39 | the device format is a float format if and only if the configured one is `F32`, and it converts back to the configured one |
| `Config.ToDeviceInjective` | src/config.rs:32-39 | distinct configured formats give distinct device formats |
| `Config.DefaultAudioConfig` | src/config.rs:61-70 | mono, 16000 Hz (the VAD's rate), 32-bit float, no device |
| `Config.DefaultToggleVad` | src/config.rs:96-119 | an omitted field defaults to threshold 0.5, silence 2 s, speech 1 s, pre-buffer 1 s |
| `Config.DefaultActivationConfig` | src/config.rs:136-145 | push-to-talk, notifications on, auto-send off, chord Ctrl-left + Space |
| `Config.JoinLength` | src/config.rs:202 | joining `n` words adds exactly `n - 1` separators |
| `Config.JoinSnoc` | src/config.rs:202 | joining one more word appends a separator and that word |
| `Config.Join` | src/config.rs:202 | the words with the separator between each two of them; no words give the empty text and a single word is itself; its length and the place of each word are given by `Config.JoinLength` and `Config.JoinPlacesWords` |
| `Config.JoinPlacesWords` | src/config.rs:202 | each word appears in the joined text right after the preceding words and their separators |
| `Config.GetPromptText` | src/config.rs:199-207 | there is text if and only if the prompt is raw or a non-empty vocabulary; raw text is returned unchanged; a non-empty vocabulary gives the words joined with `, `, whose length is the words' total plus two per separator |
| `Config.PromptExamples` | src/config.rs:446-466 | the unit test's four cases, and `["test", "words"]` gives `test, words` |
| `Utf8.FloorCharBoundary` | src/app.rs:68-69 | the largest character boundary at or before the position |
| `Utf8.IsCharBoundary` | src/app.rs:69 | the test `str::is_char_boundary` makes before a slice: position 0, the end, or a position whose byte is not a continuation byte; never past the end |
| `Utf8.StartsChar` | src/app.rs:69 | a character of UTF-8 text starts at the position, or the position is the end; the start and the end always qualify |
| `Utf8.BoundaryIffCharStart` | src/app.rs:69 | in UTF-8 text a position is a slicing position if and only if a character starts there or it is the end |
| `Utf8.AsciiIsValid` | src/app.rs:69 | ASCII bytes are well-formed UTF-8 |
| `Utf8.ConcatIsValid` | src/app.rs:69 | the concatenation of two UTF-8 texts is UTF-8 |
| `Utf8.BoundaryPrefixIsValid` | src/app.rs:69 | cutting UTF-8 text at a character boundary leaves UTF-8 |
| `Utf8.BoundaryNear` | src/app.rs:68-69 | a character boundary lies at most three bytes before any position of UTF-8 text |
| `Utf8.FloorWithinThree` | src/app.rs:68-69 | rounding down to a boundary moves back at most three bytes |
| `App.Called` | src/app.rs:215-223 | the `?` on a recorder call: the handler fails if and only if the recorder does, with its error |
| `App.Press` | src/app.rs:208-210 | a press adds the key if and only if it belongs to the chord |
| `App.App.constructor` | src/app.rs:134-141 | the controller starts with no keys pressed and not recording |
| `App.App.HandleEvent` | src/app.rs:198-203 | dispatches on the trigger; the new state, effects and result are those of `App.EventStep` |
| `App.App.HandleEventVad` | src/app.rs:204-233 | the new state, effects and result are those of `App.ToggleStep` |
| `App.App.HandleEventPushToTalk` | src/app.rs:234-263 | the new state, effects and result are those of `App.HoldStep` |
| `App.ToggleStep` | src/app.rs:204-233 | `recording` flips if and only if the event is a press that makes the pressed set equal the chord; a flip notifies "Start listening.." or "Stop listening." and then starts or stops the recorder, returning its result; otherwise nothing is done and the result is `Ok` |
| `App.HoldStep` | src/app.rs:234-263 | recording starts if and only if a press completes the chord while off, and stops if and only if a release breaks the chord while on; exactly one start or stop call accompanies each change and none otherwise; the result is the recorder's only when it was called |
| `App.EventStep` | src/app.rs:198-203 | in either mode, a press adds the key when it is in the chord, a release removes it, other events keep the set; the handler fails only when `recording` changed and the recorder failed |
| `App.HandleTranscript` | src/app.rs:57-86 | a failed transcription is returned wrapped in the context "Error running ASR", with no effect; otherwise the result is `Ok`; anything pasted is the whole transcript, and only a non-empty one |
| `App.SummaryAsWritten` | src/app.rs:68-72 | as written: the whole output when at most 20 bytes; otherwise the first 20 bytes plus `..`, and a panic (`None`) if and only if byte 20 is not a character boundary |
| `App.Summary` | src/app.rs:68-72 | corrected: a short output is unchanged; a long one is cut at the last character boundary at or before byte 20 and followed by `..`; it agrees with the as-written expression wherever that does not panic |
| `AppProperties.PressedKeysUpdate` | src/app.rs:206-260 | in both modes a press adds the key only if it is in the chord, a release removes exactly that key, and other events change nothing and do nothing |
| `AppProperties.RecorderErrorOnlyChangesResult` | src/app.rs:215-257 | the flag and effects are the same whatever the recorder answers; the handler fails, with the recorder's error, exactly when the recorder was called |
| `AppProperties.ToggleRelease` | src/app.rs:227-229 | in toggle mode a release only forgets the key |
| `AppProperties.TogglePress` | src/app.rs:206-225 | a press that makes the pressed set equal the chord flips `recording` and starts (if now on) or stops (if now off), after its notification; any other press keeps `recording` and calls nothing |
| `AppProperties.HoldPress` | src/app.rs:236-248 | a press starts recording if and only if it completes the chord while not recording; a repeated press while recording does nothing |
| `AppProperties.HoldRelease` | src/app.rs:250-258 | a release stops recording, exactly once, if and only if it was recording and the chord is now broken |
| `AppProperties.RunKeepsPressedInChord` | src/app.rs:206-251 | over any session the pressed keys stay a subset of the chord |
| `AppProperties.RecorderCallsAppend` | src/app.rs:219-223 | the recorder calls of two effect lists together are the calls of the first followed by those of the second |
| `AppProperties.StepCalls` | src/app.rs:204-263 | one event makes at most one recorder call: a start only when off, a stop only when on, and the flag follows |
| `AppProperties.RunCallsAlternate` | src/app.rs:204-263 | over any session and in either mode, starts and stops alternate, beginning with the one the flag allows, and the final flag is the initial one flipped once per call |
| `AppProperties.HoldStepKeepsInvariant` | src/app.rs:234-263 | in hold mode, "the pressed keys lie in the chord and recording is on exactly while all of it is held" is preserved by every event |
| `AppProperties.HoldRunKeepsInvariant` | src/app.rs:234-263 | push-to-talk records exactly while the whole chord is held, over any session |
| `AppProperties.InitialHoldInvariant` | src/app.rs:134-141 | the initial state satisfies that invariant if and only if the chord is non-empty |
| `AppProperties.Run` | src/app.rs:169-173 | the receive loop: events are handled one at a time, in order, each from the state the previous one left, with at most two effects each; the recorder never fails, which by `AppProperties.RecorderErrorOnlyChangesResult` changes no state and no effect |
| `AppProperties.DefaultPushToTalkSession` | src/app.rs:234-263 | with the default chord in hold mode: an unrelated key, Ctrl, Space, Space again, releases, gives exactly one start and one stop and returns to the initial state |
| `AppProperties.PushToTalkSessionSteps` | src/app.rs:234-263 | with the default chord in hold mode, each of the session's six events: only the press of Space that completes the chord starts, and only the release of Space stops |
| `AppProperties.ToggleChordSteps` | src/app.rs:204-233 | in toggle mode, each of the four events of Ctrl+Space pressed and released: only the press of Space, which completes the chord, flips listening, with its notification and recorder call |
| `AppProperties.ToggleChordThen` | src/app.rs:204-233 | with the default chord in toggle mode, pressing and releasing it, whatever follows, flips listening with its notification and call and returns to no keys pressed |
| `AppProperties.DefaultToggleSession` | src/app.rs:204-233 | the chord twice: "Start listening.." and start, then "Stop listening." and stop |
| `AppProperties.SummaryAsWrittenPanics` | src/app.rs:68-69 | nineteen `a` followed by `é` is valid UTF-8 of 21 bytes on which the expression as written panics |
| `AppProperties.SummaryIsShortValidText` | src/app.rs:68-74 | the corrected summary of UTF-8 text is UTF-8, at most 22 bytes, and at least 19 bytes for a long output |
| `AppProperties.TranscriptFailureAndSilence` | src/app.rs:59-64 | a failed transcription is returned, wrapped in the "Error running ASR" context, with no effect; an empty transcript only produces the "No voice detected" notification, with no paste |
| `AppProperties.TranscriptPasted` | src/app.rs:66-86 | a non-empty transcript is pasted exactly once, whole, after its summary notification; Return is pressed and released after it if and only if auto-send is on |

## Findings

| source | as written | input that shows it | evidently intended | confidence | as-written member | corrected member |
|---|---|---|---|---|---|---|
| src/app.rs:68-69 | the summary slices `&output[..20]` whenever the output is longer than 20 bytes | nineteen `a` followed by `é` (bytes `C3 A9`): byte 20 is inside `é`, so the slice panics | cut at the last character boundary at or before byte 20 | not executed | `App.SummaryAsWritten`, `AppProperties.SummaryAsWrittenPanics` | `App.Summary`, `AppProperties.SummaryIsShortValidText` |
| src/keyboard.rs:74 | `b'1'` is mapped to `Num0` | byte 49 (`1`) gives `(Num0, false)`, the same as `0`, while `!` gives `(Num1, true)` | `b'1'` maps to `Num1` | not executed | `Keyboard.KeyFromChar`, `Keyboard.DigitOneIsZero`, `Keyboard.DigitOneMissesItsKey` | `Keyboard.CorrectedKeyFromChar`, `Keyboard.CorrectedDigitsShareKeyWithShifted` |

A panic in the summary happens on the transcription task. Its error is
not returned to anyone; the task simply ends, so later utterances are no
longer transcribed. `App.HandleTranscript` uses the corrected summary.

## Left out

- Float-to-integer conversions in `VADState::new` (src/audio/vad/mod.rs:68-71). `Vad.Initial` and the constructor take the three sample counts as naturals. They require a pre-buffer of 1 to 960000 samples: the lower bound is where `HeapRb::new` would panic, the upper one makes the `assert_eq!` checks while seeding hold.
- The `usize` counters `speech_samples` and `silence_samples` and the callback's `i32` frame counter `i` (src/audio/vad/mod.rs:364) are naturals, so their overflow is not modelled. `i` would overflow after 2^31 frames, about two years of audio; the VAD counters would take 2^64 / 512 frames, over a million years.
- The error `handle_audio` returns only reaches a log line in the transcription task (src/app.rs:130); that logging is not modelled.
- Samples and probabilities are `real`. They are only copied and compared, never computed, so no floating-point behaviour is lost.
- The silero scorer (src/audio/vad/silero.rs). It is a parameter `score: (S, Frame) -> (real, S)` whose state `S` carries the recurrent state. Its failure, the `expect("Prob")`, is left out.
- The `i % 1 != 0` branch (src/audio/vad/mod.rs:417). It is always false, so the scorer is always called. The counter `i` is still kept.
- Resampling and the channel downmix (src/audio/vad/mod.rs:370-399). These are foreign calls and float averaging. `Capture.InputCallback.OnData` takes the already normalised samples.
- Sending on the channel and its `expect` (src/audio/vad/mod.rs:426, 444-446). The sent messages are returned as a sequence instead.
- The `error!` log lines when a push does not fit. They are logging only.
- Device enumeration, stream configuration, and play/pause of the stream. This is I/O. The recorder's start and stop are effects, and the error they may return is a parameter.
- `App::new`, `App::run`, the event listener thread and the ASR task (src/app.rs:96-177). These are wiring and concurrency. `AppProperties.Run` feeds events to the handler in order, as the receive loop does.
- `handle_audio`'s `Warm` and `Path` branches (src/app.rs:45-56). These are model loading and WAV reading. `App.HandleTranscript` starts from the transcription's result.
- Transcription itself (src/asr.rs, src/whisper.rs). It is a foreign model.
- Desktop notifications, the clipboard and key simulation (src/app.rs:179-191, src/config.rs:296-308, src/keyboard.rs:139-163). These are side effects and are represented as `Effect` values. The `expect("Pasting")` and `expect("simulate")` panics and the sleeps are left out.
- The text of notifications and transcripts is modelled as UTF-8 bytes (`seq<u8>`), because the summary rule counts bytes. The VAD's own strings are not modelled.
- Configuration file loading, saving and default paths (src/config.rs:221-294). These are file I/O and serde.
- The path and model sections of the configuration. They are used only by the parts that are left out.
- `Keyboard.KeyFromChar`: the table is written as four sub-tables split by byte range, holding the same entries as the single `match`. The reverse mapping from key to byte is not modelled.
