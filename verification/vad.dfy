/**
 * The voice-activity state machine of the VAD capture mode
 * (src/audio/vad/mod.rs): four states, two hysteresis counters and two
 * drop-oldest buffers.  `Step` is the transition table stated as a function
 * of the old state; the class `VADState` is the mutable struct the audio
 * callback owns, and its `ProcessFrame` is proved to perform exactly `Step`.
 */
module Vad {
  import opened Common
  import opened RingBuf

  /** Samples per classified frame. */
  const N_SAMPLES: nat := 512
  /** The canonical sample rate of everything behind the normaliser. */
  const SAMPLE_RATE: nat := 16000
  /** Capacity of the utterance buffer: sixty seconds of audio. */
  const AUDIO_BUFFER_CAPACITY: nat := 16000 * 60

  /** A sample is only ever copied or stored, so any ordered value will do. */
  type Sample = real

  /** The frame type `[f32; N_SAMPLES]`. */
  type Frame = s: seq<Sample> | |s| == N_SAMPLES witness seq(N_SAMPLES, i => 0.0)

  datatype VadStateEnum = Silent | SpeechDetected | Recording | SilenceDetected

  datatype VadEvent = StartSpeech | EndSpeech(samples: seq<Sample>)

  /** The value of every field of `VADState`. */
  datatype Vad = Vad(
    state: VadStateEnum,
    speechSamples: nat,
    silenceSamples: nat,
    speechThresholdSamples: nat,
    silenceThresholdSamples: nat,
    threshold: real,
    audioBuffer: Ring<Sample>,
    preBuffer: Ring<Sample>)
  {
    /**
     * Both buffers within their capacity; the utterance buffer holds sixty
     * seconds and the pre-buffer fits inside it, so seeding never truncates.
     */
    predicate Valid() {
      && audioBuffer.Valid()
      && preBuffer.Valid()
      && audioBuffer.capacity == AUDIO_BUFFER_CAPACITY
      && preBuffer.capacity <= AUDIO_BUFFER_CAPACITY
    }

    /** Everything that `process_frame` never changes. */
    predicate SameConfig(other: Vad) {
      && speechThresholdSamples == other.speechThresholdSamples
      && silenceThresholdSamples == other.silenceThresholdSamples
      && threshold == other.threshold
      && audioBuffer.capacity == other.audioBuffer.capacity
      && preBuffer.capacity == other.preBuffer.capacity
    }
  }

  /** The state `VADState::new` builds, with the sample counts given directly. */
  function Initial(threshold: real, speechThresholdSamples: nat, silenceThresholdSamples: nat,
                   preBufferSize: nat): (v: Vad)
    requires 0 < preBufferSize <= AUDIO_BUFFER_CAPACITY
    ensures v.Valid()
    ensures v.state == Silent && v.speechSamples == 0 && v.silenceSamples == 0
    ensures v.audioBuffer.items == [] && v.preBuffer.items == []
    ensures v.preBuffer.capacity == preBufferSize
    ensures v.speechThresholdSamples == speechThresholdSamples
    ensures v.silenceThresholdSamples == silenceThresholdSamples
    ensures v.threshold == threshold
  {
    Vad(Silent, 0, 0, speechThresholdSamples, silenceThresholdSamples, threshold,
        Empty(AUDIO_BUFFER_CAPACITY), Empty(preBufferSize))
  }

  /**
   * The buffer management every frame goes through: when the frame does not
   * fit, pop the oldest samples first, then push the frame.  A buffer at
   * least a frame long ends with the most recent samples; a shorter one can
   * only keep the first samples of the frame, because the drop empties it
   * and the push stops when it is full.
   */
  function DropOldestPush(b: Ring<Sample>, s: seq<Sample>): (r: Ring<Sample>)
    requires b.Valid()
    ensures r.Valid() && r.capacity == b.capacity
    ensures |s| <= b.capacity ==> r.items == LastN(b.capacity, b.items + s)
    ensures b.capacity < |s| ==> r.items == s[..b.capacity]
  {
    var room := if |b.items| + |s| > b.capacity then b.PopSlice(|b.items| + |s| - b.capacity).0 else b;
    room.PushSlice(s).0
  }

  datatype StepResult = StepResult(next: Vad, event: Option<VadEvent>)

  /** The transition into `Recording`: the utterance buffer is replaced by the pre-buffer's contents. */
  function BeginUtterance(w: Vad): (r: StepResult)
    requires w.Valid()
    ensures r.next.Valid() && r.next.SameConfig(w)
    ensures r.next.audioBuffer.items == w.preBuffer.items && r.next.preBuffer.items == []
  {
    var (pre, seed) := w.preBuffer.PopSlice(w.preBuffer.OccupiedLen());
    var audio := w.audioBuffer.Clear().PushSlice(seed).0;
    StepResult(w.(state := Recording, audioBuffer := audio, preBuffer := pre), Some(StartSpeech))
  }

  /** The transition back to `Silent`: the utterance buffer is handed out whole and emptied. */
  function EndUtterance(w: Vad): (r: StepResult)
    requires w.Valid()
    ensures r.next.Valid() && r.next.SameConfig(w)
    ensures r.next.audioBuffer.items == [] && r.next.preBuffer == w.preBuffer
    ensures r.event == Some(EndSpeech(w.audioBuffer.items))
  {
    var (audio, samples) := w.audioBuffer.PopSlice(w.audioBuffer.OccupiedLen());
    assert samples == w.audioBuffer.items;
    StepResult(w.(state := Silent, audioBuffer := audio), Some(EndSpeech(samples)))
  }

  /**
   * One frame: both buffers are updated first (the utterance buffer only when
   * the state before the frame is not `Silent`), then the table below decides
   * the next state.  A probability equal to the threshold counts as silence.
   */
  function Step(v: Vad, prob: real, frame: Frame): (r: StepResult)
    requires v.Valid()
    ensures r.next.Valid() && r.next.SameConfig(v)
    // the hysteresis counters: one grows by a frame, the other is zeroed
    ensures prob > v.threshold ==>
      r.next.speechSamples == v.speechSamples + N_SAMPLES && r.next.silenceSamples == 0
    ensures prob <= v.threshold ==>
      r.next.silenceSamples == v.silenceSamples + N_SAMPLES && r.next.speechSamples == 0
    // the next state
    ensures r.next.state == Recording <==>
      prob > v.threshold &&
      (v.state in {Recording, SilenceDetected} || v.speechSamples + N_SAMPLES >= v.speechThresholdSamples)
    ensures r.next.state == SpeechDetected <==>
      prob > v.threshold && v.state in {Silent, SpeechDetected} &&
      v.speechSamples + N_SAMPLES < v.speechThresholdSamples
    ensures r.next.state == Silent <==>
      prob <= v.threshold &&
      (v.state in {Silent, SpeechDetected} || v.silenceSamples + N_SAMPLES >= v.silenceThresholdSamples)
    ensures r.next.state == SilenceDetected <==>
      prob <= v.threshold && v.state in {Recording, SilenceDetected} &&
      v.silenceSamples + N_SAMPLES < v.silenceThresholdSamples
    // the events
    ensures r.event == Some(StartSpeech) <==>
      v.state in {Silent, SpeechDetected} && r.next.state == Recording
    ensures (r.event.Some? && r.event.value.EndSpeech?) <==>
      v.state in {Recording, SilenceDetected} && r.next.state == Silent
    // the buffers
    ensures r.event.None? ==> r.next.preBuffer == DropOldestPush(v.preBuffer, frame)
    ensures r.event.None? ==>
      r.next.audioBuffer == if v.state == Silent then v.audioBuffer else DropOldestPush(v.audioBuffer, frame)
    ensures r.event == Some(StartSpeech) ==>
      r.next.audioBuffer.items == DropOldestPush(v.preBuffer, frame).items && r.next.preBuffer.items == []
    ensures r.event.Some? && r.event.value.EndSpeech? ==>
      r.event.value.samples == DropOldestPush(v.audioBuffer, frame).items &&
      r.next.audioBuffer.items == [] &&
      r.next.preBuffer == DropOldestPush(v.preBuffer, frame)
  {
    var pre := DropOldestPush(v.preBuffer, frame);
    var audio := if v.state == Silent then v.audioBuffer else DropOldestPush(v.audioBuffer, frame);
    Decide(v.(audioBuffer := audio, preBuffer := pre), prob)
  }

  /**
   * The second half of a frame, once both buffers hold it: the counters
   * and the transition table.
   */
  function Decide(w: Vad, prob: real): (r: StepResult)
    requires w.Valid()
    ensures r.next.Valid() && r.next.SameConfig(w)
    ensures prob > w.threshold ==>
      r.next.speechSamples == w.speechSamples + N_SAMPLES && r.next.silenceSamples == 0
    ensures prob <= w.threshold ==>
      r.next.silenceSamples == w.silenceSamples + N_SAMPLES && r.next.speechSamples == 0
    ensures r.next.state == Recording <==>
      prob > w.threshold &&
      (w.state in {Recording, SilenceDetected} || w.speechSamples + N_SAMPLES >= w.speechThresholdSamples)
    ensures r.next.state == SpeechDetected <==>
      prob > w.threshold && w.state in {Silent, SpeechDetected} &&
      w.speechSamples + N_SAMPLES < w.speechThresholdSamples
    ensures r.next.state == Silent <==>
      prob <= w.threshold &&
      (w.state in {Silent, SpeechDetected} || w.silenceSamples + N_SAMPLES >= w.silenceThresholdSamples)
    ensures r.next.state == SilenceDetected <==>
      prob <= w.threshold && w.state in {Recording, SilenceDetected} &&
      w.silenceSamples + N_SAMPLES < w.silenceThresholdSamples
    ensures r.event == Some(StartSpeech) <==>
      w.state in {Silent, SpeechDetected} && r.next.state == Recording
    ensures (r.event.Some? && r.event.value.EndSpeech?) <==>
      w.state in {Recording, SilenceDetected} && r.next.state == Silent
    ensures r.event.None? ==> r.next.preBuffer == w.preBuffer && r.next.audioBuffer == w.audioBuffer
    ensures r.event == Some(StartSpeech) ==>
      r.next.audioBuffer.items == w.preBuffer.items && r.next.preBuffer.items == []
    ensures r.event.Some? && r.event.value.EndSpeech? ==>
      r.event.value.samples == w.audioBuffer.items && r.next.audioBuffer.items == [] &&
      r.next.preBuffer == w.preBuffer
  {
    var isSpeech := prob > w.threshold;
    var speech := if isSpeech then w.speechSamples + N_SAMPLES else 0;
    var silence := if isSpeech then 0 else w.silenceSamples + N_SAMPLES;
    var u := w.(speechSamples := speech, silenceSamples := silence);
    match w.state
    case Silent | SpeechDetected =>
      if !isSpeech then StepResult(u.(state := Silent), None)
      else if speech >= w.speechThresholdSamples then BeginUtterance(u)
      else StepResult(u.(state := SpeechDetected), None)
    case Recording | SilenceDetected =>
      if isSpeech then StepResult(u.(state := Recording), None)
      else if silence >= w.silenceThresholdSamples then EndUtterance(u)
      else StepResult(u.(state := SilenceDetected), None)
  }

  /** The per-session state of the VAD mode, updated in place by every frame. */
  class VADState {
    var state: VadStateEnum
    var speechSamples: nat
    var silenceSamples: nat
    const speechThresholdSamples: nat
    const silenceThresholdSamples: nat
    const threshold: real
    var audioBuffer: Ring<Sample>
    var preBuffer: Ring<Sample>

    function Model(): Vad
      reads this
    {
      Vad(state, speechSamples, silenceSamples, speechThresholdSamples,
          silenceThresholdSamples, threshold, audioBuffer, preBuffer)
    }

    predicate Valid()
      reads this
    {
      Model().Valid()
    }

    constructor (threshold: real, speechThresholdSamples: nat, silenceThresholdSamples: nat,
                 preBufferSize: nat)
      requires 0 < preBufferSize <= AUDIO_BUFFER_CAPACITY
      ensures Valid()
      ensures Model() == Initial(threshold, speechThresholdSamples, silenceThresholdSamples, preBufferSize)
    {
      state := Silent;
      speechSamples := 0;
      silenceSamples := 0;
      this.speechThresholdSamples := speechThresholdSamples;
      this.silenceThresholdSamples := silenceThresholdSamples;
      this.threshold := threshold;
      audioBuffer := Empty(AUDIO_BUFFER_CAPACITY);
      preBuffer := Empty(preBufferSize);
    }

    /** Clears the utterance buffer and moves the whole pre-buffer into it. */
    method SeedFromPreBuffer()
      requires Valid()
      modifies this
      ensures Valid()
      ensures Model() == old(Model()).(audioBuffer := Ring(old(preBuffer.items), AUDIO_BUFFER_CAPACITY),
                                       preBuffer := Ring([], old(preBuffer.capacity)))
    {
      audioBuffer := audioBuffer.Clear();
      var n := preBuffer.OccupiedLen();
      var (rest, temp) := preBuffer.PopSlice(n);
      preBuffer := rest;
      var n2 := |temp|;
      assert n == n2;
      var (seeded, n3) := audioBuffer.PushSlice(temp[..n]);
      audioBuffer := seeded;
      assert n2 == n3;
    }

    /** Pops every sample of the utterance buffer, in order. */
    method DrainAudioBuffer() returns (samples: seq<Sample>)
      requires Valid()
      modifies this
      ensures Valid()
      ensures samples == old(audioBuffer.items)
      ensures Model() == old(Model()).(audioBuffer := Ring([], AUDIO_BUFFER_CAPACITY))
    {
      var (rest, popped) := audioBuffer.PopSlice(audioBuffer.OccupiedLen());
      audioBuffer := rest;
      samples := popped;
    }

    /**
     * The buffer half of `process_frame`: the frame always goes into the
     * pre-buffer, and into the utterance buffer unless the state is `Silent`;
     * a full buffer first loses its oldest samples.
     */
    method BufferFrame(samples: Frame)
      requires Valid()
      modifies this
      ensures Valid()
      ensures Model() == old(Model()).(
        preBuffer := DropOldestPush(old(preBuffer), samples),
        audioBuffer := if old(state) == Silent then old(audioBuffer) else DropOldestPush(old(audioBuffer), samples))
    {
      // The pre-buffer always takes the frame.
      var preBufferCapacity := preBuffer.capacity;
      var samplesToAdd := |samples|;
      if preBuffer.OccupiedLen() + samplesToAdd > preBufferCapacity {
        var samplesToDrop := preBuffer.OccupiedLen() + samplesToAdd - preBufferCapacity;
        var (kept, dropped) := preBuffer.PopSlice(samplesToDrop);
        preBuffer := kept;
      }
      var (pushed, n) := preBuffer.PushSlice(samples);
      preBuffer := pushed;

      // The utterance buffer takes it too unless the detector is Silent.
      if state != Silent {
        var audioBufferCapacity := audioBuffer.capacity;
        if audioBuffer.OccupiedLen() + samplesToAdd > audioBufferCapacity {
          var samplesToDrop := audioBuffer.OccupiedLen() + samplesToAdd - audioBufferCapacity;
          var (kept, dropped) := audioBuffer.PopSlice(samplesToDrop);
          audioBuffer := kept;
        }
        var (pushedAudio, m) := audioBuffer.PushSlice(samples);
        audioBuffer := pushedAudio;
      }
    }

    /** Processes one frame and its speech probability; may emit an event. */
    method ProcessFrame(speechProb: real, samples: Frame) returns (event: Option<VadEvent>)
      requires Valid()
      modifies this
      ensures Valid()
      ensures Model() == Step(old(Model()), speechProb, samples).next
      ensures event == Step(old(Model()), speechProb, samples).event
    {
      BufferFrame(samples);
      event := Transition(speechProb);
    }

    /** The counters and the transition of `process_frame`, after the buffers have taken the frame. */
    method Transition(speechProb: real) returns (event: Option<VadEvent>)
      requires Valid()
      modifies this
      ensures Valid()
      ensures Model() == Decide(old(Model()), speechProb).next
      ensures event == Decide(old(Model()), speechProb).event
    {
      match state {
        case Silent =>
          if speechProb > threshold {
            speechSamples := speechSamples + N_SAMPLES;
            silenceSamples := 0;
            if speechSamples >= speechThresholdSamples {
              state := Recording;
              SeedFromPreBuffer();
              return Some(StartSpeech);
            } else {
              state := SpeechDetected;
            }
          } else {
            silenceSamples := silenceSamples + N_SAMPLES;
            speechSamples := 0;
          }
        case SpeechDetected =>
          if speechProb > threshold {
            speechSamples := speechSamples + N_SAMPLES;
            silenceSamples := 0;
            if speechSamples >= speechThresholdSamples {
              state := Recording;
              SeedFromPreBuffer();
              return Some(StartSpeech);
            }
          } else {
            state := Silent;
            silenceSamples := silenceSamples + N_SAMPLES;
            speechSamples := 0;
          }
        case Recording =>
          if speechProb > threshold {
            speechSamples := speechSamples + N_SAMPLES;
            silenceSamples := 0;
          } else {
            silenceSamples := silenceSamples + N_SAMPLES;
            speechSamples := 0;
            if silenceSamples >= silenceThresholdSamples {
              state := Silent;
              var collected := DrainAudioBuffer();
              return Some(EndSpeech(collected));
            } else {
              state := SilenceDetected;
            }
          }
        case SilenceDetected =>
          if speechProb > threshold {
            state := Recording;
            speechSamples := speechSamples + N_SAMPLES;
            silenceSamples := 0;
          } else {
            silenceSamples := silenceSamples + N_SAMPLES;
            speechSamples := 0;
            if silenceSamples >= silenceThresholdSamples {
              state := Silent;
              var collected := DrainAudioBuffer();
              return Some(EndSpeech(collected));
            }
          }
      }
      return None;
    }
  }
}
