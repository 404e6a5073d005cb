/**
 * Properties of the VAD state machine over several frames: what the
 * pre-buffer holds, what an utterance delivers, and the scenarios of the
 * unit tests in src/audio/vad/mod.rs.
 */
module VadProperties {
  import opened Common
  import opened RingBuf
  import opened Vad

  /** All the samples of a sequence of frames, in order. */
  function Flatten(frames: seq<Frame>): (r: seq<Sample>)
    ensures |r| == N_SAMPLES * |frames|
  {
    if frames == [] then [] else frames[0] + Flatten(frames[1..])
  }

  function FramesOf(inputs: seq<(real, Frame)>): (r: seq<Frame>)
    ensures |r| == |inputs|
    ensures forall i :: 0 <= i < |inputs| ==> r[i] == inputs[i].1
  {
    seq(|inputs|, i requires 0 <= i < |inputs| => inputs[i].1)
  }

  function EventsOf(e: Option<VadEvent>): seq<VadEvent> {
    if e.Some? then [e.value] else []
  }

  /** Feeding (probability, frame) pairs one after another; the final state and every event emitted. */
  function Run(v: Vad, inputs: seq<(real, Frame)>): (r: (Vad, seq<VadEvent>))
    requires v.Valid()
    ensures r.0.Valid() && r.0.SameConfig(v)
    ensures |r.1| <= |inputs|
    decreases |inputs|
  {
    if inputs == [] then (v, [])
    else
      var s := Step(v, inputs[0].0, inputs[0].1);
      var rest := Run(s.next, inputs[1..]);
      (rest.0, EventsOf(s.event) + rest.1)
  }

  lemma FlattenCons(f: Frame, frames: seq<Frame>)
    ensures Flatten([f] + frames) == f + Flatten(frames)
  {
    assert ([f] + frames)[1..] == frames;
  }

  lemma FramesOfTail(inputs: seq<(real, Frame)>)
    requires inputs != []
    ensures FramesOf(inputs) == [inputs[0].1] + FramesOf(inputs[1..])
  {
  }

  /** A probability equal to the threshold is silence: `Silent` stays `Silent` and nothing is emitted. */
  lemma ThresholdIsSilence(v: Vad, frame: Frame)
    requires v.Valid() && v.state == Silent
    ensures Step(v, v.threshold, frame).next.state == Silent
    ensures Step(v, v.threshold, frame).event == None
  {
  }

  /**
   * While no `StartSpeech` drains it, a pre-buffer at least a frame long
   * holds the most recent samples seen, in arrival order, as many as fit.
   */
  lemma {:induction false} PreBufferKeepsMostRecent(v: Vad, inputs: seq<(real, Frame)>)
    requires v.Valid() && N_SAMPLES <= v.preBuffer.capacity
    requires StartSpeech !in Run(v, inputs).1
    ensures Run(v, inputs).0.preBuffer.items ==
            LastN(v.preBuffer.capacity, v.preBuffer.items + Flatten(FramesOf(inputs)))
    decreases |inputs|
  {
    if inputs == [] {
      assert FramesOf(inputs) == [];
    } else {
      var w := PreBufferHead(v, inputs);
      PreBufferKeepsMostRecent(w, inputs[1..]);
      var f := inputs[0].1;
      LastNAppend(v.preBuffer.capacity, v.preBuffer.items + f, Flatten(FramesOf(inputs[1..])));
      FlattenTail(v.preBuffer.items, inputs);
    }
  }

  /** The first frame of a run that emits no `StartSpeech`. */
  lemma PreBufferHead(v: Vad, inputs: seq<(real, Frame)>) returns (w: Vad)
    requires v.Valid() && N_SAMPLES <= v.preBuffer.capacity
    requires inputs != [] && StartSpeech !in Run(v, inputs).1
    ensures w.Valid() && w.preBuffer.capacity == v.preBuffer.capacity
    ensures w.preBuffer.items == LastN(v.preBuffer.capacity, v.preBuffer.items + inputs[0].1)
    ensures Run(v, inputs).0 == Run(w, inputs[1..]).0 && StartSpeech !in Run(w, inputs[1..]).1
  {
    var s := Step(v, inputs[0].0, inputs[0].1);
    assert s.event != Some(StartSpeech);
    w := s.next;
  }

  /**
   * While an utterance is being recorded and nothing is emitted, the machine
   * stays in `Recording` or `SilenceDetected` and the utterance buffer holds
   * everything it held plus every frame, less only the oldest samples that
   * did not fit in sixty seconds.
   */
  lemma {:induction false} RecordingAccumulates(v: Vad, inputs: seq<(real, Frame)>)
    requires v.Valid() && v.state in {Recording, SilenceDetected}
    requires Run(v, inputs).1 == []
    ensures Run(v, inputs).0.state in {Recording, SilenceDetected}
    ensures Run(v, inputs).0.audioBuffer.items ==
            LastN(AUDIO_BUFFER_CAPACITY, v.audioBuffer.items + Flatten(FramesOf(inputs)))
    decreases |inputs|
  {
    if inputs == [] {
      assert FramesOf(inputs) == [];
    } else {
      var w := RecordingHead(v, inputs);
      RecordingAccumulates(w, inputs[1..]);
      var f := inputs[0].1;
      LastNAppend(AUDIO_BUFFER_CAPACITY, v.audioBuffer.items + f, Flatten(FramesOf(inputs[1..])));
      FlattenTail(v.audioBuffer.items, inputs);
    }
  }

  /** The first frame of a run while recording that emits nothing. */
  lemma RecordingHead(v: Vad, inputs: seq<(real, Frame)>) returns (w: Vad)
    requires v.Valid() && v.state in {Recording, SilenceDetected}
    requires inputs != [] && Run(v, inputs).1 == []
    ensures w.Valid() && w.state in {Recording, SilenceDetected}
    ensures w.audioBuffer.items == LastN(AUDIO_BUFFER_CAPACITY, v.audioBuffer.items + inputs[0].1)
    ensures Run(v, inputs) == Run(w, inputs[1..]) && Run(w, inputs[1..]).1 == []
  {
    w := Step(v, inputs[0].0, inputs[0].1).next;
  }

  lemma FlattenTail(prefix: seq<Sample>, inputs: seq<(real, Frame)>)
    requires inputs != []
    ensures prefix + inputs[0].1 + Flatten(FramesOf(inputs[1..])) == prefix + Flatten(FramesOf(inputs))
  {
    FramesOfTail(inputs);
    FlattenCons(inputs[0].1, FramesOf(inputs[1..]));
  }

  /**
   * One utterance from start to end: the frame that emits `StartSpeech`
   * seeds the utterance buffer with the pre-buffer (which already holds that
   * frame); the frames after it emit nothing; the frame that emits
   * `EndSpeech(samples)` delivers the seed followed by every later frame,
   * itself included, less only the oldest samples beyond sixty seconds.
   */
  lemma UtteranceIsSeedPlusFrames(v: Vad, p0: real, f0: Frame, inputs: seq<(real, Frame)>,
                                  pn: real, fn: Frame)
    requires v.Valid() && Step(v, p0, f0).event == Some(StartSpeech)
    requires Run(Step(v, p0, f0).next, inputs).1 == []
    requires Step(Run(Step(v, p0, f0).next, inputs).0, pn, fn).event.Some?
    ensures Step(Run(Step(v, p0, f0).next, inputs).0, pn, fn).event ==
            Some(EndSpeech(LastN(AUDIO_BUFFER_CAPACITY,
                                 DropOldestPush(v.preBuffer, f0).items + Flatten(FramesOf(inputs)) + fn)))
  {
    var start := Step(v, p0, f0).next;
    RecordingAccumulates(start, inputs);
    var before := Run(start, inputs).0;
    var seed := DropOldestPush(v.preBuffer, f0).items;
    var last := Step(before, pn, fn);
    assert last.event != Some(StartSpeech);
    LastNAppend(AUDIO_BUFFER_CAPACITY, seed + Flatten(FramesOf(inputs)), fn);
  }

  /**
   * The detector of the unit tests' fixture `create_test_vad_state`:
   * threshold 0.5 and 0.1 s, that is 1600 samples, of speech, of silence
   * and of pre-buffer.
   */
  function TestSession(): (v: Vad)
    ensures v.Valid() && v.state == Silent && v.speechSamples == 0 && v.silenceSamples == 0
    ensures v.threshold == 0.5 && v.speechThresholdSamples == 1600 && v.silenceThresholdSamples == 1600
    ensures v.preBuffer.capacity == 1600 && v.preBuffer.items == [] && v.audioBuffer.items == []
  {
    Initial(0.5, 1600, 1600, 1600)
  }

  /**
   * test_threshold_edge_cases: 0.5 is silence, 0.5001 moves to
   * `SpeechDetected`, 0.4999 moves back to `Silent`; nothing is emitted.
   */
  lemma ThresholdEdgeCases(frame: Frame)
    ensures var s1 := Step(TestSession(), 0.5, frame);
            && s1.next.state == Silent && s1.event == None
            && var s2 := Step(s1.next, 0.5001, frame);
               && s2.next.state == SpeechDetected && s2.event == None
               && var s3 := Step(s2.next, 0.4999, frame);
                  s3.next.state == Silent && s3.event == None
  {
  }

  /** test_pre_buffer_content: after one frame from a fresh session the pre-buffer is exactly that frame. */
  lemma PreBufferAfterOneFrame(frame: Frame)
    ensures Step(TestSession(), 0.0, frame).next.preBuffer.items == frame
  {
  }

  /** The first four frames of test_vad_state_transitions: `StartSpeech` on the fourth, seeded with the last 1600 samples. */
  lemma ScenarioOnset(f: seq<Frame>)
    requires |f| == 10
    ensures var s1 := Step(TestSession(), 0.6, f[0]);
            && s1.next.state == SpeechDetected && s1.event == None
            && var s2 := Step(s1.next, 0.6, f[1]);
            && s2.next.state == SpeechDetected && s2.event == None
            && var s3 := Step(s2.next, 0.6, f[2]);
            && s3.next.state == SpeechDetected && s3.event == None
            && var s4 := Step(s3.next, 0.6, f[3]);
            && s4.next.state == Recording && s4.event == Some(StartSpeech)
            && s4.next.silenceSamples == 0
            && s4.next.audioBuffer.items == f[0][448..] + f[1] + f[2] + f[3]
  {
    var a: seq<Sample>, b: seq<Sample>, c: seq<Sample>, d: seq<Sample> := f[0], f[1], f[2], f[3];
    var s1 := Step(TestSession(), 0.6, f[0]);
    assert s1.next.preBuffer.items == a;
    var s2 := Step(s1.next, 0.6, f[1]);
    assert s2.next.preBuffer.items == a + b;
    var s3 := Step(s2.next, 0.6, f[2]);
    assert s3.next.preBuffer.items == a + b + c;
    assert s3.next.speechSamples == 1536 && s3.next.state == SpeechDetected;
    var seeded := DropOldestPush(s3.next.preBuffer, d);
    assert seeded.items == LastN(1600, a + b + c + d);
    SeedOfFourFrames(a, b, c, d);
  }

  /** The last 1600 samples of four frames: the last 64 of the first, then the other three. */
  lemma SeedOfFourFrames(a: seq<Sample>, b: seq<Sample>, c: seq<Sample>, d: seq<Sample>)
    requires |a| == |b| == |c| == |d| == N_SAMPLES
    ensures LastN(1600, a + b + c + d) == a[448..] + b + c + d
  {
    assert (a + b + c + d)[448..] == a[448..] + b + c + d;
  }

  /**
   * The rest of test_vad_state_transitions, from the state `StartSpeech`
   * left: a one-frame silence detour, speech again, then four frames of
   * silence, the last of which emits the seed and the six frames.
   */
  lemma ScenarioRecording(w: Vad, f: seq<Frame>)
    requires |f| == 10 && w.Valid() && w.state == Recording && w.silenceSamples == 0
    requires w.threshold == 0.5 && w.silenceThresholdSamples == 1600 && |w.audioBuffer.items| <= 2048
    ensures var s5 := Step(w, 0.4, f[4]);
            && s5.next.state == SilenceDetected && s5.event == None
            && var s6 := Step(s5.next, 0.6, f[5]);
            && s6.next.state == Recording && s6.event == None
            && var s7 := Step(s6.next, 0.4, f[6]);
            && s7.next.state == SilenceDetected && s7.event == None
            && var s8 := Step(s7.next, 0.4, f[7]);
            && s8.next.state == SilenceDetected && s8.event == None
            && var s9 := Step(s8.next, 0.4, f[8]);
            && s9.next.state == SilenceDetected && s9.event == None
            && var s10 := Step(s9.next, 0.4, f[9]);
            && s10.next.state == Silent
            && s10.event == Some(EndSpeech(w.audioBuffer.items + f[4] + f[5] + f[6] + f[7] + f[8] + f[9]))
  {
    var s5 := Step(w, 0.4, f[4]);
    QuietFrameWhileRecording(w, 0.4, f[4]);
    var s6 := Step(s5.next, 0.6, f[5]);
    SpeechFrameWhileRecording(s5.next, 0.6, f[5]);
    var s7 := Step(s6.next, 0.4, f[6]);
    QuietFrameWhileRecording(s6.next, 0.4, f[6]);
    var s8 := Step(s7.next, 0.4, f[7]);
    QuietFrameWhileRecording(s7.next, 0.4, f[7]);
    var s9 := Step(s8.next, 0.4, f[8]);
    QuietFrameWhileRecording(s8.next, 0.4, f[8]);
    assert s9.next.audioBuffer.items == w.audioBuffer.items + f[4] + f[5] + f[6] + f[7] + f[8];
  }

  /** While recording, a silent frame short of the silence threshold is buffered and moves to `SilenceDetected`. */
  lemma QuietFrameWhileRecording(w: Vad, prob: real, frame: Frame)
    requires w.Valid() && w.state in {Recording, SilenceDetected} && prob <= w.threshold
    requires w.silenceSamples + N_SAMPLES < w.silenceThresholdSamples
    requires |w.audioBuffer.items| + N_SAMPLES <= AUDIO_BUFFER_CAPACITY
    ensures var s := Step(w, prob, frame);
            && s.event == None && s.next.state == SilenceDetected && s.next.SameConfig(w)
            && s.next.silenceSamples == w.silenceSamples + N_SAMPLES
            && s.next.audioBuffer.items == w.audioBuffer.items + frame
  {
  }

  /** While recording, a speech frame is buffered and moves to `Recording` with the silence count zeroed. */
  lemma SpeechFrameWhileRecording(w: Vad, prob: real, frame: Frame)
    requires w.Valid() && w.state in {Recording, SilenceDetected} && prob > w.threshold
    requires |w.audioBuffer.items| + N_SAMPLES <= AUDIO_BUFFER_CAPACITY
    ensures var s := Step(w, prob, frame);
            && s.event == None && s.next.state == Recording && s.next.SameConfig(w)
            && s.next.silenceSamples == 0
            && s.next.audioBuffer.items == w.audioBuffer.items + frame
  {
  }

  /**
   * test_vad_state_transitions with ten distinct frames: speech for four
   * frames (`StartSpeech` on the fourth), a one-frame silence detour, speech
   * again, then four frames of silence ending in `EndSpeech`.  The payload
   * is the last 64 samples of the first frame followed by frames 2 to 10:
   * 4672 samples.
   */
  lemma TransitionsScenario(f: seq<Frame>)
    requires |f| == 10
    ensures var s4 := Step(Step(Step(Step(TestSession(), 0.6, f[0]).next, 0.6, f[1]).next, 0.6, f[2]).next, 0.6, f[3]);
            && s4.event == Some(StartSpeech)
            && var s10 := Step(Step(Step(Step(Step(Step(s4.next, 0.4, f[4]).next, 0.6, f[5]).next,
                                              0.4, f[6]).next, 0.4, f[7]).next, 0.4, f[8]).next, 0.4, f[9]);
            && s10.next.state == Silent
            && s10.event == Some(EndSpeech(f[0][448..] + f[1] + f[2] + f[3] + f[4] + f[5] + f[6] + f[7] + f[8] + f[9]))
            && |s10.event.value.samples| == 4672
  {
    ScenarioOnset(f);
    var s4 := Step(Step(Step(Step(TestSession(), 0.6, f[0]).next, 0.6, f[1]).next, 0.6, f[2]).next, 0.6, f[3]);
    ScenarioRecording(s4.next, f);
  }
}
