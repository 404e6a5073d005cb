/**
 * The frame assembler of the VAD capture mode: the body of the input-stream
 * callback in src/audio/vad/mod.rs after normalisation.  Incoming samples go
 * one by one into a two-second ring buffer (a full buffer refuses the new
 * sample); then, while a whole frame is buffered, the oldest 512 samples are
 * popped into a reusable frame array, scored, and fed to the state machine,
 * whose events are forwarded as `Audio` messages.
 */
module Capture {
  import opened Common
  import opened RingBuf
  import opened Vad
  import opened VadProperties

  /** Capacity of the assembly buffer: two seconds at 16 kHz. */
  const ASSEMBLY_BUFFER_CAPACITY: nat := 16000 * 2

  /** The messages sent to the transcription side. */
  datatype Audio = Warm | Sample(samples: seq<Sample>) | Path(path: string)

  /** `StartSpeech` asks the transcriber to warm up; `EndSpeech` hands it the utterance. */
  function ToAudio(e: VadEvent): (a: Audio)
    ensures a.Warm? <==> e == StartSpeech
    ensures e.EndSpeech? ==> a == Sample(e.samples)
  {
    match e
    case StartSpeech => Warm
    case EndSpeech(samples) => Sample(samples)
  }

  /** `try_push` of every incoming sample, in order. */
  function Fill(b: Ring<Sample>, data: seq<Sample>): (r: Ring<Sample>)
    requires b.Valid()
    ensures r.Valid() && r.capacity == b.capacity
    decreases |data|
  {
    if data == [] then b
    else Fill(b, data[..|data| - 1]).TryPush(data[|data| - 1]).0
  }

  /**
   * Filling keeps the buffered samples and appends the longest prefix of the
   * incoming ones that fits: when the buffer is full it is the NEW samples
   * that are lost, never the buffered ones.
   */
  lemma {:induction false} FillDropsNewest(b: Ring<Sample>, data: seq<Sample>)
    requires b.Valid()
    ensures var room := b.capacity - |b.items|;
            Fill(b, data).items == b.items + data[..if |data| <= room then |data| else room]
    decreases |data|
  {
    if data != [] {
      var init := data[..|data| - 1];
      FillDropsNewest(b, init);
      assert init[..|init|] == init;
      var room := b.capacity - |b.items|;
      if |init| < room {
        assert init + [data[|data| - 1]] == data;
      } else {
        assert data[..room] == init[..room];
      }
    }
  }

  /** What draining the assembly buffer does: the state reached, and everything it produced. */
  datatype Drained<S> = Drained(vad: Vad, scorer: S, frames: seq<Frame>, sent: seq<Audio>, rest: seq<Sample>)

  /**
   * Pops whole frames from the front of `buf` while at least one is there;
   * each is scored (the scorer carries its recurrent state `S` from frame to
   * frame) and processed by the state machine.
   */
  function Drain<S>(v: Vad, scorer: S, score: (S, Frame) -> (real, S), buf: seq<Sample>): (r: Drained<S>)
    requires v.Valid()
    ensures r.vad.Valid() && r.vad.SameConfig(v)
    ensures |r.rest| < N_SAMPLES && |r.frames| * N_SAMPLES + |r.rest| == |buf|
    decreases |buf|
  {
    if |buf| < N_SAMPLES then Drained(v, scorer, [], [], buf)
    else
      var frame: Frame := buf[..N_SAMPLES];
      var (prob, scorer') := score(scorer, frame);
      var s := Step(v, prob, frame);
      var r := Drain(s.next, scorer', score, buf[N_SAMPLES..]);
      Drained(r.vad, r.scorer, [frame] + r.frames,
              (if s.event.Some? then [ToAudio(s.event.value)] else []) + r.sent, r.rest)
  }

  /**
   * Draining emits only whole frames, in arrival order, with no sample
   * skipped or repeated; `Drain` itself promises that less than a frame is
   * left over.
   */
  lemma {:induction false} DrainFrames<S>(v: Vad, scorer: S, score: (S, Frame) -> (real, S), buf: seq<Sample>)
    requires v.Valid()
    ensures var r := Drain(v, scorer, score, buf);
            && Flatten(r.frames) + r.rest == buf
    decreases |buf|
  {
    if |buf| >= N_SAMPLES {
      var frame: Frame := buf[..N_SAMPLES];
      var p := score(scorer, frame);
      var next := Step(v, p.0, frame).next;
      var tail := buf[N_SAMPLES..];
      DrainOneFrame(v, scorer, score, buf);
      var r' := Drain(next, p.1, score, tail);
      assert Drain(v, scorer, score, buf).frames == [frame] + r'.frames;
      assert Drain(v, scorer, score, buf).rest == r'.rest;
      DrainFrames(next, p.1, score, tail);
      FlattenCons(frame, r'.frames);
      assert buf == frame + tail;
    }
  }

  /** Draining `n` samples processes `n / 512` frames and leaves `n % 512` samples. */
  lemma DrainFrameCount<S>(v: Vad, scorer: S, score: (S, Frame) -> (real, S), buf: seq<Sample>)
    requires v.Valid()
    ensures |Drain(v, scorer, score, buf).frames| == |buf| / N_SAMPLES
    ensures |Drain(v, scorer, score, buf).rest| == |buf| % N_SAMPLES
  {
    var r := Drain(v, scorer, score, buf);
    DivisionIsUnique(|buf|, |r.frames|, |r.rest|);
  }

  lemma DivisionIsUnique(n: nat, q: nat, m: nat)
    requires m < N_SAMPLES && q * N_SAMPLES + m == n
    ensures q == n / N_SAMPLES && m == n % N_SAMPLES
  {
  }

  /**
   * Scores frames one after another, threading the scorer's state; the
   * (probability, frame) pairs in order, and the scorer's final state.
   */
  function Scored<S>(scorer: S, score: (S, Frame) -> (real, S), frames: seq<Frame>): (r: (seq<(real, Frame)>, S))
    ensures |r.0| == |frames|
    decreases |frames|
  {
    if frames == [] then ([], scorer)
    else
      var (prob, scorer') := score(scorer, frames[0]);
      var rest := Scored(scorer', score, frames[1..]);
      ([(prob, frames[0])] + rest.0, rest.1)
  }

  /** Scoring pairs each frame with its probability and keeps the frames as they were, in order. */
  lemma {:induction false} ScoredFrames<S>(scorer: S, score: (S, Frame) -> (real, S), frames: seq<Frame>)
    ensures FramesOf(Scored(scorer, score, frames).0) == frames
    decreases |frames|
  {
    if frames != [] {
      var p := score(scorer, frames[0]);
      var rest := Scored(p.1, score, frames[1..]);
      ScoredFrames(p.1, score, frames[1..]);
      var inputs := [(p.0, frames[0])] + rest.0;
      assert Scored(scorer, score, frames).0 == inputs;
      assert inputs[0].1 == frames[0] && inputs[1..] == rest.0;
      FramesOfTail(inputs);
    }
  }

  /** The message sent for each event, in order. */
  function Messages(events: seq<VadEvent>): (r: seq<Audio>)
    ensures |r| == |events|
    ensures forall i :: 0 <= i < |events| ==> r[i] == ToAudio(events[i])
  {
    seq(|events|, i requires 0 <= i < |events| => ToAudio(events[i]))
  }

  /**
   * What draining does to the detector: the popped frames, scored in order
   * with the scorer's state carried from one to the next, are fed to the
   * state machine one by one; the detector ends where that run ends, the
   * scorer where the scoring ends, and the messages sent are the run's
   * events, each mapped to its message.
   */
  lemma {:induction false} DrainFeedsDetector<S>(v: Vad, scorer: S, score: (S, Frame) -> (real, S), buf: seq<Sample>)
    requires v.Valid()
    ensures var r := Drain(v, scorer, score, buf);
            var scored := Scored(scorer, score, r.frames);
            var run := Run(v, scored.0);
            && r.scorer == scored.1
            && r.vad == run.0
            && r.sent == Messages(run.1)
    decreases |buf|
  {
    if |buf| < N_SAMPLES {
      assert Messages([]) == [];
    } else {
      var frame: Frame := buf[..N_SAMPLES];
      var p := score(scorer, frame);
      var s := Step(v, p.0, frame);
      var tail := buf[N_SAMPLES..];
      DrainOneFrame(v, scorer, score, buf);
      DrainFeedsDetector(s.next, p.1, score, tail);
      var r' := Drain(s.next, p.1, score, tail);
      var frames := [frame] + r'.frames;
      assert frames[0] == frame && frames[1..] == r'.frames;
      var scored' := Scored(p.1, score, r'.frames);
      var inputs := [(p.0, frame)] + scored'.0;
      assert Scored(scorer, score, frames) == (inputs, scored'.1);
      assert inputs[0] == (p.0, frame) && inputs[1..] == scored'.0;
      var run' := Run(s.next, scored'.0);
      assert Run(v, inputs) == (run'.0, EventsOf(s.event) + run'.1);
      MessagesCons(s.event, run'.1);
    }
  }

  /** The messages of one step's events followed by later ones. */
  lemma MessagesCons(e: Option<VadEvent>, events: seq<VadEvent>)
    ensures Messages(EventsOf(e) + events) == (if e.Some? then [ToAudio(e.value)] else []) + Messages(events)
  {
    if e.None? {
      assert EventsOf(e) + events == events;
    }
  }

  /** Unfolds `Drain` by the one frame at the front of the buffer. */
  lemma DrainOneFrame<S>(v: Vad, scorer: S, score: (S, Frame) -> (real, S), buf: seq<Sample>)
    requires v.Valid() && |buf| >= N_SAMPLES
    ensures var frame: Frame := buf[..N_SAMPLES];
            var p := score(scorer, frame);
            var s := Step(v, p.0, frame);
            var r := Drain(s.next, p.1, score, buf[N_SAMPLES..]);
            Drain(v, scorer, score, buf) ==
              Drained(r.vad, r.scorer, [frame] + r.frames,
                      (if s.event.Some? then [ToAudio(s.event.value)] else []) + r.sent, r.rest)
  {
  }

  /**
   * `d` is what is left of the draining `goal` once `done` frames have been
   * processed and `sent` has been sent: the same end state and leftover
   * samples, and the rest of the frames and messages.
   */
  ghost predicate Resumes<S>(d: Drained<S>, goal: Drained<S>, sent: seq<Audio>, done: nat) {
    && d.vad == goal.vad && d.scorer == goal.scorer && d.rest == goal.rest
    && sent + d.sent == goal.sent
    && done + |d.frames| == |goal.frames|
  }

  /** Resuming after one more frame is resuming the whole draining. */
  lemma ResumesTrans<S>(d2: Drained<S>, d1: Drained<S>, goal: Drained<S>, emitted: seq<Audio>, sent: seq<Audio>, done: nat)
    requires Resumes(d2, d1, emitted, 1) && Resumes(d1, goal, sent, done)
    ensures Resumes(d2, goal, sent + emitted, done + 1)
  {
    assert sent + emitted + d2.sent == sent + (emitted + d2.sent);
  }

  /** The state the stream callback closes over. */
  class InputCallback<S> {
    var buffer: Ring<Sample>
    /** The reusable frame the assembler pops into. */
    const tempChunk: array<Sample>
    /** Frames popped so far. */
    var i: nat
    /** The scorer's recurrent state. */
    var scorerState: S
    const score: (S, Frame) -> (real, S)
    const vadState: VADState

    predicate Valid()
      reads this, vadState
    {
      && vadState.Valid()
      && buffer.Valid()
      && buffer.capacity == ASSEMBLY_BUFFER_CAPACITY
      && tempChunk.Length == N_SAMPLES
    }

    constructor (vadState: VADState, scorerState: S, score: (S, Frame) -> (real, S))
      requires vadState.Valid()
      ensures Valid() && fresh(tempChunk)
      ensures buffer.items == [] && i == 0
      ensures this.vadState == vadState && this.scorerState == scorerState && this.score == score
    {
      buffer := Empty(ASSEMBLY_BUFFER_CAPACITY);
      tempChunk := new Sample[N_SAMPLES];
      i := 0;
      this.scorerState := scorerState;
      this.score := score;
      this.vadState := vadState;
    }

    /** One callback invocation with already normalised samples; returns the messages sent. */
    method OnData(data: seq<Sample>) returns (sent: seq<Audio>)
      requires Valid()
      modifies this, vadState, tempChunk
      ensures Valid()
      ensures var d := Drain(old(vadState.Model()), old(scorerState), score, Fill(old(buffer), data).items);
              && buffer.items == d.rest
              && vadState.Model() == d.vad
              && scorerState == d.scorer
              && sent == d.sent
              && i == old(i) + |d.frames|
    {
      PushSamples(data);
      sent := ProcessFrames();
    }

    /** Pushes every sample that fits; the rest are dropped. */
    method PushSamples(data: seq<Sample>)
      requires Valid()
      modifies this`buffer
      ensures Valid()
      ensures buffer == Fill(old(buffer), data)
    {
      for k := 0 to |data|
        invariant Valid()
        invariant buffer == Fill(old(buffer), data[..k])
      {
        assert data[..k + 1][..k] == data[..k];
        var (pushed, ok) := buffer.TryPush(data[k]);
        buffer := pushed;
      }
      assert data[..|data|] == data;
    }

    /** Pops, scores and processes whole frames while there are any. */
    method ProcessFrames() returns (sent: seq<Audio>)
      requires Valid()
      modifies this, vadState, tempChunk
      ensures Valid()
      ensures var d := Drain(old(vadState.Model()), old(scorerState), score, old(buffer.items));
              && buffer.items == d.rest
              && vadState.Model() == d.vad
              && scorerState == d.scorer
              && sent == d.sent
              && i == old(i) + |d.frames|
    {
      ghost var goal := Drain(vadState.Model(), scorerState, score, buffer.items);
      sent := [];
      while buffer.OccupiedLen() >= N_SAMPLES
        invariant Valid()
        invariant i >= old(i)
        invariant Resumes(Drain(vadState.Model(), scorerState, score, buffer.items), goal, sent, i - old(i))
        decreases |buffer.items|
      {
        ghost var d0 := Drain(vadState.Model(), scorerState, score, buffer.items);
        var emitted := ProcessOneFrame();
        ResumesTrans(Drain(vadState.Model(), scorerState, score, buffer.items), d0, goal, emitted, sent, i - old(i) - 1);
        sent := sent + emitted;
      }
    }

    /** One iteration of the frame loop: pop a frame, score it, process it. */
    method ProcessOneFrame() returns (emitted: seq<Audio>)
      requires Valid() && buffer.OccupiedLen() >= N_SAMPLES
      modifies this, vadState, tempChunk
      ensures Valid()
      ensures |buffer.items| < |old(buffer.items)| && i == old(i) + 1
      ensures Resumes(Drain(vadState.Model(), scorerState, score, buffer.items),
                      Drain(old(vadState.Model()), old(scorerState), score, old(buffer.items)), emitted, 1)
    {
      ghost var v0, buf0 := vadState.Model(), buffer.items;
      DrainOneFrame(v0, scorerState, score, buf0);
      i := i + 1;
      var (rest, popped) := buffer.PopSlice(N_SAMPLES);
      buffer := rest;
      CopyToChunk(popped);
      var frame: Frame := tempChunk[..];
      var (speechProb, nextScorer) := score(scorerState, frame);
      scorerState := nextScorer;
      var event := vadState.ProcessFrame(speechProb, frame);
      emitted := if event.Some? then [ToAudio(event.value)] else [];
    }

    /** `pop_slice` into the reusable frame array. */
    method CopyToChunk(popped: seq<Sample>)
      requires tempChunk.Length == |popped|
      modifies tempChunk
      ensures tempChunk[..] == popped
    {
      for k := 0 to |popped|
        invariant tempChunk[..k] == popped[..k]
      {
        tempChunk[k] := popped[k];
      }
    }
  }
}
