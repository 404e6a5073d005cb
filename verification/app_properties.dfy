/**
 * What the key-trigger controller and the transcript handling promise:
 * the pressed set stays inside the chord, releases forget exactly one key,
 * the two trigger modes start and stop the recorder as their documentation
 * says and the recorder calls alternate, hold mode records exactly while the
 * chord is held, and the notification summary is a safe, short prefix.
 */
module AppProperties {
  import opened Common
  import opened Keyboard
  import opened Config
  import opened Utf8
  import opened App

  /** Every event updates the pressed set the same way in both modes, and non-key events change nothing. */
  lemma PressedKeysUpdate(cfg: ActivationConfig, s: State, e: EventType, err: Option<string>)
    ensures var o := EventStep(cfg, s, e, err);
            && (e.KeyPress? ==> o.state.pressedKeys == s.pressedKeys + ({e.key} * cfg.keys))
            && (e.KeyRelease? ==> o.state.pressedKeys == s.pressedKeys - {e.key})
            && (!e.KeyPress? && !e.KeyRelease? ==> o == Outcome(s, [], Ok(())))
  {
  }

  /** The recorder's answer changes what the handler returns, never the state or the effects. */
  lemma RecorderErrorOnlyChangesResult(cfg: ActivationConfig, s: State, e: EventType, msg: string)
    ensures var failed := EventStep(cfg, s, e, Some(msg));
            var succeeded := EventStep(cfg, s, e, None);
            && failed.state == succeeded.state
            && failed.effects == succeeded.effects
            && succeeded.result == Ok(())
            && (failed.result == Err(msg) <==> (StartRecording in failed.effects || StopRecording in failed.effects))
            && (failed.result != Err(msg) ==> failed.result == Ok(()))
  {
  }

  /** Toggle mode, release: the key is forgotten and nothing else happens. */
  lemma ToggleRelease(cfg: ActivationConfig, s: State, key: Key, err: Option<string>)
    ensures ToggleStep(cfg, s, KeyRelease(key), err) == Outcome(State(s.pressedKeys - {key}, s.recording), [], Ok(()))
  {
  }

  /**
   * Toggle mode, press: when the pressed set then equals the chord,
   * `recording` flips and the recorder is started if it is now on and
   * stopped if it is now off; otherwise `recording` stays and nothing is
   * called.
   */
  lemma TogglePress(cfg: ActivationConfig, s: State, key: Key, err: Option<string>)
    ensures var o := ToggleStep(cfg, s, KeyPress(key), err);
            var pressed := s.pressedKeys + ({key} * cfg.keys);
            && o.state.pressedKeys == pressed
            && (pressed == cfg.keys ==>
                  && o.state.recording == !s.recording
                  && o.effects == (if o.state.recording then NotifyIf(cfg, START_LISTENING, []) + [StartRecording]
                                   else NotifyIf(cfg, STOP_LISTENING, []) + [StopRecording])
                  && o.result == Called(err))
            && (pressed != cfg.keys ==> o.state.recording == s.recording && o.effects == [] && o.result == Ok(()))
  {
  }

  /** Hold mode, press: completing the chord starts recording if and only if it was off. */
  lemma HoldPress(cfg: ActivationConfig, s: State, key: Key, err: Option<string>)
    ensures var o := HoldStep(cfg, s, KeyPress(key), err);
            var pressed := s.pressedKeys + ({key} * cfg.keys);
            && o.state.pressedKeys == pressed
            && (o.effects == [StartRecording] <==> pressed == cfg.keys && !s.recording)
            && (o.effects == [StartRecording] ==> o.state.recording && o.result == Called(err))
            && (o.effects != [StartRecording] ==> o.effects == [] && o.state.recording == s.recording && o.result == Ok(()))
  {
  }

  /** Hold mode, release: breaking the chord while recording stops it, exactly once. */
  lemma HoldRelease(cfg: ActivationConfig, s: State, key: Key, err: Option<string>)
    ensures var o := HoldStep(cfg, s, KeyRelease(key), err);
            var pressed := s.pressedKeys - {key};
            && o.state.pressedKeys == pressed
            && (o.effects == [StopRecording] <==> s.recording && pressed != cfg.keys)
            && (o.effects == [StopRecording] ==> !o.state.recording && o.result == Called(err))
            && (o.effects != [StopRecording] ==> o.effects == [] && o.state.recording == s.recording && o.result == Ok(()))
  {
  }

  /** A session of events, with a recorder that never fails: the final state and every effect in order. */
  function Run(cfg: ActivationConfig, s: State, events: seq<EventType>): (r: (State, seq<Effect>))
    ensures |r.1| <= 2 * |events|
    decreases |events|
  {
    if |events| == 0 then (s, [])
    else
      var o := EventStep(cfg, s, events[0], None);
      var rest := Run(cfg, o.state, events[1..]);
      (rest.0, o.effects + rest.1)
  }

  /** The pressed set never holds a key outside the chord. */
  lemma {:induction false} RunKeepsPressedInChord(cfg: ActivationConfig, s: State, events: seq<EventType>)
    requires s.pressedKeys <= cfg.keys
    ensures Run(cfg, s, events).0.pressedKeys <= cfg.keys
    decreases |events|
  {
    if |events| > 0 {
      var o := EventStep(cfg, s, events[0], None);
      PressedKeysUpdate(cfg, s, events[0], None);
      RunKeepsPressedInChord(cfg, o.state, events[1..]);
    }
  }

  /** The recorder calls among the effects. */
  function RecorderCalls(effects: seq<Effect>): (r: seq<Effect>)
    ensures forall i :: 0 <= i < |r| ==> r[i] == StartRecording || r[i] == StopRecording
    ensures |r| <= |effects|
    decreases |effects|
  {
    if |effects| == 0 then []
    else (if effects[0] == StartRecording || effects[0] == StopRecording then [effects[0]] else [])
         + RecorderCalls(effects[1..])
  }

  lemma {:induction false} RecorderCallsAppend(a: seq<Effect>, b: seq<Effect>)
    ensures RecorderCalls(a + b) == RecorderCalls(a) + RecorderCalls(b)
    decreases |a|
  {
    if |a| == 0 {
      assert a + b == b;
    } else {
      assert (a + b)[1..] == a[1..] + b;
      RecorderCallsAppend(a[1..], b);
    }
  }

  /** Calls that alternate start, stop, start, ..., beginning with the one the flag `recording` allows. */
  predicate Alternates(calls: seq<Effect>, recording: bool)
    decreases |calls|
  {
    |calls| == 0 ||
    (calls[0] == (if recording then StopRecording else StartRecording) && Alternates(calls[1..], !recording))
  }

  /** The recorder calls of a step that calls the recorder after an optional notification. */
  lemma CallsAfterNotify(cfg: ActivationConfig, text: seq<u8>, call: Effect)
    requires call == StartRecording || call == StopRecording
    ensures RecorderCalls(NotifyIf(cfg, text, []) + [call]) == [call]
  {
    assert RecorderCalls([call]) == [call];
    if cfg.notify {
      var n := [Notify(text, [])];
      assert RecorderCalls(n) == [];
      RecorderCallsAppend(n, [call]);
    } else {
      assert NotifyIf(cfg, text, []) + [call] == [call];
    }
  }

  /** The possible recorder calls of one event: none and the flag stays, or a start when off, or a stop when on. */
  predicate OneCallAtMost(s: State, o: Outcome) {
    || (RecorderCalls(o.effects) == [] && o.state.recording == s.recording)
    || (RecorderCalls(o.effects) == [StartRecording] && !s.recording && o.state.recording)
    || (RecorderCalls(o.effects) == [StopRecording] && s.recording && !o.state.recording)
  }

  lemma ToggleStepCalls(cfg: ActivationConfig, s: State, e: EventType)
    ensures OneCallAtMost(s, ToggleStep(cfg, s, e, None))
  {
    if e.KeyPress? {
      CallsAfterNotify(cfg, START_LISTENING, StartRecording);
      CallsAfterNotify(cfg, STOP_LISTENING, StopRecording);
    }
  }

  lemma HoldStepCalls(cfg: ActivationConfig, s: State, e: EventType)
    ensures OneCallAtMost(s, HoldStep(cfg, s, e, None))
  {
    assert RecorderCalls([StartRecording]) == [StartRecording];
    assert RecorderCalls([StopRecording]) == [StopRecording];
  }

  /** One event calls the recorder at most once: start only when off, stop only when on, and the flag follows. */
  lemma StepCalls(cfg: ActivationConfig, s: State, e: EventType)
    ensures OneCallAtMost(s, EventStep(cfg, s, e, None))
  {
    if cfg.trigger.PushToTalk? {
      HoldStepCalls(cfg, s, e);
    } else {
      ToggleStepCalls(cfg, s, e);
    }
  }

  /** Putting at most one call that the flag allows in front of alternating calls keeps them alternating. */
  lemma PrependCall(c: seq<Effect>, tail: seq<Effect>, before: bool, after: bool, final: bool)
    requires || (c == [] && after == before)
             || (c == [StartRecording] && !before && after)
             || (c == [StopRecording] && before && !after)
    requires Alternates(tail, after) && final == (after != (|tail| % 2 == 1))
    ensures Alternates(c + tail, before) && final == (before != (|c + tail| % 2 == 1))
  {
    if c == [] {
      assert c + tail == tail;
    } else {
      assert (c + tail)[1..] == tail;
    }
  }

  /**
   * In either mode the recorder is never started twice or stopped twice in
   * a row, and the flag is on exactly when an odd number of calls has
   * changed it.
   */
  lemma {:induction false} RunCallsAlternate(cfg: ActivationConfig, s: State, events: seq<EventType>)
    ensures var r := Run(cfg, s, events);
            && Alternates(RecorderCalls(r.1), s.recording)
            && r.0.recording == (s.recording != (|RecorderCalls(r.1)| % 2 == 1))
    decreases |events|
  {
    if |events| > 0 {
      var o := EventStep(cfg, s, events[0], None);
      var rest := Run(cfg, o.state, events[1..]);
      assert Run(cfg, s, events) == (rest.0, o.effects + rest.1);
      StepCalls(cfg, s, events[0]);
      RunCallsAlternate(cfg, o.state, events[1..]);
      RecorderCallsAppend(o.effects, rest.1);
      PrependCall(RecorderCalls(o.effects), RecorderCalls(rest.1), s.recording, o.state.recording, rest.0.recording);
    }
  }

  /** Hold mode's invariant: the pressed keys are part of the chord, and recording is on exactly while all of it is held. */
  predicate HoldInvariant(cfg: ActivationConfig, s: State) {
    s.pressedKeys <= cfg.keys && (s.recording <==> s.pressedKeys == cfg.keys)
  }

  /** A fresh state satisfies the invariant unless the chord is empty. */
  lemma InitialHoldInvariant(cfg: ActivationConfig)
    ensures HoldInvariant(cfg, State({}, false)) <==> cfg.keys != {}
  {
  }

  lemma HoldStepKeepsInvariant(cfg: ActivationConfig, s: State, e: EventType, err: Option<string>)
    requires HoldInvariant(cfg, s)
    ensures HoldInvariant(cfg, HoldStep(cfg, s, e, err).state)
  {
    match e
    case KeyPress(key) =>
      var pressed := s.pressedKeys + ({key} * cfg.keys);
      if pressed != cfg.keys {
        assert s.pressedKeys <= pressed;
      }
    case KeyRelease(key) =>
      var pressed := s.pressedKeys - {key};
      if !s.recording {
        assert pressed <= s.pressedKeys;
      }
    case _ =>
  }

  /** Push-to-talk records exactly while the whole chord is held down, over any session. */
  lemma {:induction false} HoldRunKeepsInvariant(cfg: ActivationConfig, s: State, events: seq<EventType>)
    requires cfg.trigger == PushToTalk && HoldInvariant(cfg, s)
    ensures HoldInvariant(cfg, Run(cfg, s, events).0)
    decreases |events|
  {
    if |events| > 0 {
      var o := EventStep(cfg, s, events[0], None);
      HoldStepKeepsInvariant(cfg, s, events[0], None);
      HoldRunKeepsInvariant(cfg, o.state, events[1..]);
    }
  }

  /** A session is its first event followed by the rest of it. */
  lemma RunCons(cfg: ActivationConfig, s: State, e: EventType, events: seq<EventType>,
                next: State, effects: seq<Effect>, final: State, later: seq<Effect>)
    requires EventStep(cfg, s, e, None).state == next && EventStep(cfg, s, e, None).effects == effects
    requires Run(cfg, next, events).0 == final && Run(cfg, next, events).1 == later
    ensures Run(cfg, s, [e] + events).0 == final
    ensures Run(cfg, s, [e] + events).1 == effects + later
  {
    assert ([e] + events)[0] == e && ([e] + events)[1..] == events;
  }

  /** The six events of the default push-to-talk session, one at a time. */
  lemma PushToTalkSessionSteps()
    ensures var cfg := DefaultActivationConfig();
            && EventStep(cfg, State({}, false), KeyPress(KeyA), None).state == State({}, false)
            && EventStep(cfg, State({}, false), KeyPress(KeyA), None).effects == []
            && EventStep(cfg, State({}, false), KeyPress(ControlLeft), None).state == State({ControlLeft}, false)
            && EventStep(cfg, State({}, false), KeyPress(ControlLeft), None).effects == []
            && EventStep(cfg, State({ControlLeft}, false), KeyPress(Space), None).state
               == State({ControlLeft, Space}, true)
            && EventStep(cfg, State({ControlLeft}, false), KeyPress(Space), None).effects == [StartRecording]
            && EventStep(cfg, State({ControlLeft, Space}, true), KeyPress(Space), None).state
               == State({ControlLeft, Space}, true)
            && EventStep(cfg, State({ControlLeft, Space}, true), KeyPress(Space), None).effects == []
            && EventStep(cfg, State({ControlLeft, Space}, true), KeyRelease(Space), None).state
               == State({ControlLeft}, false)
            && EventStep(cfg, State({ControlLeft, Space}, true), KeyRelease(Space), None).effects == [StopRecording]
            && EventStep(cfg, State({ControlLeft}, false), KeyRelease(ControlLeft), None).state == State({}, false)
            && EventStep(cfg, State({ControlLeft}, false), KeyRelease(ControlLeft), None).effects == []
  {
    var cfg := DefaultActivationConfig();
    assert {ControlLeft} != cfg.keys;
    assert {ControlLeft, Space} - {Space} == {ControlLeft};
    assert {ControlLeft} - {ControlLeft} == {};
  }

  /** The default chord Ctrl+Space in hold mode: pressing both starts, releasing Space stops, other keys are ignored. */
  lemma DefaultPushToTalkSession()
    ensures var cfg := DefaultActivationConfig();
            var events := [KeyPress(KeyA), KeyPress(ControlLeft), KeyPress(Space), KeyPress(Space),
                           KeyRelease(Space), KeyRelease(ControlLeft)];
            var r := Run(cfg, State({}, false), events);
            r.0 == State({}, false) && r.1 == [StartRecording, StopRecording]
  {
    var cfg := DefaultActivationConfig();
    var s0 := State({}, false);
    var s1 := State({ControlLeft}, false);
    var s2 := State({ControlLeft, Space}, true);
    PushToTalkSessionSteps();
    var e5 := [KeyRelease(ControlLeft)];
    var e4 := [KeyRelease(Space)] + e5;
    var e3 := [KeyPress(Space)] + e4;
    var e2 := [KeyPress(Space)] + e3;
    var e1 := [KeyPress(ControlLeft)] + e2;
    var e0 := [KeyPress(KeyA)] + e1;
    assert e0 == [KeyPress(KeyA), KeyPress(ControlLeft), KeyPress(Space), KeyPress(Space),
                  KeyRelease(Space), KeyRelease(ControlLeft)];
    var stop: seq<Effect> := [StopRecording];
    var both: seq<Effect> := [StartRecording, StopRecording];
    assert [] + stop == stop && stop + [] == stop && [StartRecording] + stop == both && [] + both == both;
    RunCons(cfg, s1, KeyRelease(ControlLeft), [], s0, [], s0, []);
    RunCons(cfg, s2, KeyRelease(Space), e5, s1, stop, s0, []);
    RunCons(cfg, s2, KeyPress(Space), e4, s2, [], s0, stop);
    RunCons(cfg, s1, KeyPress(Space), e3, s2, [StartRecording], s0, stop);
    RunCons(cfg, s0, KeyPress(ControlLeft), e2, s1, [], s0, both);
    RunCons(cfg, s0, KeyPress(KeyA), e1, s0, [], s0, both);
  }

  /**
   * The chord Ctrl+Space pressed and released once in toggle mode flips
   * listening, with its notification, whatever the session does next.
   */
  lemma ToggleChordThen(recording: bool, rest: seq<EventType>)
    ensures var cfg := DefaultActivationConfig().(trigger := DefaultToggleVad());
            var chord := [KeyPress(ControlLeft), KeyPress(Space), KeyRelease(Space), KeyRelease(ControlLeft)];
            var r := Run(cfg, State({}, recording), chord + rest);
            var after := Run(cfg, State({}, !recording), rest);
            && r.0 == after.0
            && r.1 == (if recording then [Notify(STOP_LISTENING, []), StopRecording]
                       else [Notify(START_LISTENING, []), StartRecording]) + after.1
  {
    var cfg := DefaultActivationConfig().(trigger := DefaultToggleVad());
    var s0 := State({}, recording);
    var s1 := State({ControlLeft}, recording);
    var s2 := State({ControlLeft, Space}, !recording);
    var s3 := State({ControlLeft}, !recording);
    var s4 := State({}, !recording);
    var flip := if recording then [Notify(STOP_LISTENING, []), StopRecording]
                else [Notify(START_LISTENING, []), StartRecording];
    var after := Run(cfg, s4, rest);
    ToggleChordSteps(recording);
    var e3 := [KeyRelease(ControlLeft)] + rest;
    var e2 := [KeyRelease(Space)] + e3;
    var e1 := [KeyPress(Space)] + e2;
    var e0 := [KeyPress(ControlLeft)] + e1;
    assert e0 == [KeyPress(ControlLeft), KeyPress(Space), KeyRelease(Space), KeyRelease(ControlLeft)] + rest;
    assert [] + after.1 == after.1 && [] + (flip + after.1) == flip + after.1;
    RunCons(cfg, s3, KeyRelease(ControlLeft), rest, s4, [], after.0, after.1);
    RunCons(cfg, s2, KeyRelease(Space), e3, s3, [], after.0, after.1);
    RunCons(cfg, s1, KeyPress(Space), e2, s2, flip, after.0, after.1);
    RunCons(cfg, s0, KeyPress(ControlLeft), e1, s1, [], after.0, flip + after.1);
  }

  /** The four events of the Ctrl+Space chord in toggle mode, one at a time. */
  lemma ToggleChordSteps(recording: bool)
    ensures var cfg := DefaultActivationConfig().(trigger := DefaultToggleVad());
            var flip := if recording then [Notify(STOP_LISTENING, []), StopRecording]
                        else [Notify(START_LISTENING, []), StartRecording];
            && EventStep(cfg, State({}, recording), KeyPress(ControlLeft), None).state == State({ControlLeft}, recording)
            && EventStep(cfg, State({}, recording), KeyPress(ControlLeft), None).effects == []
            && EventStep(cfg, State({ControlLeft}, recording), KeyPress(Space), None).state
               == State({ControlLeft, Space}, !recording)
            && EventStep(cfg, State({ControlLeft}, recording), KeyPress(Space), None).effects == flip
            && EventStep(cfg, State({ControlLeft, Space}, !recording), KeyRelease(Space), None).state
               == State({ControlLeft}, !recording)
            && EventStep(cfg, State({ControlLeft, Space}, !recording), KeyRelease(Space), None).effects == []
            && EventStep(cfg, State({ControlLeft}, !recording), KeyRelease(ControlLeft), None).state
               == State({}, !recording)
            && EventStep(cfg, State({ControlLeft}, !recording), KeyRelease(ControlLeft), None).effects == []
  {
    var cfg := DefaultActivationConfig().(trigger := DefaultToggleVad());
    assert {ControlLeft} != cfg.keys;
    assert {ControlLeft, Space} - {Space} == {ControlLeft};
    assert {ControlLeft} - {ControlLeft} == {};
  }

  /** The same chord in toggle mode: the first completed chord starts listening, the second stops it. */
  lemma DefaultToggleSession()
    ensures var cfg := DefaultActivationConfig().(trigger := DefaultToggleVad());
            var chord := [KeyPress(ControlLeft), KeyPress(Space), KeyRelease(Space), KeyRelease(ControlLeft)];
            var r := Run(cfg, State({}, false), chord + chord);
            && r.0 == State({}, false)
            && r.1 == [Notify(START_LISTENING, []), StartRecording, Notify(STOP_LISTENING, []), StopRecording]
  {
    var chord := [KeyPress(ControlLeft), KeyPress(Space), KeyRelease(Space), KeyRelease(ControlLeft)];
    ToggleChordThen(false, chord);
    ToggleChordThen(true, []);
    assert chord + [] == chord;
  }

  /**
   * The transcript that shows the summary expression panicking: nineteen
   * ASCII letters and a two-byte `é` form valid UTF-8 of 21 bytes whose
   * byte 20 is a continuation byte.
   */
  lemma SummaryAsWrittenPanics()
    ensures var output := seq(19, _ => 97) + [0xC3, 0xA9];
            ValidUtf8(output) && |output| == 21 && SummaryAsWritten(output).None?
  {
    var ascii: seq<u8> := seq(19, _ => 97);
    var e_acute: seq<u8> := [0xC3, 0xA9];
    AsciiIsValid(ascii);
    assert e_acute[..2] == e_acute && e_acute[2..] == [];
    ConcatIsValid(ascii, e_acute);
    assert (ascii + e_acute)[20] == 0xA9;
  }

  /** The corrected summary of UTF-8 text is UTF-8, at most 22 bytes, and keeps at least 17 bytes of a long output. */
  lemma {:induction false} SummaryIsShortValidText(output: seq<u8>)
    requires ValidUtf8(output)
    ensures ValidUtf8(Summary(output))
    ensures |Summary(output)| <= SUMMARY_LEN + |DOTS|
    ensures |output| > SUMMARY_LEN ==> SUMMARY_LEN - 3 + |DOTS| <= |Summary(output)|
  {
    if |output| > SUMMARY_LEN {
      var k := FloorCharBoundary(output, SUMMARY_LEN);
      FloorWithinThree(output, SUMMARY_LEN);
      BoundaryPrefixIsValid(output, k);
      AsciiIsValid(DOTS);
      ConcatIsValid(output[..k], DOTS);
    }
  }

  /** A failed transcription is returned and does nothing; an empty transcript is only reported, never pasted. */
  lemma TranscriptFailureAndSilence(cfg: ActivationConfig, transcript: Result<seq<u8>, string>)
    ensures var (effects, result) := HandleTranscript(cfg, transcript);
            && (transcript.Err? ==> effects == [] && result == Err(ContextError(ASR_CONTEXT, transcript.error)))
            && (transcript == Ok([]) ==> effects == NotifyIf(cfg, NO_VOICE, []) && result == Ok(()))
  {
  }

  /**
   * A non-empty transcript is pasted exactly once, whole, after its
   * summary is notified; Return is pressed and released after it if and
   * only if auto-send is on.
   */
  lemma TranscriptPasted(cfg: ActivationConfig, output: seq<u8>)
    requires |output| > 0
    ensures var (effects, result) := HandleTranscript(cfg, Ok(output));
            var p := if cfg.notify then 1 else 0;
            && result == Ok(())
            && |effects| > p && effects[p] == Paste(output)
            && (cfg.notify ==> effects[0] == Notify(Summary(output), output))
            && (forall i :: 0 <= i < |effects| && i != p ==> !effects[i].Paste?)
            && (cfg.autosend <==> effects[p + 1..] == [PressKey(Return), ReleaseKey(Return)])
            && (!cfg.autosend ==> effects[p + 1..] == [])
  {
  }
}
