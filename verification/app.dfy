/**
 * The key-trigger controller of src/app.rs: a set of pressed keys and a
 * `recording` flag, updated by every global input event.  With a `ToggleVad`
 * trigger a completed chord flips recording on and off; with `PushToTalk`
 * recording lasts while the chord is held.  The recorder and the desktop are
 * outside the model: their calls are `Effect`s, in the order they happen,
 * and the error the recorder reports, if any, is a parameter.
 */
module App {
  import opened Common
  import opened Keyboard
  import opened Config
  import opened Utf8

  /** The global input events the listener delivers. */
  datatype EventType =
    | KeyPress(key: Key)
    | KeyRelease(key: Key)
    | ButtonPress(button: nat)
    | ButtonRelease(button: nat)
    | MouseMove(x: real, y: real)
    | Wheel(deltaX: int, deltaY: int)

  /** The value of the `State` struct. */
  datatype State = State(pressedKeys: set<Key>, recording: bool)

  /** What the controller asks of the world, in order. */
  datatype Effect =
    | Notify(summary: seq<u8>, body: seq<u8>)
    | StartRecording
    | StopRecording
    | Paste(text: seq<u8>)
    | PressKey(key: Key)
    | ReleaseKey(key: Key)

  /** The state after one event, the effects it caused, and what the handler returns. */
  datatype Outcome = Outcome(state: State, effects: seq<Effect>, result: Result<(), string>)

  /** The bytes of an ASCII string. */
  function Ascii(s: string): (b: seq<u8>)
    ensures |b| == |s|
  {
    seq(|s|, i requires 0 <= i < |s| => (s[i] as int) % 0x100)
  }

  const START_LISTENING: seq<u8> := Ascii("Start listening..")
  const STOP_LISTENING: seq<u8> := Ascii("Stop listening.")
  const NO_VOICE: seq<u8> := Ascii("No voice detected")

  /** What a handler returns after calling the recorder: the recorder's error is propagated. */
  function Called(recorderError: Option<string>): (r: Result<(), string>)
    ensures r.Err? <==> recorderError.Some?
    ensures r.Err? ==> r.error == recorderError.value
  {
    if recorderError.Some? then Err(recorderError.value) else Ok(())
  }

  /** A desktop notification, shown only when notifications are switched on. */
  function NotifyIf(cfg: ActivationConfig, summary: seq<u8>, body: seq<u8>): seq<Effect> {
    if cfg.notify then [Notify(summary, body)] else []
  }

  /** A press adds the key to the pressed set only when it belongs to the chord. */
  function Press(cfg: ActivationConfig, pressed: set<Key>, key: Key): (r: set<Key>)
    ensures r == pressed + ({key} * cfg.keys)
  {
    if key in cfg.keys then pressed + {key} else pressed
  }

  /**
   * Toggle mode: a press that completes the chord flips `recording`, then
   * notifies and starts or stops the recorder according to the new value; a
   * release only forgets the key.
   */
  function ToggleStep(cfg: ActivationConfig, s: State, e: EventType, recorderError: Option<string>): (o: Outcome)
    ensures o.state.recording != s.recording <==> e.KeyPress? && Press(cfg, s.pressedKeys, e.key) == cfg.keys
    ensures o.state.recording == s.recording ==> o.effects == [] && o.result == Ok(())
    ensures o.state.recording != s.recording ==>
              o.effects == NotifyIf(cfg, if o.state.recording then START_LISTENING else STOP_LISTENING, [])
                           + [if o.state.recording then StartRecording else StopRecording]
              && o.result == Called(recorderError)
  {
    match e
    case KeyPress(key) =>
      var pressed := Press(cfg, s.pressedKeys, key);
      if cfg.keys == pressed then
        var recording := !s.recording;
        if recording then
          Outcome(State(pressed, recording), NotifyIf(cfg, START_LISTENING, []) + [StartRecording], Called(recorderError))
        else
          Outcome(State(pressed, recording), NotifyIf(cfg, STOP_LISTENING, []) + [StopRecording], Called(recorderError))
      else
        Outcome(State(pressed, s.recording), [], Ok(()))
    case KeyRelease(key) =>
      Outcome(State(s.pressedKeys - {key}, s.recording), [], Ok(()))
    case _ =>
      Outcome(s, [], Ok(()))
  }

  /**
   * Hold mode: a press that completes the chord starts recording unless it
   * is already on; a release that breaks the chord while recording stops it.
   */
  function HoldStep(cfg: ActivationConfig, s: State, e: EventType, recorderError: Option<string>): (o: Outcome)
    ensures o.state.recording && !s.recording <==>
              !s.recording && e.KeyPress? && Press(cfg, s.pressedKeys, e.key) == cfg.keys
    ensures !o.state.recording && s.recording <==>
              s.recording && e.KeyRelease? && s.pressedKeys - {e.key} != cfg.keys
    ensures o.effects == if o.state.recording == s.recording then []
                         else if o.state.recording then [StartRecording] else [StopRecording]
    ensures o.result == if o.state.recording == s.recording then Ok(()) else Called(recorderError)
  {
    match e
    case KeyPress(key) =>
      var pressed := Press(cfg, s.pressedKeys, key);
      if cfg.keys == pressed && !s.recording then
        Outcome(State(pressed, true), [StartRecording], Called(recorderError))
      else
        Outcome(State(pressed, s.recording), [], Ok(()))
    case KeyRelease(key) =>
      var pressed := s.pressedKeys - {key};
      if s.recording && pressed != cfg.keys then
        Outcome(State(pressed, false), [StopRecording], Called(recorderError))
      else
        Outcome(State(pressed, s.recording), [], Ok(()))
    case _ =>
      Outcome(s, [], Ok(()))
  }

  /** The handler the configured trigger selects. */
  function EventStep(cfg: ActivationConfig, s: State, e: EventType, recorderError: Option<string>): (o: Outcome)
    ensures o.state.pressedKeys == match e
                                   case KeyPress(k) => Press(cfg, s.pressedKeys, k)
                                   case KeyRelease(k) => s.pressedKeys - {k}
                                   case _ => s.pressedKeys
    ensures o.result == if o.state.recording == s.recording then Ok(()) else Called(recorderError)
  {
    match cfg.trigger
    case PushToTalk => HoldStep(cfg, s, e, recorderError)
    case ToggleVad(_, _, _, _) => ToggleStep(cfg, s, e, recorderError)
  }

  /** The part of `App` the event handlers touch: the state and the activation settings. */
  class App {
    var pressedKeys: set<Key>
    var recording: bool
    const config: ActivationConfig

    function Model(): State
      reads this
    {
      State(pressedKeys, recording)
    }

    constructor (config: ActivationConfig)
      ensures Model() == State({}, false) && this.config == config
    {
      pressedKeys := {};
      recording := false;
      this.config := config;
    }

    /** One input event; `recorderError` is what the recorder reports if it is called. */
    method HandleEvent(event: EventType, recorderError: Option<string>)
      returns (effects: seq<Effect>, result: Result<(), string>)
      modifies this
      ensures Outcome(Model(), effects, result) == EventStep(config, old(Model()), event, recorderError)
    {
      match config.trigger
      case PushToTalk =>
        effects, result := HandleEventPushToTalk(event, recorderError);
      case ToggleVad(_, _, _, _) =>
        effects, result := HandleEventVad(event, recorderError);
    }

    method HandleEventVad(event: EventType, recorderError: Option<string>)
      returns (effects: seq<Effect>, result: Result<(), string>)
      modifies this
      ensures Outcome(Model(), effects, result) == ToggleStep(config, old(Model()), event, recorderError)
    {
      effects, result := [], Ok(());
      match event
      case KeyPress(key) =>
        if key in config.keys {
          pressedKeys := pressedKeys + {key};
        }
        var allKeysPressed := config.keys == pressedKeys;
        if allKeysPressed {
          recording := !recording;
          if recording {
            effects := NotifyIf(config, START_LISTENING, []);
            effects := effects + [StartRecording];
            if recorderError.Some? {
              return effects, Err(recorderError.value);
            }
          } else {
            effects := NotifyIf(config, STOP_LISTENING, []);
            effects := effects + [StopRecording];
            if recorderError.Some? {
              return effects, Err(recorderError.value);
            }
          }
        }
      case KeyRelease(key) =>
        pressedKeys := pressedKeys - {key};
      case _ =>
    }

    method HandleEventPushToTalk(event: EventType, recorderError: Option<string>)
      returns (effects: seq<Effect>, result: Result<(), string>)
      modifies this
      ensures Outcome(Model(), effects, result) == HoldStep(config, old(Model()), event, recorderError)
    {
      effects, result := [], Ok(());
      match event
      case KeyPress(key) =>
        if key in config.keys {
          pressedKeys := pressedKeys + {key};
        }
        var allKeysPressed := config.keys == pressedKeys;
        if allKeysPressed && !recording {
          recording := true;
          effects := [StartRecording];
          if recorderError.Some? {
            return effects, Err(recorderError.value);
          }
        }
      case KeyRelease(key) =>
        pressedKeys := pressedKeys - {key};
        if recording && pressedKeys != config.keys {
          recording := false;
          effects := [StopRecording];
          if recorderError.Some? {
            return effects, Err(recorderError.value);
          }
        }
      case _ =>
    }
  }

  /** Number of bytes kept in a notification summary. */
  const SUMMARY_LEN: nat := 20

  const DOTS: seq<u8> := [46, 46]  // ".."

  /**
   * The summary expression as written: the first 20 bytes and `..` for a
   * longer output, the output itself otherwise.  `None` is the panic of
   * slicing a `String` at a byte that is not a character boundary.
   */
  function SummaryAsWritten(output: seq<u8>): (r: Option<seq<u8>>)
    ensures r.None? <==> |output| > SUMMARY_LEN && !IsCharBoundary(output, SUMMARY_LEN)
    ensures r.Some? && |output| > SUMMARY_LEN ==> r.value == output[..SUMMARY_LEN] + DOTS
    ensures |output| <= SUMMARY_LEN ==> r == Some(output)
  {
    if |output| > SUMMARY_LEN then
      if IsCharBoundary(output, SUMMARY_LEN) then Some(output[..SUMMARY_LEN] + DOTS) else None
    else Some(output)
  }

  /**
   * The summary with the cut moved back to the last character boundary at
   * or before byte 20, so that it never panics; it agrees with the
   * expression as written whenever that one does not panic.
   */
  function Summary(output: seq<u8>): (r: seq<u8>)
    ensures |output| <= SUMMARY_LEN ==> r == output
    ensures |output| > SUMMARY_LEN ==>
      var k := |r| - |DOTS|;
      && 0 <= k <= SUMMARY_LEN
      && r == output[..k] + DOTS
      && IsCharBoundary(output, k)
      && forall j :: k < j <= SUMMARY_LEN ==> !IsCharBoundary(output, j)
    ensures SummaryAsWritten(output).Some? ==> r == SummaryAsWritten(output).value
  {
    if |output| > SUMMARY_LEN then output[..FloorCharBoundary(output, SUMMARY_LEN)] + DOTS else output
  }

  /** An error with the context message `anyhow`'s `.context` puts in front of its cause. */
  datatype ContextError = ContextError(context: string, cause: string)

  const ASR_CONTEXT: string := "Error running ASR"

  /**
   * After transcription: a failed transcription is returned as an error
   * with the context "Error running ASR" around it, and no effect; an empty transcript only notifies "No voice detected";
   * otherwise the summary is notified, the text pasted and, with auto-send
   * on, Return pressed and released.
   */
  function HandleTranscript(cfg: ActivationConfig, transcript: Result<seq<u8>, string>)
    : (r: (seq<Effect>, Result<(), ContextError>))
    ensures transcript.Err? ==> r.0 == [] && r.1 == Err(ContextError(ASR_CONTEXT, transcript.error))
    ensures transcript.Ok? ==> r.1 == Ok(())
    ensures forall t :: Paste(t) in r.0 ==> transcript.Ok? && t == transcript.value && |t| > 0
  {
    match transcript
    case Err(e) => ([], Err(ContextError(ASR_CONTEXT, e)))
    case Ok(output) =>
      if |output| == 0 then (NotifyIf(cfg, NO_VOICE, output), Ok(()))
      else
        (NotifyIf(cfg, Summary(output), output) + [Paste(output)]
         + (if cfg.autosend then [PressKey(Return), ReleaseKey(Return)] else []),
         Ok(()))
  }
}
