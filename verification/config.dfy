/**
 * The pure part of the configuration (src/config.rs): the sample formats and
 * their widths, the audio and activation defaults, and the text a prompt
 * setting hands to the transcription model.
 */
module Config {
  import opened Common
  import Keyboard
  import Vad

  /** The sample formats a recording may be configured with. */
  datatype SampleFormat = F32 | I16

  /** The sample formats of the audio device layer. */
  datatype DeviceSampleFormat = I8 | I16 | I32 | I64 | U8 | U16 | U32 | U64 | F32 | F64

  /** Bytes per sample of each device format. */
  function DeviceSampleSize(f: DeviceSampleFormat): nat {
    match f
    case I8 | U8 => 1
    case I16 | U16 => 2
    case I32 | U32 | F32 => 4
    case I64 | U64 | F64 => 8
  }

  /** Whether a device format holds floating-point samples. */
  predicate IsFloat(f: DeviceSampleFormat) {
    f == DeviceSampleFormat.F32 || f == DeviceSampleFormat.F64
  }

  function BitsPerSample(f: SampleFormat): (bits: u16)
    ensures bits == 8 * DeviceSampleSize(ToDevice(f))
  {
    match f
    case F32 => 32
    case I16 => 16
  }

  /** The configured format as the device layer names it. */
  function ToDevice(f: SampleFormat): (d: DeviceSampleFormat)
    ensures IsFloat(d) <==> f == SampleFormat.F32
    ensures FromDevice(d) == Some(f)
  {
    match f
    case I16 => DeviceSampleFormat.I16
    case F32 => DeviceSampleFormat.F32
  }

  /** The configured format a device format corresponds to, if any. */
  function FromDevice(d: DeviceSampleFormat): Option<SampleFormat> {
    match d
    case I16 => Some(SampleFormat.I16)
    case F32 => Some(SampleFormat.F32)
    case _ => None
  }

  /** Distinct configured formats are distinct device formats. */
  lemma ToDeviceInjective(f: SampleFormat, g: SampleFormat)
    requires ToDevice(f) == ToDevice(g)
    ensures f == g
  {
    assert FromDevice(ToDevice(f)) == Some(f);
  }

  /** The audio section: channels, rate in Hz, sample format and an optional device name. */
  datatype AudioConfig = AudioConfig(channels: u16, sampleRate: u32, sampleFormat: SampleFormat,
                                     device: Option<string>)

  /** Mono, 16 kHz, 32-bit float, the default device: exactly the format the VAD pipeline works in. */
  function DefaultAudioConfig(): (c: AudioConfig)
    ensures c.channels == 1 && c.sampleRate == Vad.SAMPLE_RATE
    ensures BitsPerSample(c.sampleFormat) == 32 && IsFloat(ToDevice(c.sampleFormat))
    ensures c.device.None?
  {
    AudioConfig(1, 16000, SampleFormat.F32, None)
  }

  /** How recording is started and stopped. */
  datatype Trigger =
    | PushToTalk
    | ToggleVad(threshold: real, silenceDuration: real, speechDuration: real, preBufferDuration: real)

  /** A `toggle_vad` trigger with every optional field left out. */
  function DefaultToggleVad(): (t: Trigger)
    ensures t.ToggleVad?
    ensures t.threshold == 0.5 && t.silenceDuration == 2.0
    ensures t.speechDuration == 1.0 && t.preBufferDuration == 1.0
  {
    ToggleVad(0.5, 2.0, 1.0, 1.0)
  }

  /** The activation section: the trigger, notification and auto-send switches, and the chord. */
  datatype ActivationConfig = ActivationConfig(trigger: Trigger, notify: bool, autosend: bool,
                                               keys: set<Keyboard.Key>)

  function DefaultActivationConfig(): (c: ActivationConfig)
    ensures c.trigger == PushToTalk && c.notify && !c.autosend
    ensures c.keys == {Keyboard.ControlLeft, Keyboard.Space}
  {
    ActivationConfig(PushToTalk, true, false, {Keyboard.ControlLeft, Keyboard.Space})
  }

  /** The prompt setting; `NoPrompt` is the variant the configuration file calls `none`. */
  datatype PromptType = Vocabulary(vocabulary: seq<string>) | Raw(prompt: string) | NoPrompt

  /** The words with `sep` between each two of them. */
  function Join(words: seq<string>, sep: string): (r: string)
    ensures |words| == 0 ==> r == ""
    ensures |words| == 1 ==> r == words[0]
    decreases |words|
  {
    if |words| == 0 then ""
    else if |words| == 1 then words[0]
    else words[0] + sep + Join(words[1..], sep)
  }

  /** The total length of the words. */
  function TotalLength(words: seq<string>): nat
    decreases |words|
  {
    if |words| == 0 then 0 else |words[0]| + TotalLength(words[1..])
  }

  /** Joining `n` words adds exactly `n - 1` separators. */
  lemma {:induction false} JoinLength(words: seq<string>, sep: string)
    requires |words| > 0
    ensures |Join(words, sep)| == TotalLength(words) + (|words| - 1) * |sep|
    decreases |words|
  {
    if |words| > 1 {
      JoinLength(words[1..], sep);
    }
  }

  /** Joining a longer list extends the joined text by one separator and the new word. */
  lemma {:induction false} JoinSnoc(words: seq<string>, w: string, sep: string)
    requires |words| > 0
    ensures Join(words + [w], sep) == Join(words, sep) + sep + w
    decreases |words|
  {
    if |words| == 1 {
      assert (words + [w])[1..] == [w];
    } else {
      assert (words + [w])[1..] == words[1..] + [w];
      JoinSnoc(words[1..], w, sep);
    }
  }

  /** Each word sits in the joined text right after the words before it and their separators. */
  lemma {:induction false} JoinPlacesWords(words: seq<string>, sep: string, i: nat)
    requires i < |words|
    ensures var start := TotalLength(words[..i]) + i * |sep|;
            start + |words[i]| <= |Join(words, sep)| &&
            Join(words, sep)[start..start + |words[i]|] == words[i]
    decreases |words|
  {
    if i == 0 {
      assert words[..0] == [];
    } else {
      var rest := Join(words[1..], sep);
      var prefix := words[0] + sep;
      JoinPlacesWords(words[1..], sep, i - 1);
      var start' := TotalLength(words[1..][..i - 1]) + (i - 1) * |sep|;
      assert words[..i][1..] == words[1..][..i - 1];
      assert TotalLength(words[..i]) == |words[0]| + TotalLength(words[1..][..i - 1]);
      assert Join(words, sep) == prefix + rest;
      SliceAfterPrefix(prefix, rest, start', start' + |words[i]|);
    }
  }

  lemma SliceAfterPrefix(p: string, s: string, lo: nat, hi: nat)
    requires lo <= hi <= |s|
    ensures (p + s)[|p| + lo..|p| + hi] == s[lo..hi]
  {
  }

  /** The initial prompt text, if the setting gives one. */
  function GetPromptText(p: PromptType): (r: Option<string>)
    ensures r.Some? <==> p.Raw? || (p.Vocabulary? && |p.vocabulary| > 0)
    ensures p.Raw? ==> r == Some(p.prompt)
    ensures p.Vocabulary? && |p.vocabulary| > 0 ==> r == Some(Join(p.vocabulary, ", "))
    ensures p.Vocabulary? && |p.vocabulary| > 0 ==>
      |r.value| == TotalLength(p.vocabulary) + 2 * (|p.vocabulary| - 1)
  {
    match p
    case Vocabulary(vocabulary) =>
      if |vocabulary| > 0 then
        JoinLength(vocabulary, ", ");
        Some(Join(vocabulary, ", "))
      else None
    case Raw(prompt) => Some(prompt)
    case NoPrompt => None
  }

  /** The cases the configuration tests check. */
  lemma PromptExamples()
    ensures GetPromptText(Vocabulary(["word1", "word2"])) == Some("word1, word2")
    ensures GetPromptText(Vocabulary(["test", "words"])) == Some("test, words")
    ensures GetPromptText(Raw("custom prompt")) == Some("custom prompt")
    ensures GetPromptText(NoPrompt) == None
    ensures GetPromptText(Vocabulary([])) == None
  {
    assert ["word1", "word2"][1..] == ["word2"];
    assert Join(["word1", "word2"], ", ") == "word1" + ", " + "word2" == "word1, word2";
    assert ["test", "words"][1..] == ["words"];
    assert Join(["test", "words"], ", ") == "test" + ", " + "words" == "test, words";
  }
}
