/**
 * The voice input component: press to record, release to transcribe, cancel to
 * discard. Microphone permission, the audio recorder and the transcription
 * service are outside the model; what they answer is a parameter of the handler
 * that awaits them. Calls to the `onTranscription` and `onError` callbacks are
 * recorded, in order, in `notices`.
 */
module Voice {
  import opened Wrappers
  import opened Text

  datatype RecordingState = Idle | Recording | Processing

  /** One call to a callback: `onTranscription(text)` or `onError(message)`. */
  datatype Notice = Transcribed(text: string) | Failed(message: string)

  /** What the permission request and the recorder set-up in `startRecording` come to. */
  datatype StartOutcome = PermissionDenied | StartThrew | Started

  /** A thrown value: an `Error` with its message, or anything else. */
  datatype Thrown = ErrorValue(message: string) | OtherValue

  /**
   * What the awaited steps of `stopRecording` come to: stopping the recorder
   * throws; it yields no file URI; the transcription throws; or it answers with
   * a (possibly missing) text.
   */
  datatype StopOutcome =
    | UnloadThrew(e: Thrown)
    | NoUri
    | TranscriptionThrew(e: Thrown)
    | TranscriptionDone(text: Option<string>)

  const DefaultPlaceholder: string := "Tieni premuto per parlare"
  const PermissionDeniedMessage: string := "Permesso microfono negato"
  const StartFailedMessage: string := "Impossibile avviare la registrazione"
  const NoTextMessage: string := "Nessun testo riconosciuto. Riprova parlando più chiaramente."
  const NoAudioFileMessage: string := "Nessun file audio creato"
  const UnknownErrorMessage: string := "Errore sconosciuto"
  const RecordingPrefix: string := "Registrazione... "
  const ProcessingText: string := "Trascrizione in corso..."

  /** `error instanceof Error ? error.message : 'Errore sconosciuto'`. */
  function ThrownMessage(e: Thrown): (m: string)
    ensures e.ErrorValue? ==> m == e.message
    ensures e.OtherValue? ==> m == UnknownErrorMessage
  {
    match e
    case ErrorValue(m) => m
    case OtherValue => UnknownErrorMessage
  }

  /**
   * The one callback an effective `stopRecording` calls: the trimmed text when
   * the transcription has non-blank text, an error message otherwise.
   */
  function StopNotice(o: StopOutcome): (n: Notice)
    ensures n.Transcribed? <==> o.TranscriptionDone? && o.text.Some? && !AllSpace(o.text.value)
    ensures n.Transcribed? ==> n.text == Trim(o.text.value) && n.text != "" && Trim(n.text) == n.text
    ensures o.TranscriptionDone? && !n.Transcribed? ==> n == Failed(NoTextMessage)
    ensures o.NoUri? ==> n == Failed(NoAudioFileMessage)
    ensures (o.UnloadThrew? || o.TranscriptionThrew?) ==> n == Failed(ThrownMessage(o.e))
  {
    match o
    case UnloadThrew(e) => Failed(ThrownMessage(e))
    case NoUri => Failed(NoAudioFileMessage)
    case TranscriptionThrew(e) => Failed(ThrownMessage(e))
    case TranscriptionDone(text) =>
      if text.Some? && Trim(text.value) != "" then
        TrimIdempotent(text.value);
        TrimEmptyIff(text.value);
        Transcribed(Trim(text.value))
      else
        assert text.Some? ==> AllSpace(text.value) by {
          if text.Some? { TrimEmptyIff(text.value); }
        }
        Failed(NoTextMessage)
  }

  /**
   * `formatDuration(seconds)`: the minutes in decimal, a colon, and the seconds
   * padded to two digits; read back, the two parts give `seconds` again.
   */
  function FormatDuration(seconds: nat): (r: string)
    ensures |r| >= 4 && r[|r| - 3] == ':'
    ensures AllDigits(r[..|r| - 3]) && AllDigits(r[|r| - 2..])
    ensures DigitsValue(r[|r| - 2..]) < 60
    ensures DigitsValue(r[..|r| - 3]) * 60 + DigitsValue(r[|r| - 2..]) == seconds
  {
    var mins := NatToString(seconds / 60);
    var secs := PadTwo(seconds % 60);
    NatToStringRoundTrip(seconds / 60);
    var r := mins + ":" + secs;
    assert r[..|r| - 3] == mins;
    assert r[|r| - 2..] == secs;
    r
  }

  /** Distinct durations are rendered differently. */
  lemma FormatDurationInjective(a: nat, b: nat)
    requires FormatDuration(a) == FormatDuration(b)
    ensures a == b
  {
  }

  /** The state an icon stands for, read from its first character. */
  function IconState(icon: string): Option<RecordingState> {
    if icon == [] then None
    else if icon[0] == '\U{1F534}' then Some(Recording)
    else if icon[0] == '\U{23F3}' then Some(Processing)
    else if icon[0] == '\U{1F399}' then Some(Idle)
    else None
  }

  /** `getStateIcon`: an icon from which the state can be read back. */
  function StateIcon(s: RecordingState): (icon: string)
    ensures IconState(icon) == Some(s)
  {
    match s
    case Recording => "\U{1F534}"
    case Processing => "\U{23F3}"
    case Idle => "\U{1F399}\U{FE0F}"
  }

  /** `getStateText`: the placeholder when idle, the running duration while recording. */
  function StateText(s: RecordingState, duration: nat, placeholder: string): (text: string)
    ensures s == Idle ==> text == placeholder
    ensures s == Processing ==> text == ProcessingText
    ensures s == Recording ==>
              && |text| > |RecordingPrefix| && text[..|RecordingPrefix|] == RecordingPrefix
              && text[|RecordingPrefix|..] == FormatDuration(duration)
  {
    match s
    case Recording => RecordingPrefix + FormatDuration(duration)
    case Processing => ProcessingText
    case Idle => placeholder
  }

  /** Each state has its own icon. */
  lemma StateIconsDistinct(s: RecordingState, t: RecordingState)
    ensures StateIcon(s) == StateIcon(t) <==> s == t
  {
    if s != t {
      assert StateIcon(s)[0] != StateIcon(t)[0];
    }
  }

  /** While recording, the status line shows the elapsed time, from which the duration can be read back. */
  lemma RecordingTextShowsDuration(d1: nat, d2: nat, placeholder: string)
    ensures StateText(Recording, d1, placeholder)[|RecordingPrefix|..] == FormatDuration(d1)
    ensures StateText(Recording, d1, placeholder) == StateText(Recording, d2, placeholder) ==> d1 == d2
  {
    var t1, t2 := StateText(Recording, d1, placeholder), StateText(Recording, d2, placeholder);
    assert t1[|RecordingPrefix|..] == FormatDuration(d1);
    assert t2[|RecordingPrefix|..] == FormatDuration(d2);
  }

  class VoiceInput {
    const disabled: bool
    /** Whether the optional `onError` callback was supplied (`onError?.(...)`). */
    const hasOnError: bool
    const placeholder: string

    var state: RecordingState
    var duration: nat
    /** `recording.current !== null`. */
    var hasRecording: bool
    /** `durationInterval.current !== null`: the one-second timer is running. */
    var timerRunning: bool
    var notices: seq<Notice>

    /**
     * Between handlers the component is idle or recording, the timer runs exactly
     * while recording, a recording exists while recording, and an idle component
     * shows a zero duration.
     */
    ghost predicate Valid()
      reads this
    {
      && state != Processing
      && (timerRunning <==> state == Recording)
      && (state == Recording ==> hasRecording)
      && (state == Idle ==> duration == 0)
    }

    /** The callback calls one notice makes: errors reach no one without `onError`. */
    function Reported(n: Notice): (r: seq<Notice>)
      ensures r == [] || r == [n]
      ensures r == [] <==> n.Failed? && !hasOnError
    {
      if n.Failed? && !hasOnError then [] else [n]
    }

    constructor (disabled: bool, hasOnError: bool, placeholder: Option<string>)
      ensures Valid() && this.disabled == disabled && this.hasOnError == hasOnError
      ensures this.placeholder == placeholder.GetOr(DefaultPlaceholder)
      ensures state == Idle && duration == 0 && !hasRecording && notices == []
    {
      this.disabled := disabled;
      this.hasOnError := hasOnError;
      this.placeholder := placeholder.GetOr(DefaultPlaceholder);
      state := Idle;
      duration := 0;
      hasRecording := false;
      timerRunning := false;
      notices := [];
    }

    /** `startRecording`: only an enabled, idle component starts; a denial or a failure reports one error. */
    method StartRecording(outcome: StartOutcome)
      requires Valid()
      modifies this
      ensures Valid()
      ensures disabled || old(state) != Idle ==>
                && state == old(state) && duration == old(duration) && hasRecording == old(hasRecording)
                && timerRunning == old(timerRunning) && notices == old(notices)
      ensures !disabled && old(state) == Idle && outcome.Started? ==>
                state == Recording && duration == 0 && hasRecording && timerRunning && notices == old(notices)
      ensures !disabled && old(state) == Idle && outcome.PermissionDenied? ==>
                && state == Idle && hasRecording == old(hasRecording)
                && notices == old(notices) + Reported(Failed(PermissionDeniedMessage))
      ensures !disabled && old(state) == Idle && outcome.StartThrew? ==>
                && state == Idle && hasRecording == old(hasRecording)
                && notices == old(notices) + Reported(Failed(StartFailedMessage))
    {
      if disabled || state != Idle {
        return;
      }
      match outcome
      case PermissionDenied =>
        notices := notices + Reported(Failed(PermissionDeniedMessage));
      case StartThrew =>
        notices := notices + Reported(Failed(StartFailedMessage));
      case Started =>
        hasRecording := true;
        state := Recording;
        duration := 0;
        timerRunning := true;
    }

    /** One firing of the one-second timer. */
    method Tick()
      requires Valid() && timerRunning
      modifies this`duration
      ensures Valid() && duration == old(duration) + 1
    {
      duration := duration + 1;
    }

    /**
     * `stopRecording`: only acts on a recording in progress. It stops the timer,
     * shows `processing` while the recorder stops and the audio is transcribed,
     * makes exactly one callback call (when there is a callback to call), and
     * always ends idle with a zero duration. The recording is released unless
     * stopping the recorder threw.
     */
    method StopRecording(outcome: StopOutcome)
      requires Valid()
      modifies this
      ensures Valid()
      ensures !old(hasRecording) || old(state) != Recording ==>
                && state == old(state) && duration == old(duration) && hasRecording == old(hasRecording)
                && timerRunning == old(timerRunning) && notices == old(notices)
      ensures old(hasRecording) && old(state) == Recording ==>
                && state == Idle && duration == 0 && !timerRunning
                && hasRecording == outcome.UnloadThrew?
                && notices == old(notices) + Reported(StopNotice(outcome))
    {
      if !hasRecording || state != Recording {
        return;
      }
      timerRunning := false;
      state := Processing;
      if !outcome.UnloadThrew? {
        hasRecording := false;
      }
      notices := notices + Reported(StopNotice(outcome));
      state := Idle;
      duration := 0;
    }

    /**
     * `cancelRecording`: acts whenever a recording exists, in any state. It stops
     * the timer, releases the recording unless stopping the recorder threw (that
     * error is only logged), and ends idle with a zero duration.
     */
    method CancelRecording(unloadThrows: bool)
      requires Valid()
      modifies this
      ensures Valid() && notices == old(notices)
      ensures !old(hasRecording) ==>
                state == old(state) && duration == old(duration) && timerRunning == old(timerRunning) && !hasRecording
      ensures old(hasRecording) ==>
                state == Idle && duration == 0 && !timerRunning && hasRecording == unloadThrows
    {
      if !hasRecording {
        return;
      }
      timerRunning := false;
      if !unloadThrows {
        hasRecording := false;
      }
      state := Idle;
      duration := 0;
    }
  }
}
