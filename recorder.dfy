/**
 * The recording widget of `src/components/speech-to-text.tsx`: the
 * recording state machine, the chunk list, the seconds counter and its
 * `m:ss` display. Browser effects (microphone, `MediaRecorder`, timers,
 * toasts, the upload) are events and parameters of the methods.
 */
module SpeechToTextComponent {
  import opened Wrappers
  import opened Strings

  /** `RecordingState`. */
  datatype RecordingState = Idle | RequestingPermission | Recording | Processing

  /** A thrown value: an `Error` with its `name` and `message`, or anything else. */
  datatype Thrown = ErrorValue(name: string, message: string) | OtherValue

  /** A toast notification shown to the user. */
  datatype Toast = ToastError(text: string) | ToastSuccess(text: string) | ToastWarning(text: string)

  /**
   * How the start sequence goes: `getUserMedia`, `new MediaRecorder` and
   * `mediaRecorder.start` all succeed, or the first of them that fails throws.
   */
  datatype StartOutcome =
    | Started
    | MicrophoneThrows(thrown: Thrown)
    | RecorderThrows(thrown: Thrown)
    | StartThrows(thrown: Thrown)

  /** The upload to the speech-to-text route: it throws, or it answers with `response.ok` and the JSON fields. */
  datatype UploadReply =
    | UploadThrows(thrown: Thrown)
    | UploadAnswer(ok: bool, error: Option<string>, transcription: Option<string>)

  /** What `onstop` did with the recording. */
  datatype StopResult = TooLarge | Transcribed(text: string) | TranscriptionFailed(message: string)

  /** `10 * 1024 * 1024`: the largest recording that is uploaded. */
  const MaxBlobSize: nat := 10 * 1024 * 1024

  /** `formatTime(seconds)` for the non-negative counter: minutes, ":", seconds padded to two digits. */
  function FormatTime(seconds: nat): string {
    var mins := seconds / 60;
    var secs := seconds % 60;
    NatToString(mins) + ":" + PadStart2(NatToString(secs))
  }

  /** Reads an `m:ss` display back as a number of seconds. */
  function ParseTime(t: string): Option<nat> {
    var (m, s) := SplitFirst(t, ':');
    if (forall i | 0 <= i < |m| :: IsDigit(m[i])) && (forall i | 0 <= i < |s| :: IsDigit(s[i]))
    then Some(ParseNat(m) * 60 + ParseNat(s))
    else None
  }

  /** The two-digit seconds field reads back as `secs`. */
  lemma SecondsField(secs: nat)
    requires secs < 60
    ensures |PadStart2(NatToString(secs))| == 2
    ensures forall i | 0 <= i < 2 :: IsDigit(PadStart2(NatToString(secs))[i])
    ensures ParseNat(PadStart2(NatToString(secs))) == secs
  {
    ParseNatToString(secs);
    if secs < 10 {
      ParseNatLeadingZero(NatToString(secs));
    } else {
      assert NatToString(secs) == NatToString(secs / 10) + [DigitChar(secs % 10)];
    }
  }

  /**
   * The display is `mins:ss` with exactly two digits after the colon, and
   * reading it back gives the counter: `mins * 60 + secs == seconds`.
   */
  lemma FormatTimeRoundTrip(seconds: nat)
    ensures var (m, s) := SplitFirst(FormatTime(seconds), ':');
            |s| == 2 && ParseTime(FormatTime(seconds)) == Some(seconds)
  {
    var mins, secs := seconds / 60, seconds % 60;
    var m, s := NatToString(mins), PadStart2(NatToString(secs));
    assert ':' !in m;
    assert FormatTime(seconds) == m + [':'] + s;
    SplitFirstAt(m, s, ':');
    SecondsField(secs);
    ParseNatToString(mins);
  }

  /** The toast for a failed start: permission denied, no microphone, another `Error`, or any other value. */
  function StartFailureToast(thrown: Thrown): Toast {
    match thrown
    case ErrorValue(name, message) =>
      if name == "NotAllowedError" then ToastError("Microphone access denied. Please allow microphone access and try again.")
      else if name == "NotFoundError" then ToastError("No microphone found. Please connect a microphone and try again.")
      else ToastError("Failed to start recording: " + message)
    case OtherValue => ToastError("Failed to start recording")
  }

  /** The message a caught upload error shows: an `Error`'s message, otherwise "Failed to transcribe audio". */
  function ThrownMessage(thrown: Thrown): string {
    match thrown
    case ErrorValue(_, message) => message
    case OtherValue => "Failed to transcribe audio"
  }

  /** What an upload that was sent leads to: the transcription (absent or empty counts as ""), or the error thrown and caught. */
  function UploadResult(reply: UploadReply): (r: StopResult)
    ensures r.Transcribed? <==> reply.UploadAnswer? && reply.ok
    ensures reply.UploadAnswer? && !reply.ok ==>
              r == TranscriptionFailed(if reply.error.None? || reply.error.value == "" then "Failed to transcribe audio" else reply.error.value)
    ensures reply.UploadAnswer? && reply.ok ==> r == Transcribed(reply.transcription.GetOr(""))
    ensures reply.UploadThrows? ==> r == TranscriptionFailed(ThrownMessage(reply.thrown))
  {
    match reply
    case UploadThrows(thrown) => TranscriptionFailed(ThrownMessage(thrown))
    case UploadAnswer(ok, error, transcription) =>
      if !ok then TranscriptionFailed(if error.None? || error.value == "" then "Failed to transcribe audio" else error.value)
      else Transcribed(if transcription.None? then "" else transcription.value)
  }

  /** The total size of the recorded chunks, i.e. of the Blob built from them. */
  function Sum(sizes: seq<nat>): nat {
    if |sizes| == 0 then 0 else Sum(sizes[..|sizes| - 1]) + sizes[|sizes| - 1]
  }

  /** The component's state: React state, refs, and what it has sent. */
  class Recorder {
    var state: RecordingState
    /** `recordingTime`, in seconds. */
    var recordingTime: nat
    /** `intervalRef.current !== null`. */
    var timerRunning: bool
    /** `mediaRecorderRef.current !== null`; never reset once set. */
    var hasRecorder: bool
    /** `streamRef.current !== null`. */
    var streamOpen: bool
    /** The sizes of the Blobs in `chunksRef.current`, in arrival order. */
    var chunks: seq<nat>
    var transcription: string
    /** The sizes of the recordings posted to the speech-to-text route, in order. */
    var uploads: seq<nat>
    /** Every value passed to `setRecordingState`, in order. */
    ghost var trace: seq<RecordingState>

    /** The counter runs exactly while recording, and recording implies a recorder. */
    ghost predicate Valid()
      reads this
    {
      (timerRunning <==> state == Recording) && (state == Recording ==> hasRecorder)
    }

    constructor ()
      ensures Valid()
      ensures state == Idle && recordingTime == 0 && !timerRunning && !hasRecorder && !streamOpen
      ensures chunks == [] && transcription == "" && uploads == [] && trace == []
    {
      state := Idle;
      recordingTime := 0;
      timerRunning := false;
      hasRecorder := false;
      streamOpen := false;
      chunks := [];
      transcription := "";
      uploads := [];
      trace := [];
    }

    /** `setRecordingState(s)`. */
    method SetState(s: RecordingState)
      modifies this
      ensures state == s && trace == old(trace) + [s]
      ensures recordingTime == old(recordingTime) && timerRunning == old(timerRunning) && hasRecorder == old(hasRecorder)
      ensures streamOpen == old(streamOpen) && chunks == old(chunks) && transcription == old(transcription)
      ensures uploads == old(uploads)
    {
      state := s;
      trace := trace + [s];
    }

    /** `startTimer()`: installs the one-second interval. */
    method StartTimer()
      modifies this`timerRunning
      ensures timerRunning
    {
      timerRunning := true;
    }

    /** One firing of the interval: the counter goes up by exactly one second. */
    method Tick()
      requires Valid()
      modifies this`recordingTime
      ensures Valid()
      ensures recordingTime == old(recordingTime) + (if timerRunning then 1 else 0)
    {
      if timerRunning {
        recordingTime := recordingTime + 1;
      }
    }

    /** `stopTimer()`: clears the interval and resets the counter to 0. */
    method StopTimer()
      modifies this`timerRunning, this`recordingTime
      ensures !timerRunning && recordingTime == 0
    {
      timerRunning := false;
      recordingTime := 0;
    }

    /**
     * `startRecording()` with the Clerk flags `isLoaded`/`user` folded into
     * `signedIn`. Without a signed-in user nothing changes. Otherwise the
     * state goes to requesting-permission, then to recording on success or
     * back to idle on failure. The button calls it only in the idle state.
     */
    method StartRecording(signedIn: bool, outcome: StartOutcome) returns (toast: Toast)
      requires Valid() && state == Idle
      modifies this
      ensures Valid()
      ensures !signedIn ==> toast == ToastError("Please sign in to use speech-to-text")
                            && state == old(state) && trace == old(trace) && chunks == old(chunks)
                            && hasRecorder == old(hasRecorder) && streamOpen == old(streamOpen)
      ensures signedIn && outcome.Started? ==>
                state == Recording && trace == old(trace) + [RequestingPermission, Recording]
                && toast == ToastSuccess("Recording started...")
                && chunks == [] && hasRecorder && streamOpen && timerRunning
      ensures signedIn && !outcome.Started? ==>
                state == Idle && trace == old(trace) + [RequestingPermission, Idle]
                && toast == StartFailureToast(outcome.thrown)
                && !timerRunning
                && (outcome.MicrophoneThrows? ==> chunks == old(chunks) && streamOpen == old(streamOpen) && hasRecorder == old(hasRecorder))
                && (outcome.RecorderThrows? ==> chunks == [] && streamOpen && hasRecorder == old(hasRecorder))
                && (outcome.StartThrows? ==> chunks == [] && streamOpen && hasRecorder)
      ensures recordingTime == old(recordingTime) && uploads == old(uploads) && transcription == old(transcription)
    {
      if !signedIn {
        return ToastError("Please sign in to use speech-to-text");
      }
      SetState(RequestingPermission);
      if outcome.MicrophoneThrows? {
        SetState(Idle);
        return StartFailureToast(outcome.thrown);
      }
      streamOpen := true;
      chunks := [];
      if outcome.RecorderThrows? {
        SetState(Idle);
        return StartFailureToast(outcome.thrown);
      }
      hasRecorder := true;
      if outcome.StartThrows? {
        SetState(Idle);
        return StartFailureToast(outcome.thrown);
      }
      SetState(Recording);
      StartTimer();
      toast := ToastSuccess("Recording started...");
    }

    /** `ondataavailable`: only a non-empty chunk is appended. */
    method OnDataAvailable(size: nat)
      modifies this`chunks
      ensures chunks == old(chunks) + (if size > 0 then [size] else [])
    {
      if size > 0 {
        chunks := chunks + [size];
      }
    }

    /**
     * `stopRecording()`: stops the recorder and releases the microphone only
     * when a recorder exists and the state is recording; otherwise nothing
     * happens. The recorder then fires `onstop` (`OnStop`).
     */
    method StopRecording() returns (stopping: bool)
      modifies this`streamOpen
      ensures stopping <==> hasRecorder && state == Recording
      ensures streamOpen == (if stopping then false else old(streamOpen))
    {
      stopping := hasRecorder && state == Recording;
      if stopping {
        streamOpen := false;
      }
    }

    /**
     * `onstop`: the state goes to processing and the timer stops; a Blob
     * over 10 MiB is rejected without an upload; otherwise it is uploaded
     * and the reply is handled. The `finally` always ends in idle. On a
     * transcription the text is what `onTranscription` receives.
     */
    method OnStop(reply: UploadReply) returns (result: StopResult, toast: Toast)
      modifies this
      ensures Valid()
      ensures state == Idle && !timerRunning && recordingTime == 0
      ensures trace == old(trace) + [Processing] + (if Sum(old(chunks)) > MaxBlobSize then [Idle, Idle] else [Idle])
      ensures Sum(old(chunks)) > MaxBlobSize ==>
                result == TooLarge && uploads == old(uploads) && transcription == old(transcription)
                && toast == ToastError("Recording is too long. Please keep it under 65 seconds.")
      ensures Sum(old(chunks)) <= MaxBlobSize ==>
                uploads == old(uploads) + [Sum(old(chunks))] && result == UploadResult(reply)
      ensures result.Transcribed? ==>
                transcription == result.text
                && toast == (if IsBlank(result.text) then ToastWarning("No speech detected in the recording.")
                             else ToastSuccess("Audio transcribed successfully!"))
      ensures result.TranscriptionFailed? ==> transcription == old(transcription) && toast == ToastError(result.message)
      ensures chunks == old(chunks) && hasRecorder == old(hasRecorder) && streamOpen == old(streamOpen)
    {
      state, trace := Processing, trace + [Processing];
      StopTimer();
      var size := Sum(chunks);
      if size > MaxBlobSize {
        toast := ToastError("Recording is too long. Please keep it under 65 seconds.");
        state, trace := Idle, trace + [Idle];
        result := TooLarge;
      } else {
        uploads := uploads + [size];
        result := UploadResult(reply);
        if result.Transcribed? {
          transcription := result.text;
          toast := if IsBlank(result.text) then ToastWarning("No speech detected in the recording.")
                   else ToastSuccess("Audio transcribed successfully!");
        } else {
          toast := ToastError(result.message);
        }
      }
      // the `finally` block
      state, trace := Idle, trace + [Idle];
    }
  }
}
