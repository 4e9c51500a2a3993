/**
 * Audio-file validation, the duration estimate and the mapping of
 * transcription-service errors to user-facing messages
 * (`src/utils/speech-to-text-utils.ts`).
 */
module SpeechUtils {
  import opened Wrappers
  import opened Strings

  /** `SPEECH_TO_TEXT_CONFIG.MAX_FILE_SIZE_BYTES`: 25 MiB. */
  const MaxFileSizeBytes: nat := 25 * 1024 * 1024

  /** `{ isValid, error? }`. */
  datatype Validation = Validation(isValid: bool, error: Option<string>)

  /** `validateAudioFile(file)`, on the file's size in bytes. */
  function ValidateAudioFile(size: nat): (v: Validation)
    ensures v.isValid <==> size <= 26214400
    ensures v.isValid <==> v.error == None
    ensures !v.isValid ==> v.error == Some("File size too large. Maximum allowed: 25MB")
  {
    if size > MaxFileSizeBytes then
      assert NatToString(MaxFileSizeBytes / (1024 * 1024)) == "25" by {
        assert MaxFileSizeBytes / (1024 * 1024) == 25;
        assert NatToString(25) == NatToString(2) + [DigitChar(5)];
      }
      assert "File size too large. Maximum allowed: " + "25" + "MB" == "File size too large. Maximum allowed: 25MB";
      Validation(false, Some("File size too large. Maximum allowed: " + NatToString(MaxFileSizeBytes / (1024 * 1024)) + "MB"))
    else
      Validation(true, None)
  }

  /** `estimateAudioDuration(file)` in milliseconds, assuming 128 kbit/s, computed exactly. */
  function EstimateAudioDuration(size: nat): (ms: real)
    ensures ms == size as real / 16.0
  {
    var averageBitrateKbps := 128.0;
    var durationSeconds := (size as real * 8.0) / (averageBitrateKbps * 1000.0);
    durationSeconds * 1000.0
  }

  /** A larger file never gets a shorter estimate, and an empty file lasts 0 ms. */
  lemma EstimateMonotone(a: nat, b: nat)
    requires a <= b
    ensures EstimateAudioDuration(a) <= EstimateAudioDuration(b)
    ensures EstimateAudioDuration(0) == 0.0
  {
  }

  const RateLimitText := "Rate limit exceeded. Please try again later."
  const QuotaText := "Service quota exceeded. Please contact support."
  const InvalidText := "Invalid audio file format or content."
  const DefaultErrorText := "Failed to transcribe audio"

  /** The JSON body and status `handleOpenAIError` responds with. */
  datatype ErrorResponse = ErrorResponse(status: int, error: string, code: Option<string>)

  /**
   * The user-facing message for an upstream error message (`error.error?.message`);
   * an absent or empty message counts as "Failed to transcribe audio".
   */
  function FriendlyMessage(upstream: Option<string>): string {
    var message := if upstream == None || upstream.value == "" then DefaultErrorText else upstream.value;
    if Contains(message, "rate limit") then RateLimitText
    else if Contains(message, "quota") then QuotaText
    else if Contains(message, "invalid") then InvalidText
    else message
  }

  /**
   * `handleOpenAIError(error, status)`: the response carries the given
   * status and the upstream code; its message is never empty, and it is
   * one of the fixed texts or the upstream message itself, kept only when
   * that message holds none of the keywords.
   */
  function HandleOpenAIError(message: Option<string>, code: Option<string>, status: int): (r: ErrorResponse)
    ensures r.status == status && r.code == code
    ensures r.error == FriendlyMessage(message)
    ensures r.error != ""
    ensures || r.error in {RateLimitText, QuotaText, InvalidText, DefaultErrorText}
            || (&& message.Some? && r.error == message.value
                && !Contains(r.error, "rate limit") && !Contains(r.error, "quota") && !Contains(r.error, "invalid"))
  {
    ErrorResponse(status, FriendlyMessage(message), code)
  }

  /** "rate limit" wins over every other keyword. */
  lemma RateLimitTakesPrecedence(m: string)
    requires m != "" && Contains(m, "rate limit")
    ensures FriendlyMessage(Some(m)) == RateLimitText
  {
  }

  /** Without "rate limit", "quota" wins over "invalid". */
  lemma QuotaBeforeInvalid(m: string)
    requires m != "" && !Contains(m, "rate limit") && Contains(m, "quota")
    ensures FriendlyMessage(Some(m)) == QuotaText
  {
  }

  /** "invalid" is mapped only when neither earlier keyword occurs. */
  lemma InvalidLast(m: string)
    requires m != "" && !Contains(m, "rate limit") && !Contains(m, "quota") && Contains(m, "invalid")
    ensures FriendlyMessage(Some(m)) == InvalidText
  {
  }

  /** A message with none of the keywords is kept as it is. */
  lemma OtherMessageKept(m: string)
    requires m != "" && !Contains(m, "rate limit") && !Contains(m, "quota") && !Contains(m, "invalid")
    ensures FriendlyMessage(Some(m)) == m
  {
  }

  /** The default text holds none of the keywords: each has a letter the default text lacks. */
  lemma DefaultHasNoKeyword()
    ensures !Contains(DefaultErrorText, "rate limit")
    ensures !Contains(DefaultErrorText, "quota")
    ensures !Contains(DefaultErrorText, "invalid")
  {
    assert 'm' !in DefaultErrorText && 'q' !in DefaultErrorText && 'v' !in DefaultErrorText;
    if Contains(DefaultErrorText, "rate limit") { ContainsChar(DefaultErrorText, "rate limit", 'm'); }
    if Contains(DefaultErrorText, "quota") { ContainsChar(DefaultErrorText, "quota", 'q'); }
    if Contains(DefaultErrorText, "invalid") { ContainsChar(DefaultErrorText, "invalid", 'v'); }
  }

  /** A missing or empty message becomes the default text. */
  lemma MissingMessageDefault()
    ensures FriendlyMessage(None) == DefaultErrorText
    ensures FriendlyMessage(Some("")) == DefaultErrorText
  {
    DefaultHasNoKeyword();
  }
}
