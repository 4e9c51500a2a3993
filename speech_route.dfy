/**
 * The speech-to-text route `POST /api/speech-to-text`: an ordered ladder of
 * early returns around the rate limiter and the hosted transcription call.
 * The signed-in user, the form data, the transcription service's answer and
 * the clock are parameters.
 */
module SpeechToTextRoute {
  import opened Wrappers
  import RateLimit

  const Endpoint := "/api/speech-to-text"
  /** `MAX_AUDIO_LENGTH_IN_MS`: 65 seconds. */
  const MaxAudioLengthMs: nat := 65 * 1000

  /** `currentUser()`: it throws, finds nobody, or finds a user with an id. */
  datatype UserLookup = LookupThrows | SignedOut | SignedIn(id: string)

  /** `formData.get("audio")`: missing or another falsy value, present but not a Blob, or a Blob of `size` bytes. */
  datatype AudioField = Absent | NotABlob | AudioBlob(size: nat)

  /** `req.formData()`: it throws, or yields the audio field. */
  datatype FormData = FormThrows | Form(audio: AudioField)

  /** The JSON of the transcription service: `error?.message` and `text`. */
  datatype UpstreamJson = UpstreamJson(errorMessage: Option<string>, text: string)

  /** The transcription call: the fetch throws, or it answers; `json` is absent when the body is not JSON. */
  datatype Upstream = FetchThrows | Answer(status: int, json: Option<UpstreamJson>)

  /** `response.ok`: a status in the range 200-299. */
  predicate IsOk(status: int) {
    200 <= status <= 299
  }

  /** `error.error?.message || "Failed to transcribe audio"`. */
  function UpstreamErrorText(message: Option<string>): string {
    if message.None? || message.value == "" then "Failed to transcribe audio" else message.value
  }

  datatype Body = ErrorBody(error: string) | MessageBody(message: string) | TranscriptionBody(transcription: string)

  /** A response: its status, its JSON body and the rate-limit headers it carries, if any. */
  datatype Response = Response(status: int, body: Body, rateLimit: RateLimit.RateLimitHeaders)

  const InternalError := Response(500, ErrorBody("Failed to transcribe audio"), RateLimit.NoHeaders)

  /** The duration the route assumes: 16 kHz, 2 bytes per sample, in milliseconds. */
  function DurationMs(bytes: nat): real {
    (bytes as real / (16000.0 * 2.0)) * 1000.0
  }

  /** A file is too long exactly when it has more than 2,080,000 bytes. */
  predicate TooLong(bytes: nat) {
    DurationMs(bytes) > MaxAudioLengthMs as real
  }

  lemma TooLongIff(bytes: nat)
    ensures TooLong(bytes) <==> bytes > 2080000
  {
  }

  /**
   * The tail of the ladder, once the file has passed every check: an
   * upstream error passes its status through with the upstream message (or
   * "Failed to transcribe audio"); a success answers 200 with the text and
   * the rate-limit headers; anything thrown answers 500.
   */
  function UpstreamResponse(upstream: Upstream, headers: RateLimit.RateLimitHeaders): (r: Response)
    ensures r.status == 200 <==> upstream.Answer? && IsOk(upstream.status) && upstream.json.Some?
    ensures r.status == 200 ==> r == Response(200, TranscriptionBody(upstream.json.value.text), headers)
    ensures upstream.Answer? && !IsOk(upstream.status) && upstream.json.Some? ==>
              r == Response(upstream.status, ErrorBody(UpstreamErrorText(upstream.json.value.errorMessage)), RateLimit.NoHeaders)
    ensures upstream.FetchThrows? || upstream.json.None? ==> r == InternalError
  {
    match upstream
    case FetchThrows => InternalError
    case Answer(status, json) =>
      if json.None? then InternalError
      else if !IsOk(status) then Response(status, ErrorBody(UpstreamErrorText(json.value.errorMessage)), RateLimit.NoHeaders)
      else Response(200, TranscriptionBody(json.value.text), headers)
  }

  /** `POST(req)`, sharing the rate limiter's table with every other request. */
  method Post(limiter: RateLimit.RateLimiter, user: UserLookup, form: FormData, upstream: Upstream, now: int)
    returns (resp: Response)
    requires limiter.Valid()
    modifies limiter
    ensures limiter.Valid()
    // 1. no user: 401, and the limiter is not consulted
    ensures user.LookupThrows? ==> resp == InternalError && limiter.store == old(limiter.store)
    ensures user.SignedOut? ==> resp == Response(401, ErrorBody("Unauthorized"), RateLimit.NoHeaders)
                                && limiter.store == old(limiter.store)
    // 2. no audio Blob: 400, and still no request slot is used
    ensures user.SignedIn? && form.FormThrows? ==> resp == InternalError && limiter.store == old(limiter.store)
    ensures user.SignedIn? && form.Form? && !form.audio.AudioBlob? ==>
              resp == Response(400, ErrorBody("No audio file provided"), RateLimit.NoHeaders)
              && limiter.store == old(limiter.store)
    // 3.-5. from here on the request has been counted
    ensures user.SignedIn? && form.Form? && form.audio.AudioBlob? ==>
              var cfg := RateLimit.SpeechToTextConfig;
              var key := RateLimit.Key(user.id, Endpoint);
              var step := RateLimit.Admit(RateLimit.Lookup(old(limiter.store), key), cfg, now);
              var headers := RateLimit.HeadersFor(Some(cfg), Some(step.0), now);
              && limiter.store == old(limiter.store)[key := step.0]
              && (step.1 ==>
                    resp == Response(429, MessageBody("Rate limit exceeded. Please try again later."), headers))
              && (!step.1 && TooLong(form.audio.size) ==>
                    resp == Response(400, ErrorBody("Audio file is too long"), RateLimit.NoHeaders))
              && (!step.1 && !TooLong(form.audio.size) ==> resp == UpstreamResponse(upstream, headers))
  {
    if user.LookupThrows? {
      return InternalError;
    }
    if user.SignedOut? {
      return Response(401, ErrorBody("Unauthorized"), RateLimit.NoHeaders);
    }
    if form.FormThrows? {
      return InternalError;
    }
    var audioFile := form.audio;
    if !audioFile.AudioBlob? {
      return Response(400, ErrorBody("No audio file provided"), RateLimit.NoHeaders);
    }
    var isRateLimitExceeded := limiter.IsRateLimited(user.id, Endpoint, now);
    if isRateLimitExceeded {
      var headers := limiter.GetRateLimitHeaders(user.id, Endpoint, now);
      return Response(429, MessageBody("Rate limit exceeded. Please try again later."), headers);
    }
    if DurationMs(audioFile.size) > MaxAudioLengthMs as real {
      return Response(400, ErrorBody("Audio file is too long"), RateLimit.NoHeaders);
    }
    var headers := limiter.GetRateLimitHeaders(user.id, Endpoint, now);
    resp := UpstreamResponse(upstream, headers);
  }
}
