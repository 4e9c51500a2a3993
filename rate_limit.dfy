/**
 * The in-memory fixed-window rate limiter of `src/lib/utils/rate-limit.ts`:
 * a table from `userId:endpoint` to `{ requests, windowStart }`, updated in
 * place. The clock (`Date.now()`) is the parameter `now`, in milliseconds.
 */
module RateLimit {
  import opened Wrappers
  import opened Strings

  /** One row of `RATE_LIMIT_CONFIG`. */
  datatype Config = Config(maxRequests: int, windowMs: int)

  /** `RateLimitEntry`. */
  datatype Entry = Entry(requests: int, windowStart: int)

  const SpeechToTextEndpoint := "/api/speech-to-text"
  /** 10 requests per minute. */
  const SpeechToTextConfig := Config(10, 60 * 1000)

  /** `RATE_LIMIT_CONFIG[endpoint]`: only the speech-to-text endpoint is configured. */
  function ConfigFor(endpoint: string): Option<Config> {
    if endpoint == SpeechToTextEndpoint then Some(SpeechToTextConfig) else None
  }

  /** The table key `${userId}:${endpoint}`. */
  function Key(userId: string, endpoint: string): string {
    userId + ":" + endpoint
  }

  /** `key.split(':')[1]`, absent when the key has no colon. */
  function EndpointSegment(key: string): Option<string> {
    var parts := Split(key, ':');
    if |parts| > 1 then Some(parts[1]) else None
  }

  /** For user ids and endpoints without a colon, the cleanup reads back the endpoint a key was built from. */
  lemma EndpointSegmentOfKey(userId: string, endpoint: string)
    requires ':' !in userId && ':' !in endpoint
    ensures EndpointSegment(Key(userId, endpoint)) == Some(endpoint)
  {
    assert Join([userId, endpoint], ':') == Key(userId, endpoint) by {
      assert Join([endpoint], ':') == endpoint;
    }
    SplitJoin([userId, endpoint], ':');
  }

  function Lookup(store: map<string, Entry>, key: string): Option<Entry> {
    if key in store then Some(store[key]) else None
  }

  /**
   * The decision of `isRateLimited` for a configured endpoint: the entry to
   * store and whether the request is refused. A missing entry, or one whose
   * window is more than `windowMs` old, starts a new window; a full window
   * refuses and stays as it is; otherwise the count goes up by one.
   */
  function Admit(entry: Option<Entry>, cfg: Config, now: int): (Entry, bool) {
    if entry.None? || now - entry.value.windowStart > cfg.windowMs then (Entry(1, now), false)
    else if entry.value.requests >= cfg.maxRequests then (entry.value, true)
    else (Entry(entry.value.requests + 1, entry.value.windowStart), false)
  }

  /** The stored count stays between 1 and the maximum. */
  lemma AdmitKeepsBounds(entry: Option<Entry>, cfg: Config, now: int)
    requires cfg.maxRequests >= 1
    requires entry.Some? ==> 1 <= entry.value.requests <= cfg.maxRequests
    ensures 1 <= Admit(entry, cfg, now).0.requests <= cfg.maxRequests
  {
  }

  /** A refused request leaves the entry as it was; an admitted one either opens a window or adds exactly one. */
  lemma AdmitEffect(entry: Option<Entry>, cfg: Config, now: int)
    ensures Admit(entry, cfg, now).1 ==> entry.Some? && Admit(entry, cfg, now).0 == entry.value
    ensures !Admit(entry, cfg, now).1 ==>
              Admit(entry, cfg, now).0 == Entry(1, now)
              || (entry.Some? && Admit(entry, cfg, now).0 == entry.value.(requests := entry.value.requests + 1))
  {
  }

  /** The window is closed on the right: at exactly `windowStart + windowMs` a full window still refuses. */
  lemma WindowEndStillLimited(e: Entry, cfg: Config)
    requires e.requests >= cfg.maxRequests
    ensures Admit(Some(e), cfg, e.windowStart + cfg.windowMs) == (e, true)
  {
  }

  /** The number of requests admitted when they arrive at `times`, in order, starting from `entry`. */
  function CountAllowed(entry: Option<Entry>, cfg: Config, times: seq<int>): nat
    decreases |times|
  {
    if |times| == 0 then 0
    else
      var step := Admit(entry, cfg, times[0]);
      (if step.1 then 0 else 1) + CountAllowed(Some(step.0), cfg, times[1..])
  }

  /** Inside a live window holding `requests` requests, at most `maxRequests - requests` more are admitted. */
  lemma {:induction false} LiveWindowBound(e: Entry, cfg: Config, times: seq<int>)
    requires 0 <= e.requests <= cfg.maxRequests
    requires forall i | 0 <= i < |times| :: times[i] - e.windowStart <= cfg.windowMs
    ensures CountAllowed(Some(e), cfg, times) <= cfg.maxRequests - e.requests
    decreases |times|
  {
    if |times| > 0 {
      var step := Admit(Some(e), cfg, times[0]);
      assert step.0.windowStart == e.windowStart;
      LiveWindowBound(step.0, cfg, times[1..]);
    }
  }

  /**
   * Per key and per window, at most `maxRequests` calls are admitted: of a
   * first call at `t0` on an empty entry and any calls up to `windowMs`
   * after it, no more than `maxRequests` get through.
   */
  lemma AtMostMaxPerWindow(cfg: Config, t0: int, times: seq<int>)
    requires cfg.maxRequests >= 1
    requires forall i | 0 <= i < |times| :: times[i] - t0 <= cfg.windowMs
    ensures CountAllowed(None, cfg, [t0] + times) <= cfg.maxRequests
  {
    assert ([t0] + times)[1..] == times;
    LiveWindowBound(Entry(1, t0), cfg, times);
  }

  /** An entry whose window has expired decides nothing: any later call treats it as absent. */
  lemma ExpiredEntryForgettable(e: Entry, cfg: Config, now: int, later: int)
    requires now - e.windowStart > cfg.windowMs && later >= now
    ensures Admit(Some(e), cfg, later) == Admit(None, cfg, later)
  {
  }

  /** The three `X-RateLimit-*` headers; `resetMs` is the reset instant in milliseconds (rendered as an ISO date). */
  datatype RateLimitHeaders = NoHeaders | Headers(limit: int, remaining: int, resetMs: int)

  /** `getRateLimitHeaders` for a given configuration and stored entry. */
  function HeadersFor(cfg: Option<Config>, entry: Option<Entry>, now: int): RateLimitHeaders {
    if cfg.None? then NoHeaders
    else if entry.None? then Headers(cfg.value.maxRequests, cfg.value.maxRequests - 1, now + cfg.value.windowMs)
    else
      var remaining := if cfg.value.maxRequests - entry.value.requests > 0 then cfg.value.maxRequests - entry.value.requests else 0;
      Headers(cfg.value.maxRequests, remaining, entry.value.windowStart + cfg.value.windowMs)
  }

  /** With a stored count between 1 and the maximum, the remaining count is below the limit and never negative. */
  lemma HeadersRemainingBounds(cfg: Config, entry: Option<Entry>, now: int)
    requires cfg.maxRequests >= 1
    requires entry.Some? ==> 1 <= entry.value.requests <= cfg.maxRequests
    ensures HeadersFor(Some(cfg), entry, now).Headers?
    ensures 0 <= HeadersFor(Some(cfg), entry, now).remaining < HeadersFor(Some(cfg), entry, now).limit
  {
  }

  /** Inside a live window, "0 remaining" is announced exactly when the next call would be refused. */
  lemma RemainingZeroIffNextLimited(cfg: Config, e: Entry, now: int)
    requires e.requests <= cfg.maxRequests
    requires now - e.windowStart <= cfg.windowMs
    ensures HeadersFor(Some(cfg), Some(e), now).remaining == 0 <==> Admit(Some(e), cfg, now).1
  {
  }

  /** `config && now - entry.windowStart > config.windowMs` for the key's endpoint segment. */
  predicate Expired(key: string, entry: Entry, now: int) {
    var endpoint := EndpointSegment(key);
    endpoint.Some? && ConfigFor(endpoint.value).Some?
    && now - entry.windowStart > ConfigFor(endpoint.value).value.windowMs
  }

  /** The table after `cleanupExpiredEntries`: exactly the entries that have not expired. */
  function Survivors(store: map<string, Entry>, now: int): map<string, Entry> {
    map k | k in store && !Expired(k, store[k], now) :: store[k]
  }

  /** The module-level `rateLimitStore` and the functions that use it. */
  class RateLimiter {
    var store: map<string, Entry>

    /** Every stored count lies between 1 and the configured maximum. */
    ghost predicate Valid()
      reads this
    {
      forall k | k in store :: 1 <= store[k].requests <= SpeechToTextConfig.maxRequests
    }

    constructor ()
      ensures Valid() && store == map[]
    {
      store := map[];
    }

    /**
     * `isRateLimited(userId, endpoint)` at time `now`. Only the key
     * `userId:endpoint` is read or written.
     */
    method IsRateLimited(userId: string, endpoint: string, now: int) returns (limited: bool)
      requires Valid()
      modifies this
      ensures Valid()
      ensures ConfigFor(endpoint).None? ==> !limited && store == old(store)
      ensures ConfigFor(endpoint).Some? ==>
                var key := Key(userId, endpoint);
                var step := Admit(Lookup(old(store), key), ConfigFor(endpoint).value, now);
                limited == step.1 && store == old(store)[key := step.0]
      ensures forall k | k != Key(userId, endpoint) :: Lookup(store, k) == Lookup(old(store), k)
    {
      var config := ConfigFor(endpoint);
      if config.None? {
        return false;
      }
      var key := Key(userId, endpoint);
      var entry := Lookup(store, key);
      if entry.None? || now - entry.value.windowStart > config.value.windowMs {
        store := store[key := Entry(1, now)];
        return false;
      }
      if entry.value.requests >= config.value.maxRequests {
        return true;
      }
      store := store[key := entry.value.(requests := entry.value.requests + 1)];
      return false;
    }

    /** `getRateLimitHeaders(userId, endpoint)` at time `now`; it only reads the table. */
    function GetRateLimitHeaders(userId: string, endpoint: string, now: int): (h: RateLimitHeaders)
      reads this
      ensures h.NoHeaders? <==> ConfigFor(endpoint).None?
      ensures Valid() && h.Headers? ==> 0 <= h.remaining < h.limit
    {
      HeadersFor(ConfigFor(endpoint), Lookup(store, Key(userId, endpoint)), now)
    }

    /** `cleanupExpiredEntries()` at time `now`: deletes exactly the expired entries, leaving the others untouched. */
    method CleanupExpiredEntries(now: int)
      requires Valid()
      modifies this
      ensures Valid()
      ensures store == Survivors(old(store), now)
    {
      var pending := store.Keys;
      while pending != {}
        invariant pending <= old(store).Keys
        invariant store.Keys <= old(store).Keys
        invariant forall k | k in store :: store[k] == old(store)[k]
        invariant forall k | k in old(store) :: (k in store <==> k in pending || !Expired(k, old(store)[k], now))
        decreases pending
      {
        var key :| key in pending;
        var entry := store[key];
        var endpoint := EndpointSegment(key);
        var config := if endpoint.Some? then ConfigFor(endpoint.value) else None;
        if config.Some? && now - entry.windowStart > config.value.windowMs {
          store := store - {key};
        }
        pending := pending - {key};
      }
    }
  }
}
