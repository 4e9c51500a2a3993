# dump-tickets, modelled in Dafny

dump-tickets is a small web application. A user connects a Linear account with OAuth 2.0, pastes or dictates a block of free text, has a hosted language model split it into issue drafts (title and description), edits or deletes drafts, and imports them into Linear one at a time. This project models the decision logic of that application and proves properties about it:

- the draft list and the import page's state machine (Connect, Prepare, Import), including the `state` check of the OAuth redirect and the sequential create loop;
- the in-memory fixed-window rate limiter shared by the speech-to-text route;
- the request ladders of the speech-to-text route and the token-exchange route;
- the recording widget's state machine and its `m:ss` timer display;
- the authorization URL builder (section 4.1.1 of RFC 6749) and the token request (section 4.1.3 of RFC 6749);
- the small helpers: bearer-header normalisation, the GraphQL error check, audio validation and duration estimate, the mapping of transcription-service errors, and the issue equality check.

Layout, one module per source file:

| file | module | source |
|---|---|---|
| `wrappers.dfy` | `Wrappers` | `Option`, `Result` and JavaScript truthiness of an optional string |
| `strings.dfy` | `Strings` | the JavaScript string operations the code calls (`startsWith`, `includes`, `trim`, `split`, `join`, `toString`, `padStart`) |
| `issue_utils.dfy` | `IssueUtils` | `src/utils/index.ts` and the issue shape of `src/utils/zod.ts` |
| `apollo.dfy` | `Apollo` | `src/utils/appolo.ts` |
| `speech_utils.dfy` | `SpeechUtils` | `src/utils/speech-to-text-utils.ts` |
| `linear_auth.dfy` | `LinearAuth` | `src/utils/linear.ts` |
| `token_route.dfy` | `LinearTokenRoute` | `src/app/api/linear/token/route.ts` |
| `rate_limit.dfy` | `RateLimit` | `src/lib/utils/rate-limit.ts`, with the table as class `RateLimiter` |
| `speech_route.dfy` | `SpeechToTextRoute` | `src/app/api/speech-to-text/route.ts` |
| `recorder.dfy` | `SpeechToTextComponent` | `src/components/speech-to-text.tsx`, with the widget as class `Recorder` |
| `drafts.dfy` | `Drafts` | the pure logic of `src/app/page.tsx` |
| `home.dfy` | `Home` | the page's state and handlers, as class `HomePage` |

Modelling conventions:

- Every outside effect is a parameter:
  - the clock (`now`, in milliseconds);
  - the signed-in user;
  - form data;
  - what the token endpoint, the transcription service, the extraction endpoint and the GraphQL API answer;
  - the outcome of each create mutation, as a `seq<bool>`;
  - what the microphone and `MediaRecorder` do.
- What the code sends out is recorded in fields, in order:
  - the codes posted for token exchange;
  - the texts posted for extraction;
  - the create mutations;
  - the sizes of uploaded recordings.
- `HomePage`'s constructor is mounting the page. It sets the initial state and then runs the redirect-callback effect, which has an empty dependency list and so runs once.

The import does not skip a failed create. The throw at `src/app/page.tsx:184` reaches the `catch` at `src/app/page.tsx:203` through the `await` at line 198. So the first failed create ends the import, and every later draft is never sent. `Drafts.CreatedFormPrefix`, `Drafts.FailureIsNotSkipped` and `Home.HomePage.CreateIssue` state this.

Other behaviour of the code that the model keeps and states:

- `isCreatingLinearTickets` comes down only when every create succeeded (`Home.HomePage.ImportIssues`). After any failure, a missing token or a missing team, the import button stays in its "Importing..." state.
- `isCreatingTicketsWithAI` stays raised after a failed extraction request or a payload that fails the schema (`Home.HomePage.ExtractIssues`).
- When the recorder cannot be created or started after the microphone was granted, the stream is not released (`SpeechToTextComponent.Recorder.StartRecording`).
- An over-long recording is rejected by the speech-to-text route only after the rate limiter has counted it (`SpeechToTextRoute.Post`).
- The authorization URL is built without percent-encoding. A reader that splits at "&" and at the first "=", without decoding, gets the parameters back only while no value contains "&" (`LinearAuth.AuthURLRoundTrip`). A standard query reader would also misread "+", "%" and "#" in a value; the model's reader does not decode, so those characters are not covered.

## Model

| member | source | states |
|---|---|---|
| Strings.Split | src/lib/utils/rate-limit.ts:87 | `split` on one character always yields at least one part |
| Strings.SplitJoin | src/lib/utils/rate-limit.ts:87 | splitting a joined list gives the parts back when no part holds the separator |
| Strings.NatToString | src/components/speech-to-text.tsx:55 | a number renders as a non-empty string of decimal digits |
| Strings.ParseNatToString | src/components/speech-to-text.tsx:53-55 | reading back a number's decimal rendering gives the number |
| Strings.PadStart2 | src/components/speech-to-text.tsx:55 | `padStart(2, "0")` makes a short string exactly two long and leaves a longer one unchanged |
| IssueUtils.UnchangedIffSameIssue | src/utils/index.ts:5-15 | `isIssueUnchanged` holds exactly when the current issue exists and equals `{newTitle, newDescription}` |
| IssueUtils.MissingIssueIsChanged | src/utils/index.ts:11 | an undefined current issue is never unchanged |
| IssueUtils.UnchangedReflexive | src/utils/index.ts:10-14 | an issue compared with its own fields is unchanged |
| IssueUtils.ChangedFieldIsChanged | src/utils/index.ts:12-13 | changing either field makes the check false |
| Apollo.WithAuthHeader | src/utils/appolo.ts:23-29 | the authorization header always starts with "Bearer" |
| Apollo.PrefixedTokenUnchanged | src/utils/appolo.ts:26 | a token already starting with "Bearer" is passed through unchanged |
| Apollo.BareTokenPrefixed | src/utils/appolo.ts:26 | any other token becomes "Bearer " followed by the token |
| Apollo.WithAuthHeaderIdempotent | src/utils/appolo.ts:26 | normalising twice equals normalising once |
| Apollo.NoSpaceRequiredAfterBearer | src/utils/appolo.ts:26 | the prefix test has no trailing space: "Bearerxyz" is not prefixed again |
| Apollo.CheckErrors | src/utils/appolo.ts:52-53 | a non-empty `errors` list fails with the first message; an absent or empty one returns `data` unchanged |
| SpeechUtils.ValidateAudioFile | src/utils/speech-to-text-utils.ts:8-17 | valid exactly up to 26,214,400 bytes (25 MiB); valid exactly when there is no error; an invalid file gets "File size too large. Maximum allowed: 25MB" |
| SpeechUtils.EstimateAudioDuration | src/utils/speech-to-text-utils.ts:23-27 | the estimate at 128 kbit/s is exactly `size / 16` milliseconds |
| SpeechUtils.EstimateMonotone | src/utils/speech-to-text-utils.ts:23-27 | the estimate is 0 for an empty file and never decreases with size |
| SpeechUtils.HandleOpenAIError | src/utils/speech-to-text-utils.ts:44-65 | the response keeps the given status and the upstream `code`; its message is never empty, and it is one of the four fixed texts or the upstream message itself, kept only when that message holds none of the keywords |
| SpeechUtils.RateLimitTakesPrecedence | src/utils/speech-to-text-utils.ts:50-51 | a message containing "rate limit" maps to the rate-limit text, whatever else it contains |
| SpeechUtils.QuotaBeforeInvalid | src/utils/speech-to-text-utils.ts:52-53 | without "rate limit", "quota" maps to the quota text even if "invalid" also occurs |
| SpeechUtils.InvalidLast | src/utils/speech-to-text-utils.ts:54-56 | "invalid" maps to the format text only when neither earlier keyword occurs |
| SpeechUtils.OtherMessageKept | src/utils/speech-to-text-utils.ts:48 | a message with no keyword is kept verbatim |
| SpeechUtils.DefaultHasNoKeyword | src/utils/speech-to-text-utils.ts:47-56 | the default text "Failed to transcribe audio" contains none of the three keywords |
| SpeechUtils.MissingMessageDefault | src/utils/speech-to-text-utils.ts:47 | an absent or empty upstream message yields "Failed to transcribe audio" |
| LinearAuth.ReduceAfterFirst | src/utils/linear.ts:16-20 | after the first pair, the reduce appends "&" and the remaining pairs joined with "&" |
| LinearAuth.ReduceShape | src/utils/linear.ts:16-20 | the reduce yields the base URL, "?", then every `key=value` pair joined with "&", in list order |
| LinearAuth.QueryRoundTrip | src/utils/linear.ts:15-20 | the query reads back as the original pairs when no key holds "=" or "&" and no value holds "&" |
| LinearAuth.ScopeValue | src/utils/linear.ts:9 | the scope value is "admin,write" |
| LinearAuth.AuthURLRoundTrip | src/utils/linear.ts:6-20 | the URL is the authorize URL, "?", and exactly the six pairs `client_id`, `redirect_uri`, `scope`, `state`, `response_type=code`, `prompt=consent`, in that order, with the verification code verbatim as `state` |
| LinearTokenRoute.Post | src/app/api/linear/token/route.ts:5-43 | no body gives 400 "Request is missing body"; a falsy code or redirect URI gives 400 "Missing token or redirect URI" and sends nothing; otherwise the token request carries the code, the redirect URI, the client credentials and `grant_type=authorization_code`, and the reply is 200 with the upstream JSON, or 500 if the fetch or parse throws |
| LinearTokenRoute.OkIsPassthrough | src/app/api/linear/token/route.ts:37-38 | every 200 reply carries the token endpoint's JSON verbatim, whatever status that endpoint answered with |
| LinearTokenRoute.ExchangeUsesAuthorizedRedirect | src/utils/linear.ts:25-34 | the exchange posts the code as the authorization code, and its `redirect_uri` is exactly the `redirect_uri` carried by the authorization URL |
| RateLimit.EndpointSegmentOfKey | src/lib/utils/rate-limit.ts:87 | for colon-free user ids and endpoints, the cleanup reads back the endpoint a key was built from |
| RateLimit.AdmitKeepsBounds | src/lib/utils/rate-limit.ts:32-50 | the stored count stays between 1 and `maxRequests` |
| RateLimit.AdmitEffect | src/lib/utils/rate-limit.ts:32-50 | a refused request leaves the entry unchanged; an admitted one either opens a new window `{1, now}` or adds exactly one |
| RateLimit.WindowEndStillLimited | src/lib/utils/rate-limit.ts:32 | expiry needs strictly more than `windowMs`: at exactly `windowStart + windowMs` a full window still refuses |
| RateLimit.LiveWindowBound | src/lib/utils/rate-limit.ts:41-50 | inside a live window holding `r` requests, at most `maxRequests - r` further calls are admitted |
| RateLimit.AtMostMaxPerWindow | src/lib/utils/rate-limit.ts:9-15 | from a first call on an empty entry, at most `maxRequests` (10) calls within `windowMs` are admitted |
| RateLimit.ExpiredEntryForgettable | src/lib/utils/rate-limit.ts:32-39 | an expired entry decides exactly like a missing one at any later time |
| RateLimit.HeadersRemainingBounds | src/lib/utils/rate-limit.ts:64-79 | for a configured endpoint the headers are present and the remaining count lies in `0 .. limit-1` |
| RateLimit.RemainingZeroIffNextLimited | src/lib/utils/rate-limit.ts:72 | inside a live window, 0 remaining is announced exactly when the next call would be refused |
| RateLimit.RateLimiter.constructor | src/lib/utils/rate-limit.ts:18 | the table starts empty |
| RateLimit.RateLimiter.IsRateLimited | src/lib/utils/rate-limit.ts:20-51 | an unconfigured endpoint is never limited and changes nothing; otherwise the result and the new entry are the window decision `Admit` on the key `userId:endpoint`; no other key is read or written; counts stay in 1..10 |
| RateLimit.RateLimiter.GetRateLimitHeaders | src/lib/utils/rate-limit.ts:53-80 | only reads the table; no headers exactly for an unconfigured endpoint; the remaining count is below the limit and never negative |
| RateLimit.RateLimiter.CleanupExpiredEntries | src/lib/utils/rate-limit.ts:83-94 | the table afterwards is exactly the entries that are not expired for a configured endpoint segment; survivors are untouched |
| SpeechToTextRoute.TooLongIff | src/app/api/speech-to-text/route.ts:56-59 | a file is too long, at 16 kHz with 2 bytes per sample over 65 s, exactly when it has more than 2,080,000 bytes |
| SpeechToTextRoute.UpstreamResponse | src/app/api/speech-to-text/route.ts:88-120 | 200 with the transcription and the rate-limit headers exactly on an OK JSON answer; a non-OK answer passes its status through with the upstream message or "Failed to transcribe audio"; a throw gives 500 |
| SpeechToTextRoute.Post | src/app/api/speech-to-text/route.ts:12-133 | the checks run in order: 401, 400 (no audio), 429, 400 (too long), upstream; a missing user or audio never touches the limiter; from the rate check on, the request has been counted, even when the file is then refused as too long |
| SpeechToTextComponent.SecondsField | src/components/speech-to-text.tsx:54-55 | the seconds field is two digits and reads back as `seconds mod 60` |
| SpeechToTextComponent.FormatTimeRoundTrip | src/components/speech-to-text.tsx:52-56 | the display has exactly two digits after the colon, and `mins * 60 + secs` read back from it equals the counter |
| SpeechToTextComponent.UploadResult | src/components/speech-to-text.tsx:120-149 | a transcription happens exactly on an OK answer, and a missing transcription counts as ""; a non-OK answer fails with its `error` or "Failed to transcribe audio"; a thrown value fails with its message |
| SpeechToTextComponent.Recorder.constructor | src/components/speech-to-text.tsx:24-31 | the widget starts idle, with no timer, recorder, stream, chunks or uploads |
| SpeechToTextComponent.Recorder.SetState | src/components/speech-to-text.tsx:24 | sets the state, appends it to the trace, and changes nothing else |
| SpeechToTextComponent.Recorder.StartTimer | src/components/speech-to-text.tsx:36-40 | the interval is installed |
| SpeechToTextComponent.Recorder.Tick | src/components/speech-to-text.tsx:37-39 | each firing of the interval adds exactly one second |
| SpeechToTextComponent.Recorder.StopTimer | src/components/speech-to-text.tsx:43-49 | the interval is cleared and the counter reset to 0 |
| SpeechToTextComponent.Recorder.StartRecording | src/components/speech-to-text.tsx:59-180 | without a signed-in user nothing changes; otherwise idle goes to requesting-permission, then ends in recording with the timer running, or ends in idle with the error-specific toast |
| SpeechToTextComponent.Recorder.OnDataAvailable | src/components/speech-to-text.tsx:89-93 | only chunks with a positive size are appended |
| SpeechToTextComponent.Recorder.StopRecording | src/components/speech-to-text.tsx:183-193 | stops and releases the microphone exactly when a recorder exists and the state is recording; otherwise nothing happens |
| SpeechToTextComponent.Recorder.OnStop | src/components/speech-to-text.tsx:96-153 | passes through processing and always ends idle with the timer stopped; a recording over 10 MiB is rejected without an upload; otherwise it is uploaded once, and a transcription is stored and shown with a success or "no speech" toast |
| Drafts.FilterIndexDropsOne | src/app/page.tsx:249 | the index filter drops exactly the element at the index when it is in range, and nothing otherwise |
| Drafts.RemoveIssueSpec | src/app/page.tsx:244-252 | a null list stays null; an in-range index removes exactly that element and keeps the others in order; an out-of-range index changes nothing |
| Drafts.EditIssue | src/app/page.tsx:254-264 | a null list stays null; the length and every other slot are kept, and the edited slot equals `{title, description}` |
| Drafts.DeleteThenEditRenumbers | src/app/page.tsx:244-264 | after deleting slot `i`, slot `i` holds the former next draft, and editing it replaces that draft |
| Drafts.HandleTranscriptionSpec | src/app/page.tsx:91-104 | non-blank content is kept and followed by a blank line and the text; blank content is replaced by the text; without a text box nothing happens |
| Drafts.CallbackConnectsIff | src/app/page.tsx:216-236 | the callback connects exactly when `code` is present, `state` contains "linear", `state` equals the stored nonce and the exchange returns a truthy `access_token` |
| Drafts.MismatchAlerts | src/app/page.tsx:222-226 | the alert happens exactly for a "linear" state differing from the stored nonce, and no exchange is requested unless the state matches |
| Drafts.Requests | src/app/page.tsx:162-179 | one create mutation per draft, in list order, each with the team id, title and description; the element contract is proved from the recursive calls |
| Drafts.RequestsAppend | src/app/page.tsx:162-199 | the mutations for two lists in a row are those of the first followed by those of the second, which is what makes the loop's sent list grow one draft at a time |
| Drafts.RequestsPrefix | src/app/page.tsx:162-199 | the mutations for the first `k` drafts are the first `k` mutations of the whole list |
| Drafts.LeadingSuccesses | src/app/page.tsx:162-199 | the count of leading successful creates: all creates before it succeeded, and the one at it failed |
| Drafts.LeadingSuccessesUnique | src/app/page.tsx:162-199 | any position preceded only by successes and stopped by a failure, or by the end, is that count |
| Drafts.NoCreatesWithoutTokenOrTeam | src/app/page.tsx:107-145 | without a token, or without a resolvable team, no create is sent |
| Drafts.CreatedFormPrefix | src/app/page.tsx:160-206 | the created drafts are a prefix of the list, all of them successful; at most one failed create is sent, and nothing after it |
| Drafts.AllImportedIff | src/app/page.tsx:198-202 | "All N issues have been imported" happens exactly when a token and team exist and every create succeeded, with N the list length |
| Drafts.FailureIsNotSkipped | src/app/page.tsx:183-205 | with two drafts where only the first create fails, nothing is created and the second draft is never sent |
| Home.HomePage.constructor | src/app/page.tsx:216-236 | mounting stores the token and moves to step 1 exactly when the callback connects, and otherwise stays on step 0 without a token; the exchange is posted only after the `state` checks pass |
| Home.HomePage.StepEffect | src/app/page.tsx:238-242 | a non-empty list moves to step 2; the step never decreases |
| Home.HomePage.ExtractIssues | src/app/page.tsx:345-363 | empty text sends nothing; with text, the outcome follows the reply: a failed request or invalid payload leaves the drafts and step unchanged and the AI flag raised; a valid payload replaces the drafts, lowers the flag and moves to step 2 when it is non-empty |
| Home.HomePage.RemoveIssue | src/app/page.tsx:244-252 | the list becomes the list with the indexed element removed; the page invariant (non-empty list ⇒ step 2) is kept |
| Home.HomePage.EditIssue | src/app/page.tsx:254-264 | the list becomes the edited list; the page invariant is kept |
| Home.HomePage.CreateIssue | src/app/page.tsx:106-207 | the outcome is `ImportPlan`; the mutations sent are exactly those for the attempted prefix of the drafts, in order; the importing flag comes down only when everything was imported |
| Home.HomePage.ImportIssues | src/app/page.tsx:405-411 | the importing flag is raised and stays raised unless every create succeeded; the mutations sent carry the drafts' titles and descriptions in list order |

## Left out

- Rendering and styling are not modelled. This covers all JSX, `ProgressBar`, `IssueCard` and the other components. The page passes an `onEdit` callback to `IssueCard` (`src/app/page.tsx:454`), but the card's props declare no such prop and the card never calls it. So `editIssue` is modelled as a list operation only.
- The extraction endpoint (`src/app/api/chat/route.ts`) and the schema library are not modelled. Their combined effect is the parameter `Home.ChatReply`: the request throws, the payload fails the issue schema, or it is a valid list of drafts.
- `openLinearAuth` is not modelled. It generates the random nonce, stores it and navigates to the URL. The stored nonce is a parameter of `Home.HomePage.constructor`.
- Logging, `console` output, `alert`, and the `toast.promise` messages per create are not modelled. The toasts of the recording widget are modelled.
- `clearURLParams` is not modelled, because it manipulates browser history.
- The clock is a parameter. The reset header is kept as milliseconds; its rendering as an ISO date string is not modelled.
- Asynchronous interleaving is not modelled. Each handler runs to completion as one method call. This leaves out double clicks during an import, and two route requests racing on the limiter table.
- Floating-point rounding is not modelled. Durations are exact reals, which agree with the code at the 65-second boundary.
- `RATE_LIMIT_CONFIG` is modelled as a lookup of the one configured endpoint. An endpoint name that happens to be an `Object.prototype` key, such as "constructor", is not modelled.
- `SpeechToTextComponent.FormatTime` is modelled for non-negative counters only. The counter is never negative.
- `Drafts.EditIssue` requires the index to be in range. JavaScript would instead extend the array, leaving holes.
- `SpeechToTextRoute.Post` models the upstream `text` as a string. An answer without `text` would serialise the transcription away; that case is not modelled.
- The outbound request details are not modelled: the `getUserMedia` constraints, the recorder's MIME type, the transcription model and prompt fields, and the request headers.
- The Apollo client's construction and its `query`/`mutate` calls are not modelled. `Apollo.CheckErrors` models what `linearQuery` and `linearMutation` do with the result.
- An undefined `LINEAR.OAUTH_ID` or secret is not modelled separately. The client id and secret are plain string parameters, which cover the text a template literal would render.
