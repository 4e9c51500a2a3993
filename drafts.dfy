/**
 * The pure logic of the import page (`src/app/page.tsx`): the draft list
 * operations, appending a transcription to the text box, the decision of
 * the OAuth redirect callback, and the plan of the sequential import.
 */
module Drafts {
  import opened Wrappers
  import opened Strings
  import opened IssueUtils

  /** `prev.issues.filter((_, idx) => idx !== index)`, where `pos` is the index of `issues[0]` in the whole list. */
  function FilterIndex(issues: seq<Issue>, index: int, pos: int): seq<Issue>
    decreases |issues|
  {
    if |issues| == 0 then []
    else (if pos != index then [issues[0]] else []) + FilterIndex(issues[1..], index, pos + 1)
  }

  /** The filter drops exactly the element at `index` when it is in range, and nothing otherwise. */
  lemma {:induction false} FilterIndexDropsOne(issues: seq<Issue>, index: int, pos: int)
    ensures pos <= index < pos + |issues| ==>
              FilterIndex(issues, index, pos) == issues[..index - pos] + issues[index - pos + 1..]
    ensures !(pos <= index < pos + |issues|) ==> FilterIndex(issues, index, pos) == issues
    decreases |issues|
  {
    if |issues| > 0 {
      FilterIndexDropsOne(issues[1..], index, pos + 1);
      if pos == index {
        assert issues[..0] + issues[1..] == issues[1..];
      } else if pos < index < pos + |issues| {
        assert issues[1..][..index - pos - 1] == issues[1..index - pos];
        assert [issues[0]] + issues[1..index - pos] == issues[..index - pos];
        assert issues[1..][index - pos - 1 + 1..] == issues[index - pos + 1..];
      } else {
        assert [issues[0]] + issues[1..] == issues;
      }
    }
  }

  /** `removeIssue(index)` on the `issues` state (null when nothing was extracted). */
  function RemoveIssue(issues: Option<seq<Issue>>, index: int): Option<seq<Issue>> {
    if issues.None? then None else Some(FilterIndex(issues.value, index, 0))
  }

  /**
   * A null list stays null; otherwise exactly the element at `index` is
   * removed and the others keep their order; an index out of range changes
   * nothing.
   */
  lemma RemoveIssueSpec(issues: Option<seq<Issue>>, index: int)
    ensures issues.None? ==> RemoveIssue(issues, index) == None
    ensures issues.Some? && 0 <= index < |issues.value| ==>
              RemoveIssue(issues, index) == Some(issues.value[..index] + issues.value[index + 1..])
    ensures issues.Some? && !(0 <= index < |issues.value|) ==> RemoveIssue(issues, index) == issues
  {
    if issues.Some? {
      FilterIndexDropsOne(issues.value, index, 0);
    }
  }

  /** `editIssue(index, title, description)`; the code does not guard the index. */
  function EditIssue(issues: Option<seq<Issue>>, index: int, title: string, description: string): (r: Option<seq<Issue>>)
    requires issues.Some? ==> 0 <= index < |issues.value|
    ensures issues.None? <==> r.None?
    ensures r.Some? ==> |r.value| == |issues.value|
    ensures r.Some? ==> IsIssueUnchanged(Some(r.value[index]), title, description)
    ensures r.Some? ==> forall i | 0 <= i < |r.value| && i != index :: r.value[i] == issues.value[i]
  {
    if issues.None? then None else Some(issues.value[index := Issue(title, description)])
  }

  /**
   * Indices renumber after a delete: editing slot `index` after deleting
   * slot `index` edits the element that used to follow it.
   */
  lemma DeleteThenEditRenumbers(issues: seq<Issue>, index: nat, title: string, description: string)
    requires index + 1 < |issues|
    ensures var afterDelete := RemoveIssue(Some(issues), index);
            && afterDelete.Some? && index < |afterDelete.value|
            && afterDelete.value[index] == issues[index + 1]
            && EditIssue(afterDelete, index, title, description)
               == Some(issues[..index] + [Issue(title, description)] + issues[index + 2..])
  {
    RemoveIssueSpec(Some(issues), index);
    var rest := issues[..index] + issues[index + 1..];
    assert rest[index := Issue(title, description)] == issues[..index] + [Issue(title, description)] + issues[index + 2..];
  }

  /**
   * `handleTranscription(text)` on the text box's value (absent when the box
   * is not mounted): non-blank content gets a blank line and the text
   * appended; blank content is replaced by the text.
   */
  function HandleTranscription(textArea: Option<string>, text: string): Option<string> {
    if textArea.None? then None
    else if !IsBlank(textArea.value) then Some(textArea.value + "\n\n" + text)
    else Some(text)
  }

  /** Existing content is kept in front of the text; whitespace-only content is dropped. */
  lemma HandleTranscriptionSpec(current: string, text: string)
    ensures var r := HandleTranscription(Some(current), text).value;
            && (!IsBlank(current) ==> StartsWith(r, current) && r[|current|..] == "\n\n" + text)
            && (IsBlank(current) ==> r == text)
    ensures HandleTranscription(None, text) == None
  {
  }

  /** The ways the OAuth redirect callback can end. */
  datatype CallbackOutcome =
    | NoCode          // no `code` parameter: not a redirect back
    | ForeignState    // `state` missing or without "linear": returns silently
    | StateMismatch   // `state` differs from the stored nonce: an alert, no exchange
    | ExchangeFailed  // the exchange answered without `access_token`: an error toast
    | Connected(token: string)

  /**
   * The callback effect: `code` and `state` are the query parameters,
   * `stored` the `linear-verification` value in local storage, and
   * `accessToken` the `access_token` the exchange returns (used only when
   * the exchange is made).
   */
  function OAuthCallback(code: Option<string>, state: Option<string>, stored: Option<string>,
                         accessToken: Option<string>): CallbackOutcome
  {
    if code.None? then NoCode
    else if state.None? || !Contains(state.value, "linear") then ForeignState
    else if state != stored then StateMismatch
    else if !Truthy(accessToken) then ExchangeFailed
    else Connected(accessToken.value)
  }

  /** The exchange is requested only after the `state` checks pass. */
  predicate ExchangeRequested(outcome: CallbackOutcome) {
    outcome.ExchangeFailed? || outcome.Connected?
  }

  /**
   * The callback connects exactly when all four checks pass, and the stored
   * nonce then equals the returned `state` (the CSRF check of section
   * 10.12 of RFC 6749).
   */
  lemma CallbackConnectsIff(code: Option<string>, state: Option<string>, stored: Option<string>, accessToken: Option<string>)
    ensures OAuthCallback(code, state, stored, accessToken).Connected? <==>
              && code.Some?
              && state.Some? && Contains(state.value, "linear")
              && state == stored
              && Truthy(accessToken)
    ensures OAuthCallback(code, state, stored, accessToken).Connected? ==>
              stored.Some? && stored == state && OAuthCallback(code, state, stored, accessToken).token == accessToken.value
  {
  }

  /** A returned `state` carrying "linear" but differing from the stored nonce raises the alert and never reaches the exchange. */
  lemma MismatchAlerts(code: Option<string>, state: Option<string>, stored: Option<string>, accessToken: Option<string>)
    ensures OAuthCallback(code, state, stored, accessToken).StateMismatch? <==>
              code.Some? && state.Some? && Contains(state.value, "linear") && state != stored
    ensures ExchangeRequested(OAuthCallback(code, state, stored, accessToken)) ==> state == stored
  {
  }

  /** One `issueCreate` mutation: `{ teamId, title, description }`. */
  datatype CreateRequest = CreateRequest(teamId: string, title: string, description: string)

  /** The mutations for `items`, in list order. */
  function Requests(teamId: string, items: seq<Issue>): (r: seq<CreateRequest>)
    ensures |r| == |items|
    ensures forall i | 0 <= i < |items| :: r[i] == CreateRequest(teamId, items[i].title, items[i].description)
    decreases |items|
  {
    if |items| == 0 then []
    else [CreateRequest(teamId, items[0].title, items[0].description)] + Requests(teamId, items[1..])
  }

  /** The mutations for two lists in a row are those of the first list followed by those of the second. */
  lemma RequestsAppend(teamId: string, a: seq<Issue>, b: seq<Issue>)
    ensures Requests(teamId, a + b) == Requests(teamId, a) + Requests(teamId, b)
  {
  }

  /** The mutations for a prefix of the list are the same prefix of the list's mutations. */
  lemma RequestsPrefix(teamId: string, items: seq<Issue>, k: nat)
    requires k <= |items|
    ensures Requests(teamId, items[..k]) == Requests(teamId, items)[..k]
  {
  }

  /** The number of leading creates whose `success` is true. */
  function LeadingSuccesses(outcomes: seq<bool>): (k: nat)
    ensures k <= |outcomes|
    ensures forall i | 0 <= i < k :: outcomes[i]
    ensures k < |outcomes| ==> !outcomes[k]
  {
    if |outcomes| == 0 || !outcomes[0] then 0 else 1 + LeadingSuccesses(outcomes[1..])
  }

  /** The viewer-teams query: it throws, or yields the first team's id if there is one. */
  datatype TeamLookup = ViewerThrows | Viewer(teamId: Option<string>)

  /** How `createIssue` ends. */
  datatype ImportOutcome =
    | MissingToken           // no access token: an error toast, nothing sent
    | NoTeam                 // no team id: an error toast, no create sent
    | UnexpectedError        // the viewer query threw: the catch-all toast, no create sent
    | Aborted(failedAt: nat) // the create at this index failed; the later ones were never sent
    | AllImported(total: nat)// every create succeeded: "All N issues have been imported"

  /**
   * What `createIssue` does for a given access token, team lookup and
   * outcome of each create mutation (`outcomes[i]` is whether the `i`-th
   * create reported `success`; a thrown fetch counts as false).
   */
  function ImportPlan(accessToken: Option<string>, team: TeamLookup, outcomes: seq<bool>): ImportOutcome {
    if !Truthy(accessToken) then MissingToken
    else if team.ViewerThrows? then UnexpectedError
    else if !Truthy(team.teamId) then NoTeam
    else
      var k := LeadingSuccesses(outcomes);
      if k < |outcomes| then Aborted(k) else AllImported(|outcomes|)
  }

  /** How many create mutations the plan sends: the successes, plus the failing one if any. */
  function Attempted(plan: ImportOutcome): nat {
    match plan
    case Aborted(k) => k + 1
    case AllImported(n) => n
    case _ => 0
  }

  /** How many issues the plan creates. */
  function CreatedCount(plan: ImportOutcome): nat {
    match plan
    case Aborted(k) => k
    case AllImported(n) => n
    case _ => 0
  }

  /** Without a token or without a resolvable team, not a single create is sent. */
  lemma NoCreatesWithoutTokenOrTeam(accessToken: Option<string>, team: TeamLookup, outcomes: seq<bool>)
    requires !Truthy(accessToken) || team.ViewerThrows? || !Truthy(team.teamId)
    ensures Attempted(ImportPlan(accessToken, team, outcomes)) == 0
  {
  }

  /**
   * The import stops at the first failed create: the issues created are a
   * prefix of the list, each of them succeeded, at most one failure is
   * seen, and every issue after the failure is never sent.
   */
  lemma CreatedFormPrefix(accessToken: Option<string>, team: TeamLookup, outcomes: seq<bool>)
    ensures var plan := ImportPlan(accessToken, team, outcomes);
            && CreatedCount(plan) <= Attempted(plan) <= |outcomes|
            && Attempted(plan) <= CreatedCount(plan) + 1
            && (forall i | 0 <= i < CreatedCount(plan) :: outcomes[i])
            && (plan.Aborted? ==> !outcomes[plan.failedAt] && Attempted(plan) == plan.failedAt + 1)
  {
  }

  /** The "All N issues" message (and the reset of the importing flag) happens exactly when every create succeeded. */
  lemma AllImportedIff(accessToken: Option<string>, team: TeamLookup, outcomes: seq<bool>)
    ensures ImportPlan(accessToken, team, outcomes).AllImported? <==>
              Truthy(accessToken) && team.Viewer? && Truthy(team.teamId) && (forall i | 0 <= i < |outcomes| :: outcomes[i])
    ensures ImportPlan(accessToken, team, outcomes).AllImported? ==> ImportPlan(accessToken, team, outcomes).total == |outcomes|
  {
  }

  /**
   * A failed create is not skipped: with two issues where only the second
   * create would succeed, nothing is created and the second issue is never sent.
   */
  lemma FailureIsNotSkipped(accessToken: string, teamId: string)
    requires accessToken != "" && teamId != ""
    ensures ImportPlan(Some(accessToken), Viewer(Some(teamId)), [false, true]) == Aborted(0)
    ensures CreatedCount(Aborted(0)) == 0 && Attempted(Aborted(0)) == 1
  {
  }

  /** Any count that is preceded only by successes and stopped by a failure (or the end) is the count of leading successes. */
  lemma LeadingSuccessesUnique(outcomes: seq<bool>, k: nat)
    requires k <= |outcomes|
    requires forall i | 0 <= i < k :: outcomes[i]
    requires k < |outcomes| ==> !outcomes[k]
    ensures LeadingSuccesses(outcomes) == k
  {
  }
}
