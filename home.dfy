/**
 * The import page (`Home` in `src/app/page.tsx`) as an object: its React
 * state variables are the fields, each event handler and effect is a
 * method. Network answers (the token exchange, the extraction endpoint,
 * the GraphQL calls) are parameters; what the page sends is recorded in
 * the `exchanges`, `chatRequests` and `sent` fields.
 */
module Home {
  import opened Wrappers
  import opened Strings
  import opened IssueUtils
  import opened Drafts

  /** The extraction endpoint's answer after `issuesSchema.safeParse`. */
  datatype ChatReply = ChatThrows | SchemaInvalid | SchemaValid(issues: seq<Issue>)

  /** How the "Create Issues" click ends. */
  datatype ExtractOutcome =
    | NoText        // "No text to process", no request
    | RequestFailed // the fetch or `response.json()` rejected
    | ParseFailed   // "Failed to parse response"
    | Extracted(count: nat)

  class HomePage {
    var accessToken: Option<string>
    var issues: Option<seq<Issue>>
    var currentStep: int
    var isCreatingTicketsWithAI: bool
    var isCreatingLinearTickets: bool
    /** Authorization codes sent to the token exchange. */
    var exchanges: seq<string>
    /** Texts posted to the extraction endpoint. */
    var chatRequests: seq<string>
    /** `issueCreate` mutations sent, in order. */
    var sent: seq<CreateRequest>

    /**
     * The step is one of Connect (0), Prepare (1), Import (2); a stored
     * token is never empty; a non-empty draft list means the Import step.
     */
    ghost predicate Valid()
      reads this
    {
      && 0 <= currentStep <= 2
      && (accessToken.Some? ==> accessToken.value != "")
      && (issues.Some? && |issues.value| > 0 ==> currentStep == 2)
    }

    /**
     * Mounting the page: the initial state, then the OAuth callback effect
     * for the query parameters `code` and `state`, the stored nonce
     * `stored` and the `access_token` the exchange would return.
     */
    constructor (code: Option<string>, state: Option<string>, stored: Option<string>, exchangeReply: Option<string>)
      ensures Valid()
      ensures var outcome := OAuthCallback(code, state, stored, exchangeReply);
              && (outcome.Connected? ==> accessToken == Some(outcome.token) && currentStep == 1)
              && (!outcome.Connected? ==> accessToken == None && currentStep == 0)
              && exchanges == (if ExchangeRequested(outcome) then [code.value] else [])
      ensures issues == None && !isCreatingTicketsWithAI && !isCreatingLinearTickets
      ensures chatRequests == [] && sent == []
    {
      accessToken := None;
      issues := None;
      currentStep := 0;
      isCreatingTicketsWithAI := false;
      isCreatingLinearTickets := false;
      exchanges := [];
      chatRequests := [];
      sent := [];
      if code.Some? && state.Some? && Contains(state.value, "linear") {
        if state == stored {
          exchanges := [code.value];
          if exchangeReply.Some? && exchangeReply.value != "" {
            accessToken := exchangeReply;
            currentStep := 1;
          }
        }
      }
    }

    /** The effect on `issues`: a non-empty list moves the page to the Import step. */
    method StepEffect()
      modifies this`currentStep
      requires 0 <= currentStep <= 2
      ensures currentStep == if issues.Some? && |issues.value| > 0 then 2 else old(currentStep)
      ensures currentStep >= old(currentStep)
    {
      if issues.Some? && |issues.value| > 0 {
        currentStep := 2;
      }
    }

    /** The "Create Issues" click with the text box's `text` and the endpoint's `reply`. */
    method ExtractIssues(text: Option<string>, reply: ChatReply) returns (outcome: ExtractOutcome)
      requires Valid()
      modifies this
      ensures Valid()
      ensures !Truthy(text) ==> outcome == NoText && chatRequests == old(chatRequests)
      ensures Truthy(text) ==> chatRequests == old(chatRequests) + [text.value]
      ensures Truthy(text) ==>
                outcome == match reply
                           case ChatThrows => RequestFailed
                           case SchemaInvalid => ParseFailed
                           case SchemaValid(list) => Extracted(|list|)
      ensures outcome.Extracted? <==> Truthy(text) && reply.SchemaValid?
      ensures outcome.Extracted? ==>
                && issues == Some(reply.issues) && outcome.count == |reply.issues|
                && !isCreatingTicketsWithAI
                && currentStep == (if |reply.issues| > 0 then 2 else old(currentStep))
      ensures !outcome.Extracted? ==> issues == old(issues) && currentStep == old(currentStep)
      ensures outcome.RequestFailed? || outcome.ParseFailed? ==> isCreatingTicketsWithAI
      ensures outcome.NoText? ==> isCreatingTicketsWithAI == old(isCreatingTicketsWithAI)
      ensures accessToken == old(accessToken) && exchanges == old(exchanges) && sent == old(sent)
      ensures isCreatingLinearTickets == old(isCreatingLinearTickets)
    {
      if text.None? || text.value == "" {
        return NoText;
      }
      isCreatingTicketsWithAI := true;
      chatRequests := chatRequests + [text.value];
      match reply {
        case ChatThrows =>
          outcome := RequestFailed;
        case SchemaInvalid =>
          outcome := ParseFailed;
        case SchemaValid(list) =>
          isCreatingTicketsWithAI := false;
          issues := Some(list);
          StepEffect();
          outcome := Extracted(|list|);
      }
    }

    /** The delete button of the card at `index`. */
    method RemoveIssue(index: int)
      requires Valid()
      modifies this`issues
      ensures Valid()
      ensures issues == Drafts.RemoveIssue(old(issues), index)
      ensures old(issues).Some? && 0 <= index < |old(issues).value| ==>
                issues.value == old(issues).value[..index] + old(issues).value[index + 1..]
    {
      RemoveIssueSpec(issues, index);
      issues := Drafts.RemoveIssue(issues, index);
    }

    /** Editing the card at `index` (the code requires the slot to exist). */
    method EditIssue(index: int, title: string, description: string)
      requires Valid()
      requires issues.Some? ==> 0 <= index < |issues.value|
      modifies this`issues
      ensures Valid()
      ensures issues == Drafts.EditIssue(old(issues), index, title, description)
    {
      issues := Drafts.EditIssue(issues, index, title, description);
    }

    /**
     * `createIssue(items)`: resolve the team, then send one create per
     * item in list order, each awaited before the next; `outcomes[i]` is
     * whether the `i`-th create reported success. The first failure ends
     * the loop.
     */
    method CreateIssue(items: seq<Issue>, team: TeamLookup, outcomes: seq<bool>) returns (result: ImportOutcome)
      requires |outcomes| == |items|
      modifies this`sent, this`isCreatingLinearTickets
      ensures result == ImportPlan(accessToken, team, outcomes)
      ensures Attempted(result) == 0 ==> sent == old(sent)
      ensures Attempted(result) > 0 ==>
                team.Viewer? && team.teamId.Some? &&
                sent == old(sent) + Requests(team.teamId.value, items[..Attempted(result)])
      ensures isCreatingLinearTickets == if result.AllImported? then false else old(isCreatingLinearTickets)
    {
      if accessToken.None? || accessToken.value == "" {
        return MissingToken;
      }
      if team.ViewerThrows? {
        return UnexpectedError;
      }
      if team.teamId.None? || team.teamId.value == "" {
        return NoTeam;
      }
      var teamId := team.teamId.value;
      var i := 0;
      while i < |items|
        invariant 0 <= i <= |items|
        invariant forall j | 0 <= j < i :: outcomes[j]
        invariant sent == old(sent) + Requests(teamId, items[..i])
        invariant isCreatingLinearTickets == old(isCreatingLinearTickets)
        invariant accessToken == old(accessToken)
      {
        assert items[..i + 1] == items[..i] + [items[i]];
        RequestsAppend(teamId, items[..i], [items[i]]);
        sent := sent + [CreateRequest(teamId, items[i].title, items[i].description)];
        if !outcomes[i] {
          LeadingSuccessesUnique(outcomes, i);
          return Aborted(i);
        }
        i := i + 1;
      }
      LeadingSuccessesUnique(outcomes, |outcomes|);
      assert items[..i] == items;
      isCreatingLinearTickets := false;
      result := AllImported(|items|);
    }

    /**
     * The "Import to Linear" click, available on the Import step with a
     * non-empty list: raise the importing flag, then `createIssue`. The
     * flag comes down only when every issue was created.
     */
    method ImportIssues(team: TeamLookup, outcomes: seq<bool>) returns (result: ImportOutcome)
      requires Valid()
      requires issues.Some? && |outcomes| == |issues.value|
      modifies this`sent, this`isCreatingLinearTickets
      ensures Valid()
      ensures result == ImportPlan(accessToken, team, outcomes)
      ensures isCreatingLinearTickets <==> !result.AllImported?
      ensures |sent| == |old(sent)| + Attempted(result)
      ensures forall i | 0 <= i < Attempted(result) ::
                sent[|old(sent)| + i].title == issues.value[i].title &&
                sent[|old(sent)| + i].description == issues.value[i].description
    {
      isCreatingLinearTickets := true;
      result := CreateIssue(issues.value, team, outcomes);
      CreatedFormPrefix(accessToken, team, outcomes);
    }
  }
}
