/**
 * The issue draft record (the shape `{ title, description }` of the issue
 * schema) and the equality check of `src/utils/index.ts`.
 */
module IssueUtils {
  import opened Wrappers

  /** One issue draft, as produced by extraction or by an edit. */
  datatype Issue = Issue(title: string, description: string)

  /**
   * `isIssueUnchanged(currentIssue, newTitle, newDescription)`: the current
   * issue exists and both of its fields equal the new values.
   */
  predicate IsIssueUnchanged(current: Option<Issue>, newTitle: string, newDescription: string) {
    current != None && current.value.title == newTitle && current.value.description == newDescription
  }

  /** The check holds exactly when the current issue is present and equals the edited one. */
  lemma UnchangedIffSameIssue(current: Option<Issue>, newTitle: string, newDescription: string)
    ensures IsIssueUnchanged(current, newTitle, newDescription) <==> current == Some(Issue(newTitle, newDescription))
  {
  }

  /** An absent issue is never "unchanged". */
  lemma MissingIssueIsChanged(newTitle: string, newDescription: string)
    ensures !IsIssueUnchanged(None, newTitle, newDescription)
  {
  }

  /** Comparing an issue with its own fields reports it unchanged. */
  lemma UnchangedReflexive(x: Issue)
    ensures IsIssueUnchanged(Some(x), x.title, x.description)
  {
  }

  /** Changing either field makes the check fail. */
  lemma ChangedFieldIsChanged(x: Issue, newTitle: string, newDescription: string)
    requires newTitle != x.title || newDescription != x.description
    ensures !IsIssueUnchanged(Some(x), newTitle, newDescription)
  {
  }
}
