/**
 The outbound calls the backend makes to the Jira client. The client itself
 is outside the model: a handler hands back the call it issues, and the
 client's answer is supplied as a function from calls to payloads.
 */
module Tracker {
  import opened Optional

  /** The raw JSON the tracker answers with; the backend never inspects it. */
  type Payload = string

  datatype TrackerCall =
    | JiraGetIssues(projectKey: string, assigneeId: string)
    | JiraGetIssue(issueId: string)
    | JiraCreateIssue(
        projectKey: string,
        summary: string,
        description: string,
        assignee: Option<string>,
        dueDate: Option<string>)
    | JiraGetIssueTransitions(issueId: string)
    | JiraTransitionIssue(issueId: string, transitionId: string)
}
