/**
 The route handlers that read or change the store, and the issue handlers
 that only forward their arguments to the tracker. Each handler is a pure
 function from the current store to a `Reply`: the store afterwards, the
 tracker call it issued (if any) and the JSON body it answers with.
 */
module Handlers {
  import opened Optional
  import opened Db
  import opened Tracker

  /** Body of a `createIssue` request; the two optional fields default to `None`. */
  datatype CreateIssueRequest = CreateIssueRequest(
    title: string,
    description: string,
    assigneeId: Option<string>,
    dueDate: Option<string>)

  /** Body of a `transitionIssue` request. */
  datatype TransitionIssueRequest = TransitionIssueRequest(issueId: string, transitionId: string)

  datatype Body =
    | Error(message: string)           // {"error": message}
    | MeetingLink(meetingId: string)   // {"meeting_link": meetingId}
    | UserInfo(user: User)             // {"user": user}
    | IssueList(issues: Payload)       // {"issues": issues}
    | IssueDetail(issue: Payload)      // {"issue": issue}
    | TransitionList(transitions: Payload)  // {"transitions": transitions}
    | Forwarded(result: Payload)       // the tracker's answer, returned as is
    | Success                          // {"success": true}
    | ServerError                      // an uncaught lookup failure (HTTP 500)

  datatype Reply = Reply(store: Store, call: Option<TrackerCall>, body: Body)

  const UserNotFound: string := "User not found"
  const MeetingNotFound: string := "Meeting not found"

  /** `POST /user/{userId}/generate_meeting`. `freshId` is the random token the
      handler draws; the model takes it as an input. */
  function GenerateMeeting(s: Store, userId: string, freshId: string): (r: Reply)
    ensures r.call == None
    ensures userId !in s.users ==> r.store == s && r.body == Error(UserNotFound)
    ensures userId in s.users ==>
      && r.body == MeetingLink(freshId)
      && freshId in r.store.meetings
      && r.store.meetings[freshId] == Meeting(freshId, userId)
    ensures r.store.users == s.users && r.store.projectKey == s.projectKey
    ensures forall k :: k != freshId ==> SameOn(s.meetings, r.store.meetings, k)
    ensures Valid(s) ==> Valid(r.store)
    ensures SelfKeyed(s) ==> SelfKeyed(r.store)
  {
    if userId !in s.users then
      Reply(s, None, Error(UserNotFound))
    else
      var m := Meeting(freshId, userId);
      Reply(PutMeeting(s, m), None, MeetingLink(freshId))
  }

  /** `GET /meeting/{meetingId}/user`. */
  function GetUserInfo(s: Store, meetingId: string): (r: Reply)
    ensures r.store == s && r.call == None
    ensures meetingId !in s.meetings ==> r.body == Error(MeetingNotFound)
    ensures meetingId in s.meetings && s.meetings[meetingId].userId in s.users ==>
      r.body == UserInfo(s.users[s.meetings[meetingId].userId])
    ensures r.body == ServerError <==>
      meetingId in s.meetings && s.meetings[meetingId].userId !in s.users
  {
    if meetingId !in s.meetings then
      Reply(s, None, Error(MeetingNotFound))
    else if s.meetings[meetingId].userId !in s.users then
      Reply(s, None, ServerError)
    else
      Reply(s, None, UserInfo(Owner(s, meetingId)))
  }

  /** `GET /meeting/{meetingId}/api/jira/getIssues`: lists the issues assigned
      to the meeting owner in the configured project. */
  function GetIssues(s: Store, meetingId: string, tracker: TrackerCall -> Payload): (r: Reply)
    ensures r.store == s
    ensures meetingId !in s.meetings ==> r.call == None && r.body == Error(MeetingNotFound)
    ensures r.call.Some? <==>
      meetingId in s.meetings && s.meetings[meetingId].userId in s.users
    ensures r.call.Some? ==>
      && r.call.value == JiraGetIssues(s.projectKey, s.users[s.meetings[meetingId].userId].jiraId)
      && r.body == IssueList(tracker(r.call.value))
    ensures r.body == ServerError <==>
      meetingId in s.meetings && s.meetings[meetingId].userId !in s.users
  {
    if meetingId !in s.meetings then
      Reply(s, None, Error(MeetingNotFound))
    else if s.meetings[meetingId].userId !in s.users then
      Reply(s, None, ServerError)
    else
      var call := JiraGetIssues(s.projectKey, Owner(s, meetingId).jiraId);
      Reply(s, Some(call), IssueList(tracker(call)))
  }

  /** `GET /meeting/{meetingId}/api/jira/getIssue`. The meeting identifier is
      accepted but never looked up. */
  function GetIssue(s: Store, meetingId: string, issueId: string, tracker: TrackerCall -> Payload): (r: Reply)
    ensures r.store == s
    ensures r.call.Some? && r.call.value.JiraGetIssue? && r.call.value.issueId == issueId
    ensures r.body == IssueDetail(tracker(r.call.value))
  {
    var call := JiraGetIssue(issueId);
    Reply(s, Some(call), IssueDetail(tracker(call)))
  }

  /** `POST /meeting/{meetingId}/api/jira/createIssue`: creates an issue in the
      configured project; the title becomes the issue summary. */
  function CreateIssue(s: Store, meetingId: string, req: CreateIssueRequest, tracker: TrackerCall -> Payload): (r: Reply)
    ensures r.store == s
    ensures r.call.Some? && r.call.value.JiraCreateIssue?
    ensures r.call.value.projectKey == s.projectKey
    ensures r.call.value.summary == req.title && r.call.value.description == req.description
    ensures r.call.value.assignee == req.assigneeId && r.call.value.dueDate == req.dueDate
    ensures r.body == Forwarded(tracker(r.call.value))
  {
    var call := JiraCreateIssue(s.projectKey, req.title, req.description, req.assigneeId, req.dueDate);
    Reply(s, Some(call), Forwarded(tracker(call)))
  }

  /** `GET /meeting/{meetingId}/api/jira/getIssueTransitions`. */
  function GetIssueTransitions(s: Store, meetingId: string, issueId: string, tracker: TrackerCall -> Payload): (r: Reply)
    ensures r.store == s
    ensures r.call.Some? && r.call.value.JiraGetIssueTransitions? && r.call.value.issueId == issueId
    ensures r.body == TransitionList(tracker(r.call.value))
  {
    var call := JiraGetIssueTransitions(issueId);
    Reply(s, Some(call), TransitionList(tracker(call)))
  }

  /** `POST /meeting/{meetingId}/api/jira/transitionIssue`. */
  function ChangeIssueStatus(s: Store, meetingId: string, req: TransitionIssueRequest, tracker: TrackerCall -> Payload): (r: Reply)
    ensures r.store == s
    ensures r.call.Some? && r.call.value.JiraTransitionIssue?
    ensures r.call.value.issueId == req.issueId && r.call.value.transitionId == req.transitionId
    ensures r.body == Forwarded(tracker(r.call.value))
  {
    var call := JiraTransitionIssue(req.issueId, req.transitionId);
    Reply(s, Some(call), Forwarded(tracker(call)))
  }

  /** `POST /save_db`: the store is written out as it stands; the in-memory
      store is the snapshot and is left as it was. */
  function SaveDb(s: Store): (r: Reply)
    ensures r.store == s && r.call == None && r.body == Success
  {
    Reply(s, None, Success)
  }

  /** Under referential integrity, a known meeting always resolves to its
      owner and lets the issue listing reach the tracker: the lookup-failure
      branch is dead. */
  lemma ValidMeetingResolves(s: Store, meetingId: string, tracker: TrackerCall -> Payload)
    requires Valid(s) && meetingId in s.meetings
    ensures GetUserInfo(s, meetingId).body == UserInfo(Owner(s, meetingId))
    ensures GetIssues(s, meetingId, tracker).call == Some(JiraGetIssues(s.projectKey, Owner(s, meetingId).jiraId))
  {
  }

  /** Round trip: the link handed out for user `userId` resolves to that
      user's record, and lists issues under that user's tracker identity,
      whatever token was drawn and whatever the store held under it before. */
  lemma GenerateThenResolve(s: Store, userId: string, freshId: string, tracker: TrackerCall -> Payload)
    requires userId in s.users
    ensures GenerateMeeting(s, userId, freshId).body == MeetingLink(freshId)
    ensures GetUserInfo(GenerateMeeting(s, userId, freshId).store, freshId).body == UserInfo(s.users[userId])
    ensures GetIssues(GenerateMeeting(s, userId, freshId).store, freshId, tracker).call
      == Some(JiraGetIssues(s.projectKey, s.users[userId].jiraId))
  {
  }

  /** Generation adds one meeting for a known user and a fresh token, none
      for an unknown user, and none when the token is already in use (the
      old record is overwritten). */
  lemma GenerateMeetingCount(s: Store, userId: string, freshId: string)
    ensures userId !in s.users ==> |GenerateMeeting(s, userId, freshId).store.meetings| == |s.meetings|
    ensures userId in s.users && freshId !in s.meetings ==>
      |GenerateMeeting(s, userId, freshId).store.meetings| == |s.meetings| + 1
    ensures userId in s.users && freshId in s.meetings ==>
      |GenerateMeeting(s, userId, freshId).store.meetings| == |s.meetings|
  {
  }
}
