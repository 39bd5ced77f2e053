/**
 Requests arriving one after another at the backend. `Handle` routes one
 request to its handler; `Run` replays a sequence of them against a store.
 The lemmas here are about what any such sequence can and cannot do to the
 store.
 */
module Traces {
  import opened Optional
  import opened Db
  import opened Tracker
  import opened Handlers

  datatype Request =
    | GenerateMeetingReq(userId: string, freshId: string)
    | GetUserInfoReq(meetingId: string)
    | GetIssuesReq(meetingId: string)
    | GetIssueReq(meetingId: string, issueId: string)
    | CreateIssueReq(meetingId: string, create: CreateIssueRequest)
    | GetIssueTransitionsReq(meetingId: string, issueId: string)
    | ChangeIssueStatusReq(meetingId: string, transition: TransitionIssueRequest)
    | SaveDbReq

  /** The store a sequence of requests leaves behind, the bodies answered in
      order, and the tracker calls issued in order. */
  datatype Trace = Trace(final: Store, bodies: seq<Body>, calls: seq<TrackerCall>)

  /** Jira's answer to a call made while handling the request at a given
      position of a sequence. Indexing by position lets the answer to the
      same call change once earlier requests have changed Jira's state. */
  type Oracle = (nat, TrackerCall) -> Payload

  /** The answers Jira gives while the request at position `n` is handled. */
  function AtStep(tracker: Oracle, n: nat): TrackerCall -> Payload {
    c => tracker(n, c)
  }

  /** The same answers, seen from one position further on. */
  function Later(tracker: Oracle): Oracle {
    (n: nat, c: TrackerCall) => tracker(n + 1, c)
  }

  /** A call that names a project names `key`. */
  predicate ScopedTo(call: TrackerCall, key: string) {
    (call.JiraGetIssues? || call.JiraCreateIssue?) ==> call.projectKey == key
  }

  /** One request, routed to its handler. Only meeting generation writes to
      the store, and it never removes a meeting or touches users or the
      project key. */
  function Handle(s: Store, req: Request, tracker: TrackerCall -> Payload): (r: Reply)
    ensures r.store.users == s.users && r.store.projectKey == s.projectKey
    ensures s.meetings.Keys <= r.store.meetings.Keys
    ensures !req.GenerateMeetingReq? ==> r.store == s
    ensures Valid(s) ==> Valid(r.store) && r.body != ServerError
    ensures SelfKeyed(s) ==> SelfKeyed(r.store)
    ensures r.call.Some? ==> ScopedTo(r.call.value, s.projectKey)
    ensures req.GenerateMeetingReq? || req.GetUserInfoReq? || req.SaveDbReq? ==> r.call == None
    ensures forall m :: Resolves(s, m) ==> Resolves(r.store, m)
  {
    match req
    case GenerateMeetingReq(u, id) =>
      var r := GenerateMeeting(s, u, id);
      assert s.meetings.Keys <= r.store.meetings.Keys by {
        forall k | k in s.meetings ensures k in r.store.meetings {
          if k != id { assert SameOn(s.meetings, r.store.meetings, k); }
        }
      }
      assert forall m :: Resolves(s, m) ==> Resolves(r.store, m) by {
        forall m | Resolves(s, m) ensures Resolves(r.store, m) {
          if m != id { assert SameOn(s.meetings, r.store.meetings, m); }
        }
      }
      r
    case GetUserInfoReq(m) => GetUserInfo(s, m)
    case GetIssuesReq(m) => GetIssues(s, m, tracker)
    case GetIssueReq(m, i) => GetIssue(s, m, i, tracker)
    case CreateIssueReq(m, c) => CreateIssue(s, m, c, tracker)
    case GetIssueTransitionsReq(m, i) => GetIssueTransitions(s, m, i, tracker)
    case ChangeIssueStatusReq(m, t) => ChangeIssueStatus(s, m, t, tracker)
    case SaveDbReq => SaveDb(s)
  }

  /** Replays `reqs` in order, each against the store the previous one left. */
  function Run(s: Store, reqs: seq<Request>, tracker: Oracle): (t: Trace)
    ensures t.final.users == s.users && t.final.projectKey == s.projectKey
    ensures s.meetings.Keys <= t.final.meetings.Keys
    ensures |t.bodies| == |reqs| && |t.calls| <= |reqs|
    decreases |reqs|
  {
    if reqs == [] then
      Trace(s, [], [])
    else
      var r := Handle(s, reqs[0], AtStep(tracker, 0));
      var rest := Run(r.store, reqs[1..], Later(tracker));
      var issued := if r.call.Some? then [r.call.value] else [];
      Trace(rest.final, [r.body] + rest.bodies, issued + rest.calls)
  }

  /** Referential integrity and self-keying survive every sequence of requests. */
  lemma {:induction false} RunPreservesInvariants(s: Store, reqs: seq<Request>, tracker: Oracle)
    ensures Valid(s) ==> Valid(Run(s, reqs, tracker).final)
    ensures SelfKeyed(s) ==> SelfKeyed(Run(s, reqs, tracker).final)
    decreases |reqs|
  {
    if reqs != [] {
      RunPreservesInvariants(Handle(s, reqs[0], AtStep(tracker, 0)).store, reqs[1..], Later(tracker));
    }
  }

  /** From a store with referential integrity, no request in any sequence ends
      in an uncaught lookup failure. */
  lemma {:induction false} RunNeverFails(s: Store, reqs: seq<Request>, tracker: Oracle)
    requires Valid(s)
    ensures forall i :: 0 <= i < |reqs| ==> Run(s, reqs, tracker).bodies[i] != ServerError
    decreases |reqs|
  {
    if reqs != [] {
      var r := Handle(s, reqs[0], AtStep(tracker, 0));
      RunNeverFails(r.store, reqs[1..], Later(tracker));
      var t := Run(s, reqs, tracker);
      var rest := Run(r.store, reqs[1..], Later(tracker));
      assert t.bodies == [r.body] + rest.bodies;
      forall i | 0 <= i < |reqs| ensures t.bodies[i] != ServerError {
        if i > 0 { assert t.bodies[i] == rest.bodies[i - 1]; }
      }
    }
  }

  /** A sequence with no meeting generation in it leaves the store exactly as
      it found it. */
  lemma {:induction false} ReadOnlyRunKeepsStore(s: Store, reqs: seq<Request>, tracker: Oracle)
    requires forall i :: 0 <= i < |reqs| ==> !reqs[i].GenerateMeetingReq?
    ensures Run(s, reqs, tracker).final == s
    decreases |reqs|
  {
    if reqs != [] {
      assert !reqs[0].GenerateMeetingReq?;
      ReadOnlyRunKeepsStore(s, reqs[1..], Later(tracker));
    }
  }

  /** A meeting that resolves to a user keeps resolving to a user after any
      further requests: meetings are never removed, users never change, and a
      meeting is only rewritten for a user that exists. Other meetings of the
      store may name missing users. */
  lemma {:induction false} MeetingStaysResolvable(s: Store, meetingId: string, reqs: seq<Request>, tracker: Oracle)
    requires Resolves(s, meetingId)
    ensures Resolves(Run(s, reqs, tracker).final, meetingId)
    ensures GetUserInfo(Run(s, reqs, tracker).final, meetingId).body.UserInfo?
    decreases |reqs|
  {
    if reqs != [] {
      MeetingStaysResolvable(Handle(s, reqs[0], AtStep(tracker, 0)).store, meetingId, reqs[1..], Later(tracker));
    }
  }

  /** Every project-scoped tracker call in any sequence of requests names the
      project key the store was loaded with. */
  lemma {:induction false} RunCallsUseProjectKey(s: Store, reqs: seq<Request>, tracker: Oracle)
    ensures forall i :: 0 <= i < |Run(s, reqs, tracker).calls| ==>
      ScopedTo(Run(s, reqs, tracker).calls[i], s.projectKey)
    decreases |reqs|
  {
    if reqs != [] {
      var r := Handle(s, reqs[0], AtStep(tracker, 0));
      RunCallsUseProjectKey(r.store, reqs[1..], Later(tracker));
      var rest := Run(r.store, reqs[1..], Later(tracker));
      var issued := if r.call.Some? then [r.call.value] else [];
      var t := Run(s, reqs, tracker);
      assert t.calls == issued + rest.calls;
      forall i | 0 <= i < |t.calls| ensures ScopedTo(t.calls[i], s.projectKey) {
        if i >= |issued| { assert t.calls[i] == rest.calls[i - |issued|]; }
      }
    }
  }

  /** The scenario of a project "ENG" with one user "u1" whose tracker
      identity is "jira-1": generating a meeting, resolving it and listing
      its issues answer with the link, the user and Jira's answer to a
      listing scoped to ("ENG", "jira-1"); an unknown user gets the error and
      the meeting table keeps its size. */
  lemma EngScenario(freshId: string, tracker: Oracle)
    ensures var u1 := User("jira-1", map[]);
      var s := Store(map["u1" := u1], map[], "ENG");
      var t := Run(s, [GenerateMeetingReq("u1", freshId), GetUserInfoReq(freshId), GetIssuesReq(freshId),
                       GenerateMeetingReq("ghost", freshId + "x")], tracker);
      && t.bodies == [MeetingLink(freshId), UserInfo(u1),
                      IssueList(tracker(2, JiraGetIssues("ENG", "jira-1"))), Error(UserNotFound)]
      && t.calls == [JiraGetIssues("ENG", "jira-1")]
      && |t.final.meetings| == 1
  {
    var u1 := User("jira-1", map[]);
    var s := Store(map["u1" := u1], map[], "ENG");
    var reqs := [GenerateMeetingReq("u1", freshId), GetUserInfoReq(freshId), GetIssuesReq(freshId),
                 GenerateMeetingReq("ghost", freshId + "x")];
    var s1 := GenerateMeeting(s, "u1", freshId).store;
    assert s1 == Store(map["u1" := u1], map[freshId := Meeting(freshId, "u1")], "ENG");
    assert "ghost" !in s1.users;
    var listing := JiraGetIssues("ENG", "jira-1");
    var tr1 := Later(tracker);
    var tr2 := Later(tr1);
    var tr3 := Later(tr2);
    assert AtStep(tr2, 0)(listing) == tracker(2, listing);
    var t3 := Run(s1, reqs[3..], tr3);
    assert reqs[3..] == [GenerateMeetingReq("ghost", freshId + "x")];
    assert GenerateMeeting(s1, "ghost", freshId + "x") == Reply(s1, None, Error(UserNotFound));
    assert Run(s1, [], Later(tr3)) == Trace(s1, [], []);
    assert t3 == Trace(s1, [Error(UserNotFound)], []);
    var t2 := Run(s1, reqs[2..], tr2);
    assert reqs[2..][1..] == reqs[3..];
    assert t2 == Trace(s1, [IssueList(tracker(2, listing)), Error(UserNotFound)], [listing]);
    var t1 := Run(s1, reqs[1..], tr1);
    assert reqs[1..][1..] == reqs[2..];
    assert t1 == Trace(s1, [UserInfo(u1), IssueList(tracker(2, listing)), Error(UserNotFound)], [listing]);
    assert Run(s, reqs, tracker) == Trace(s1, [MeetingLink(freshId)] + t1.bodies, [listing]);
  }
}
