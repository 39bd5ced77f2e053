# Meeting store of the agility-ai backend, in Dafny

This project models the in-memory store of the agility-ai meeting backend
(`backend/main.py`) and the route handlers that read or change it. The store
(`db`) holds a table of users, a table of meetings and the Jira project key.
A meeting is created for an existing user under a random token. It is then
resolved back to its owner, and it scopes issue queries to that owner's Jira
identity. The remaining Jira routes do not look at the store. They only
forward their arguments to the Jira client.

Layout:

- `optional.dfy`, module `Optional`: the `Option` type that stands for Python's `None`.
- `db.dfy`, module `Db`: `User`, `Meeting` and `Store`. It also holds the two
  store invariants. `Valid` says every meeting names an existing user.
  `SelfKeyed` says every meeting record sits under its own id. The module also
  has the single write the handlers perform, `PutMeeting`.
- `tracker.dfy`, module `Tracker`: the outbound Jira calls as data values
  (`TrackerCall`). The Jira client is not executed. Each handler returns the
  call it would make. The client's answer comes from a function parameter
  `tracker: TrackerCall -> Payload`.
- `handlers.dfy`, module `Handlers`: one pure function per route. Each returns
  a `Reply`: the store afterwards, the Jira call issued (if any) and the JSON
  body of the response.
- `traces.dfy`, module `Traces`: `Handle` routes one request to its handler.
  `Run` replays a sequence of requests. Across a sequence, Jira's answers
  come from an `Oracle` indexed by the request's position, so the same call
  can get a different answer after an earlier request changed Jira's state.
  The module also has the lemmas about what any sequence of requests does to
  the store.

The random token `str(uuid4())` is an input to `GenerateMeeting`. A lookup
that raises `KeyError` in Python (a meeting whose `user_id` names no user) is
the `ServerError` body. It does not appear as a precondition.
`ValidMeetingResolves` and `RunNeverFails` show that it cannot happen while
`Valid` holds.

Facts about `backend/main.py` that the model keeps:

- A meeting whose `user_id` names no user raises `KeyError` (HTTP 500) at
  backend/main.py:42 and backend/main.py:50-51.
- Generation answers "User not found". The two lookups answer "Meeting not
  found".
- `getIssue`, `createIssue`, `getIssueTransitions` and `changeIssueStatus`
  never look up their meeting id.

## Model

| member | source | states |
|---|---|---|
| Db.PutMeeting | backend/main.py:29-32 | writing a meeting stores it under its own id. If that key already exists, the old record is overwritten. Every other key, the users and the project key are unchanged. |
| Db.PutMeetingKeepsValid | backend/main.py:25-32 | starting from a valid store, a write keeps every meeting's owner in `users` exactly when the new record's owner is in `users`. |
| Handlers.GenerateMeeting | backend/main.py:23-34 | an unknown user gets "User not found" and the store is unchanged. A known user gets `meeting_link == id`, with `meetings[id] == {id, user_id}`. Users, the project key and every other meeting are unchanged. Both invariants are preserved. No Jira call is made. |
| Handlers.GetUserInfo | backend/main.py:36-42 | an unknown meeting gets "Meeting not found". A known meeting gets the full record of its owner. A lookup failure happens exactly when the owner is missing. The store is unchanged. |
| Handlers.GetIssues | backend/main.py:45-53 | an unknown meeting gets "Meeting not found" and no Jira call. The Jira call happens exactly when the meeting and its owner both exist. It uses the store's project key and the owner's `jira_id`. The answer is returned unfiltered under `issues`. The store is unchanged. |
| Handlers.GetIssue | backend/main.py:55-58 | the issue id is forwarded and the answer is returned under `issue`. The meeting id is not looked up. The store is unchanged. |
| Handlers.CreateIssue | backend/main.py:59-74 | the store's project key is forwarded, `title` as the summary, and `description`, `assignee_id` and `due_date` unmodified (absent stays absent). The tracker's result is returned verbatim. The store is unchanged. |
| Handlers.GetIssueTransitions | backend/main.py:95-98 | the issue id is forwarded and the answer is returned under `transitions`. The store is unchanged. |
| Handlers.ChangeIssueStatus | backend/main.py:100-107 | the issue id and transition id are forwarded. The tracker's result is returned verbatim. The store is unchanged. |
| Handlers.SaveDb | backend/main.py:120-124 | saving answers `{"success": true}`, makes no Jira call and leaves the in-memory store as it was. |
| Handlers.ValidMeetingResolves | backend/main.py:36-53 | under referential integrity, a known meeting always resolves to its owner's record. Its issue listing always reaches Jira with the owner's `jira_id`. |
| Handlers.GenerateThenResolve | backend/main.py:24-53 | round trip: for any token, the link returned for user `u` resolves to `users[u]`. Listing its issues queries Jira with `u`'s `jira_id`. |
| Handlers.GenerateMeetingCount | backend/main.py:25-32 | an unknown user leaves the number of meetings unchanged. A known user with a fresh token adds exactly one. |
| Traces.Handle | backend/main.py:23-107 | no route changes users or the project key or removes a meeting. Only meeting generation writes. Both invariants are preserved. Under `Valid`, no route ends in a lookup failure. A meeting that resolves keeps resolving. Every project-scoped Jira call uses the store's project key. |
| Traces.Run | backend/main.py:19-107 | across any sequence of requests, users and the project key stay as loaded. The meeting keys only grow. There is one body per request and at most one Jira call per request. Each request sees Jira's answers for its own position in the sequence. |
| Traces.RunPreservesInvariants | backend/main.py:25-32 | referential integrity and self-keying hold after any sequence of requests. |
| Traces.RunNeverFails | backend/main.py:41-51 | from a valid store, no request in any sequence raises the `KeyError` of an owner lookup. |
| Traces.ReadOnlyRunKeepsStore | backend/main.py:36-107 | a sequence without meeting generation leaves the store exactly as it was. |
| Traces.MeetingStaysResolvable | backend/main.py:29-42 | once a meeting exists and names an existing user, it keeps resolving to a user after any further requests, even when other meetings of the store name missing users. |
| Traces.RunCallsUseProjectKey | backend/main.py:21-73 | every listing and creation call in any sequence names the project key read at start-up. |
| Traces.EngScenario | backend/main.py:23-53 | project "ENG", user "u1" with Jira id "jira-1": generate, resolve and list give the link, the user and a listing for ("ENG", "jira-1"). A request for "ghost" gets "User not found". |

## Left out

- The FastAPI app and the CORS middleware (backend/main.py:9-17) are transport wiring.
- Request decoding and validation are left out: path parameters and the pydantic bodies, with their 422 answers. A request reaches the model already decoded into `Request`.
- Loading `db.json` at start-up (backend/main.py:19-21) is left out: file I/O and JSON parsing. The model starts from a `Store` value. A malformed file, which aborts start-up, is not modelled.
- The file write and JSON dump in `save_db` (backend/main.py:120-124) are left out. `SaveDb` treats the store value itself as the snapshot, so the save/load round trip and save idempotence hold trivially and are not stated separately.
- The `jira` module functions (backend/main.py:2) are not part of this model. Their calls are `TrackerCall` values, and their answers are the opaque `Payload` given by the `tracker` parameter. The client is assumed never to raise. A `jira_*` function that raises makes the route answer HTTP 500 with no `issues`, `issue` or `transitions` body, and the handlers do not model that.
- `uuid4()` is an input, because it is randomness. The uniqueness of generated ids is probabilistic. It is not stated. The model states what happens on collision instead: one key is overwritten.
- `edit_issue` (backend/main.py:76-93) is left out because it reads `request.status`, but `EditIssueRequest` declares no `status` field. Every call therefore raises `AttributeError` before Jira is reached. Adding `status` or dropping it would be a guess, so no corrected handler is modelled.
- The GitHub stub routes (backend/main.py:110-116) and `/ping` (backend/main.py:126-128) always return constant bodies.
- `async` interleaving and races on the shared `db` dict are left out. The model is sequential.
- A user record without `jira_id` is excluded by the `User` type, so the `KeyError` at backend/main.py:51 cannot arise from it. A meeting record that is JSON `null` is excluded by the `Meeting` type. That `null` case is the only one where `.get(...) is None` (line 38) and `not in` (line 47) would differ.
- `User` keeps `jira_id` and every other field value as a string. A JSON number, list, object or `null` in a user record is not modelled. The handlers only pass these values through.
