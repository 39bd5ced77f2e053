/**
 The process-wide store of the meeting backend: a table of users, a table of
 meetings and the issue tracker's project key, read once at start-up.
 */
module Db {

  /** A user record. `jiraId` is the tracker's identifier for the user; the
      record's other fields are kept in `profile`, each value as a string. */
  datatype User = User(jiraId: string, profile: map<string, string>)

  /** A meeting record: its own identifier and the identifier of its owner. */
  datatype Meeting = Meeting(id: string, userId: string)

  datatype Store = Store(
    users: map<string, User>,
    meetings: map<string, Meeting>,
    projectKey: string)

  /** Referential integrity: every meeting names a user that exists. */
  predicate Valid(s: Store) {
    forall m :: m in s.meetings ==> s.meetings[m].userId in s.users
  }

  /** Every meeting record is stored under its own identifier. */
  predicate SelfKeyed(s: Store) {
    forall m :: m in s.meetings ==> s.meetings[m].id == m
  }

  /** Key `k` is absent from both tables, or present in both with one value. */
  predicate SameOn(a: map<string, Meeting>, b: map<string, Meeting>, k: string) {
    (k in a <==> k in b) && (k in a ==> a[k] == b[k])
  }

  /** Meeting `meetingId` exists and names a user that exists. */
  predicate Resolves(s: Store, meetingId: string) {
    meetingId in s.meetings && s.meetings[meetingId].userId in s.users
  }

  /** The owner of meeting `meetingId`, when both the meeting and the user it
      names exist. */
  function Owner(s: Store, meetingId: string): (u: User)
    requires meetingId in s.meetings && s.meetings[meetingId].userId in s.users
  {
    s.users[s.meetings[meetingId].userId]
  }

  /** Writes `m` under its own identifier, inserting or overwriting that one key. */
  function PutMeeting(s: Store, m: Meeting): (r: Store)
    ensures r.users == s.users && r.projectKey == s.projectKey
    ensures m.id in r.meetings && r.meetings[m.id] == m
    ensures forall k :: k != m.id ==> SameOn(s.meetings, r.meetings, k)
    ensures r.meetings.Keys == s.meetings.Keys + {m.id}
  {
    s.(meetings := s.meetings[m.id := m])
  }

  /** Writing a record keeps referential integrity exactly when its owner
      exists: the membership check before the write is what keeps the store
      valid. */
  lemma PutMeetingKeepsValid(s: Store, m: Meeting)
    requires Valid(s)
    ensures Valid(PutMeeting(s, m)) <==> m.userId in s.users
  {
  }
}
