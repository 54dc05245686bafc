/**
 * The therapist's dashboard: the therapist's sessions as fetched, four
 * summary counts (pending, upcoming confirmed, completed, distinct patients)
 * and the confirm / cancel actions on pending sessions, which update the
 * local list only after the database accepted the change. Times are
 * milliseconds and the clock reading is a parameter.
 */
module TherapistDashboard {
  import opened Wrappers

  const Pending := "pending"
  const Confirmed := "confirmed"
  const Cancelled := "cancelled"
  const Completed := "completed"

  /** A row of `therapy_sessions` (the joined profile names are left out). */
  datatype TherapySession = TherapySession(
    id: string,
    userId: string,
    sessionDate: int,
    sessionType: string,
    status: string,
    notes: Option<string>)

  /** `getStatusColor`: one colour per known status, grey for anything else. */
  function StatusColor(status: string): (color: string)
    ensures status == Pending <==> color == "bg-yellow-500"
    ensures status == Confirmed <==> color == "bg-green-500"
    ensures status == Cancelled <==> color == "bg-red-500"
    ensures status == Completed <==> color == "bg-blue-500"
    ensures color == "bg-gray-500" <==> status !in {Pending, Confirmed, Cancelled, Completed}
  {
    if status == Pending then "bg-yellow-500"
    else if status == Confirmed then "bg-green-500"
    else if status == Cancelled then "bg-red-500"
    else if status == Completed then "bg-blue-500"
    else "bg-gray-500"
  }

  // ---------------------------------------------------------------------
  // The summary lists
  // ---------------------------------------------------------------------

  /** `sessions.filter(keep)`: the kept sessions, in their order. */
  function Where(sessions: seq<TherapySession>, keep: TherapySession -> bool): (r: seq<TherapySession>)
    ensures |r| <= |sessions|
    ensures forall x :: x in r <==> x in sessions && keep(x)
    ensures multiset(r) <= multiset(sessions)
    ensures forall x :: multiset(r)[x] == if keep(x) then multiset(sessions)[x] else 0
  {
    if sessions == [] then []
    else
      assert sessions == [sessions[0]] + sessions[1..];
      (if keep(sessions[0]) then [sessions[0]] else []) + Where(sessions[1..], keep)
  }

  /** Regrouping a concatenation. */
  lemma ConcatAssociative<T>(x: seq<T>, y: seq<T>, z: seq<T>)
    ensures x + (y + z) == (x + y) + z
  {
  }

  /** Filtering a concatenation filters each part and keeps their order. */
  lemma {:induction false} WhereAppend(a: seq<TherapySession>, b: seq<TherapySession>, keep: TherapySession -> bool)
    ensures Where(a + b, keep) == Where(a, keep) + Where(b, keep)
    decreases |a|
  {
    if a == [] {
      assert a + b == b;
    } else {
      var head := if keep(a[0]) then [a[0]] else [];
      assert (a + b)[1..] == a[1..] + b;
      calc {
        Where(a + b, keep);
        head + Where(a[1..] + b, keep);
        { WhereAppend(a[1..], b, keep); }
        head + (Where(a[1..], keep) + Where(b, keep));
        { ConcatAssociative(head, Where(a[1..], keep), Where(b, keep)); }
        (head + Where(a[1..], keep)) + Where(b, keep);
        Where(a, keep) + Where(b, keep);
      }
    }
  }

  predicate IsPending(s: TherapySession) { s.status == Pending }
  predicate IsCompleted(s: TherapySession) { s.status == Completed }

  /** Confirmed and still ahead of `now`. */
  predicate IsUpcoming(s: TherapySession, now: int) { s.status == Confirmed && s.sessionDate > now }

  function PendingSessions(sessions: seq<TherapySession>): seq<TherapySession> {
    Where(sessions, IsPending)
  }

  function UpcomingSessions(sessions: seq<TherapySession>, now: int): seq<TherapySession> {
    Where(sessions, s => IsUpcoming(s, now))
  }

  function CompletedSessions(sessions: seq<TherapySession>): seq<TherapySession> {
    Where(sessions, IsCompleted)
  }

  /** The three status cards count disjoint groups, so together they never
      exceed the number of sessions. */
  lemma {:induction false} StatusCardsBounded(sessions: seq<TherapySession>, now: int)
    ensures |PendingSessions(sessions)| + |UpcomingSessions(sessions, now)| + |CompletedSessions(sessions)| <= |sessions|
  {
    if sessions != [] {
      StatusCardsBounded(sessions[1..], now);
    }
  }

  /** `new Set(sessions.map(s => s.user_id))` */
  function PatientIds(sessions: seq<TherapySession>): (ids: set<string>)
    ensures forall u :: u in ids <==> exists s :: s in sessions && s.userId == u
  {
    if sessions == [] then {} else {sessions[0].userId} + PatientIds(sessions[1..])
  }

  /** The patient card never exceeds the session count, and shows zero only
      when there are no sessions. */
  lemma {:induction false} PatientCountBounded(sessions: seq<TherapySession>)
    ensures |PatientIds(sessions)| <= |sessions|
    ensures |PatientIds(sessions)| == 0 <==> sessions == []
  {
    if sessions != [] {
      PatientCountBounded(sessions[1..]);
      assert sessions[0].userId in PatientIds(sessions);
    }
  }

  // ---------------------------------------------------------------------
  // Status updates
  // ---------------------------------------------------------------------

  /** The local list after an accepted update: every session with the id
      takes the new status, everything else is kept as it was. */
  function WithStatus(sessions: seq<TherapySession>, id: string, status: string): (r: seq<TherapySession>)
    ensures |r| == |sessions|
    ensures forall i :: 0 <= i < |sessions| ==>
      r[i] == if sessions[i].id == id then sessions[i].(status := status) else sessions[i]
  {
    if sessions == [] then []
    else
      var head := if sessions[0].id == id then sessions[0].(status := status) else sessions[0];
      [head] + WithStatus(sessions[1..], id, status)
  }

  /** How many pending sessions carry the id. */
  function PendingWithId(sessions: seq<TherapySession>, id: string): nat {
    if sessions == [] then 0
    else (if sessions[0].id == id && IsPending(sessions[0]) then 1 else 0) + PendingWithId(sessions[1..], id)
  }

  /** Confirming or cancelling removes exactly the pending sessions with that
      id from the pending card. */
  lemma {:induction false} UpdateShrinksPending(sessions: seq<TherapySession>, id: string, status: string)
    requires status != Pending
    ensures |PendingSessions(WithStatus(sessions, id, status))| == |PendingSessions(sessions)| - PendingWithId(sessions, id)
  {
    if sessions != [] {
      UpdateShrinksPending(sessions[1..], id, status);
      assert WithStatus(sessions, id, status)[1..] == WithStatus(sessions[1..], id, status);
    }
  }

  /** Applying the same update twice is the same as applying it once. */
  lemma WithStatusIdempotent(sessions: seq<TherapySession>, id: string, status: string)
    ensures WithStatus(WithStatus(sessions, id, status), id, status) == WithStatus(sessions, id, status)
  {
  }

  /** An update touches only the status, so the patient card is unchanged. */
  lemma WithStatusKeepsPatients(sessions: seq<TherapySession>, id: string, status: string)
    ensures PatientIds(WithStatus(sessions, id, status)) == PatientIds(sessions)
  {
    var r := WithStatus(sessions, id, status);
    forall u | u in PatientIds(sessions) ensures u in PatientIds(r) {
      var s :| s in sessions && s.userId == u;
      var i :| 0 <= i < |sessions| && sessions[i] == s;
      assert r[i].userId == u;
    }
    forall u | u in PatientIds(r) ensures u in PatientIds(sessions) {
      var s :| s in r && s.userId == u;
      var i :| 0 <= i < |r| && r[i] == s;
      assert sessions[i].userId == u;
    }
  }

  // ---------------------------------------------------------------------
  // The component state
  // ---------------------------------------------------------------------

  class TherapistDashboard {
    var sessions: seq<TherapySession>
    var loading: bool

    constructor ()
      ensures sessions == [] && loading
    {
      sessions := [];
      loading := true;
    }

    /** `fetchSessions`: `ok` is false when the query fails (the list is then
        kept); `data` is what it returns, None for a null result. */
    method FetchSessions(ok: bool, data: Option<seq<TherapySession>>)
      modifies this
      ensures sessions == if ok then data.GetOr([]) else old(sessions)
      ensures !loading
    {
      if ok {
        sessions := data.GetOr([]);
      }
      loading := false;
    }

    /** `updateSessionStatus` from the confirm and cancel buttons; `writeOk`
        is whether the database accepted the update. */
    method UpdateSessionStatus(id: string, status: string, writeOk: bool)
      requires status == Confirmed || status == Cancelled
      modifies this
      ensures sessions == if writeOk then WithStatus(old(sessions), id, status) else old(sessions)
      ensures loading == old(loading)
    {
      if writeOk {
        sessions := WithStatus(sessions, id, status);
      }
    }
  }
}
