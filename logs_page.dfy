/**
 * The activity-log page: only an admin sees the listing, a signed-in
 * non-admin is sent to the dashboard, and the listing is the log sorted
 * newest first, or a loading row, or an empty-log row.
 */
module LogsPage {
  import opened Wrappers
  import opened Types
  import opened Ordering

  predicate IsAdmin(user: Option<User>) {
    user.Some? && user.value.role == Admin
  }

  const DashboardPath := "/dashboard"

  /** The redirect effect: only a signed-in user who is not an admin is sent away. */
  function Redirect(user: Option<User>): (target: Option<string>)
    ensures target.Some? <==> user.Some? && user.value.role != Admin
    ensures target.Some? ==> target.value == DashboardPath
  {
    if user.Some? && user.value.role != Admin then Some(DashboardPath) else None
  }

  function Timestamp(e: LogEntry): int {
    e.timestamp
  }

  /** `[...logs].sort((a, b) => b.timestamp - a.timestamp)`. */
  function SortedLogs(logs: seq<LogEntry>): (r: seq<LogEntry>)
    ensures multiset(r) == multiset(logs)
    ensures forall i, j :: 0 <= i < j < |r| ==> r[i].timestamp >= r[j].timestamp
    ensures forall t :: WithKey(r, Timestamp, t) == WithKey(logs, Timestamp, t)
  {
    forall t ensures WithKey(SortDesc(logs, Timestamp), Timestamp, t) == WithKey(logs, Timestamp, t) {
      SortDescStable(logs, Timestamp, t);
    }
    SortDesc(logs, Timestamp)
  }

  /** What the page shows. */
  datatype View = AccessDenied | LoadingRow | EmptyRow | Rows(entries: seq<LogEntry>)

  function Render(user: Option<User>, loading: bool, logs: seq<LogEntry>): (v: View)
    ensures v == AccessDenied <==> !IsAdmin(user)
    ensures v == LoadingRow <==> IsAdmin(user) && loading
    ensures v == EmptyRow <==> IsAdmin(user) && !loading && logs == []
    ensures v.Rows? ==> v.entries == SortedLogs(logs) && |v.entries| == |logs| > 0
  {
    if !IsAdmin(user) then AccessDenied
    else if loading then LoadingRow
    else if |SortedLogs(logs)| == 0 then EmptyRow
    else Rows(SortedLogs(logs))
  }

  /** Redirecting and the access-denied view go together, and without a user there is no redirect. */
  lemma RedirectShowsDenied(user: Option<User>, loading: bool, logs: seq<LogEntry>)
    ensures Redirect(user).Some? ==> Render(user, loading, logs) == AccessDenied
    ensures user.None? ==> Redirect(user) == None && Render(user, loading, logs) == AccessDenied
  {
  }
}
