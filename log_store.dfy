/**
 * The log provider: a prepend-only activity log with its `loading` flag, the
 * effect that loads it from storage (falling back to an empty log), the effect
 * that writes it back once loaded, and `addLog`, which reads the session user.
 */
module LogStore {
  import opened Wrappers
  import opened Types
  import opened Ids
  import opened Persisted
  import opened Auth

  /** A log entry as `JSON.stringify` writes it: the timestamp becomes ISO text. */
  datatype StoredLog = StoredLog(id: string, timestamp: IsoText, user: string, action: string)

  const LogIdPrefix := "log-"

  /** The entry `addLog` builds for `user`, with `stamp` from `Date.now()` and `now` from `new Date()`. */
  function NewLog(user: User, action: string, stamp: nat, now: int): (e: LogEntry)
    ensures e.id == StampedId(LogIdPrefix, stamp)
    ensures e.timestamp == now && e.user == user.name && e.action == action
  {
    LogEntry(StampedId(LogIdPrefix, stamp), now, user.name, action)
  }

  /** The log after `addLog(action)`: unchanged when nobody is signed in. */
  function Logged(logs: seq<LogEntry>, user: Option<User>, action: string, stamp: nat, now: int): (r: seq<LogEntry>)
    ensures user.None? ==> r == logs
    ensures user.Some? ==> |r| == |logs| + 1 && r[1..] == logs
    ensures user.Some? ==> r[0] == NewLog(user.value, action, stamp, now)
  {
    match user
    case None => logs
    case Some(u) => [NewLog(u, action, stamp, now)] + logs
  }

  function Encode(e: LogEntry): (w: StoredLog)
    ensures FromIso(w.timestamp) == e.timestamp
    ensures w.id == e.id && w.user == e.user && w.action == e.action
  {
    StoredLog(e.id, ToIso(e.timestamp), e.user, e.action)
  }

  /** `{ ...l, timestamp: new Date(l.timestamp) }`. */
  function Revive(w: StoredLog): (e: LogEntry)
    ensures Encode(e) == w
  {
    LogEntry(w.id, FromIso(w.timestamp), w.user, w.action)
  }

  /** Reviving undoes encoding: a stored entry reads back as the entry written. */
  lemma ReviveEncode(e: LogEntry)
    ensures Revive(Encode(e)) == e
  {
  }

  /**
   * What the load effect leaves in the log: the stored entries when storage
   * holds some; otherwise the log is not set and keeps what it had (empty on
   * mount).
   */
  function Loaded(slot: Slot<seq<StoredLog>>, current: seq<LogEntry>): (es: seq<LogEntry>)
    ensures slot.Present? ==> MapAll(es, Encode) == slot.value
    ensures !slot.Present? ==> es == current
  {
    match slot
    case Present(ws) => MapAll(ws, Revive)
    case _ => current
  }

  /** Writing the log back and loading it again gives the same entries. */
  lemma {:induction false} ReloadRoundTrip(es: seq<LogEntry>, current: seq<LogEntry>)
    ensures Loaded(Present(MapAll(es, Encode)), current) == es
  {
    MapAllRoundTrip(es, Encode, Revive);
  }

  /** The provider's state; `saved` is the `slumber-logs` storage key. */
  class Store {
    const auth: Session
    var logs: seq<LogEntry>
    var loading: bool
    var saved: Slot<seq<StoredLog>>

    ghost predicate Valid()
      reads this
    {
      !loading ==> saved == Present(MapAll(logs, Encode))
    }

    constructor (auth: Session, initial: Slot<seq<StoredLog>>)
      ensures Valid()
      ensures this.auth == auth && logs == [] && loading && saved == initial
    {
      this.auth := auth;
      logs := [];
      loading := true;
      saved := initial;
    }

    /** The persist effect: the log is written back only once loading is over. */
    method Persist()
      modifies this`saved
      ensures saved == if loading then old(saved) else Present(MapAll(logs, Encode))
      ensures Valid()
    {
      if !loading {
        saved := Present(MapAll(logs, Encode));
      }
    }

    /** The load effect, then the persist effect it triggers. */
    method Load()
      modifies this`logs, this`loading, this`saved
      ensures logs == Loaded(old(saved), old(logs))
      ensures !loading && Valid()
    {
      logs := Loaded(saved, logs);
      loading := false;
      Persist();
    }

    /** `addLog`: a no-op with nobody signed in, otherwise prepends a stamped entry. */
    method AddLog(action: string, stamp: nat, now: int)
      requires Valid()
      modifies this`logs, this`saved
      ensures logs == Logged(old(logs), auth.user, action, stamp, now)
      ensures saved == if loading then old(saved) else Present(MapAll(logs, Encode))
      ensures Valid()
    {
      if auth.user.Some? {
        logs := [NewLog(auth.user.value, action, stamp, now)] + logs;
        Persist();
      }
    }
  }
}
