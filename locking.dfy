/** The locking of one successful sync as written (app.py:133, 933-941,
    973-1022): `sync_and_alert` holds `DB_LOCK`, a plain
    `threading.Lock`, for the whole table section, and every `log_alert`
    it calls from inside takes the same lock again. */
module Locking {
  import opened Wrappers
  import opened Searches
  import opened PyValue
  import opened Alerts

  /** One operation on `DB_LOCK`. */
  datatype LockStep = Acquire | Release

  /** `n` calls of `log_alert`, each a `with DB_LOCK` block. */
  function LogCalls(n: nat): (t: seq<LockStep>)
    ensures |t| == 2 * n
    ensures n > 0 ==> t[0] == Acquire
    ensures multiset(t)[Acquire] == multiset(t)[Release] == n
  {
    if n == 0 then [] else [Acquire, Release] + LogCalls(n - 1)
  }

  /** The lock operations of one successful sync that logs `alerts` rows:
      the section's own acquire, one block per alert, the section's
      release. */
  function SyncLockTrace(alerts: nat): (t: seq<LockStep>)
    ensures |t| == 2 * alerts + 2 && t[0] == Acquire && t[|t| - 1] == Release
  {
    [Acquire] + LogCalls(alerts) + [Release]
  }

  /** A thread running `trace` on a `threading.Lock`: the final state, or
      None when it never finishes, because acquiring a lock the thread
      already holds blocks forever and releasing a free one raises. */
  function RunPlainLock(held: bool, trace: seq<LockStep>): Option<bool>
    decreases |trace|
  {
    if trace == [] then Some(held)
    else match trace[0]
      case Acquire => if held then None else RunPlainLock(true, trace[1..])
      case Release => if held then RunPlainLock(false, trace[1..]) else None
  }

  /** The same trace on a `threading.RLock`, which its holder may take
      again: the final depth, or None when a release finds it free. */
  function RunReentrantLock(depth: nat, trace: seq<LockStep>): Option<nat>
    decreases |trace|
  {
    if trace == [] then Some(depth)
    else match trace[0]
      case Acquire => RunReentrantLock(depth + 1, trace[1..])
      case Release => if depth == 0 then None else RunReentrantLock(depth - 1, trace[1..])
  }

  /** As written, a sync finishes exactly when it logs no alert: the
      first `log_alert` inside the section blocks on the lock its own
      thread holds. */
  lemma SyncDeadlocksIffAlerts(alerts: nat)
    ensures RunPlainLock(false, SyncLockTrace(alerts)).None? <==> alerts > 0
  {
    var t := SyncLockTrace(alerts);
    if alerts == 0 {
      QuietSyncCompletes();
    } else {
      assert t[1] == LogCalls(alerts)[0];
      ReacquireBlocks(t);
    }
  }

  /** A sync that logs nothing takes the plain lock once and frees it. */
  lemma QuietSyncCompletes()
    ensures RunPlainLock(false, SyncLockTrace(0)) == Some(false)
  {
    var t := SyncLockTrace(0);
    assert t == [Acquire, Release];
    assert t[1..] == [Release] && t[1..][1..] == [];
  }

  /** A thread that takes a free plain lock and then takes it again never
      finishes. */
  lemma ReacquireBlocks(t: seq<LockStep>)
    requires |t| >= 2 && t[0] == Acquire && t[1] == Acquire
    ensures RunPlainLock(false, t).None?
  {
    assert t[1..][0] == Acquire;
  }

  /** Balanced blocks leave a reentrant lock as they found it. */
  lemma {:induction false} LogCallsBalanced(depth: nat, n: nat, rest: seq<LockStep>)
    requires depth > 0
    ensures RunReentrantLock(depth, LogCalls(n) + rest) == RunReentrantLock(depth, rest)
    decreases n
  {
    if n > 0 {
      assert LogCalls(n) + rest == [Acquire, Release] + (LogCalls(n - 1) + rest);
      ReentrantBlock(depth, LogCalls(n - 1) + rest);
      LogCallsBalanced(depth, n - 1, rest);
    } else {
      assert LogCalls(n) + rest == rest;
    }
  }

  /** One `with` block on a reentrant lock leaves its depth as it was. */
  lemma ReentrantBlock(depth: nat, rest: seq<LockStep>)
    ensures RunReentrantLock(depth, [Acquire, Release] + rest) == RunReentrantLock(depth, rest)
  {
    var t := [Acquire, Release] + rest;
    assert t[0] == Acquire && t[1..][0] == Release && t[1..][1..] == rest;
  }

  /** The lock operations of a sync that logs its `alerts` rows after the
      section has committed and released the lock, one block per alert. */
  function DeferredSyncLockTrace(alerts: nat): (t: seq<LockStep>)
    ensures |t| == 2 * alerts + 2 && t[0] == Acquire && t[1] == Release
  {
    [Acquire, Release] + LogCalls(alerts)
  }

  /** Blocks taken one after the other on a free plain lock all finish and
      leave it free. */
  lemma {:induction false} PlainLogCallsComplete(n: nat)
    ensures RunPlainLock(false, LogCalls(n)) == Some(false)
    decreases n
  {
    if n > 0 {
      var t := LogCalls(n);
      assert t[0] == Acquire && t[1..][0] == Release && t[1..][1..] == LogCalls(n - 1);
      PlainLogCallsComplete(n - 1);
    }
  }

  /** Logging after the section: on the plain lock as written every sync
      finishes and leaves the lock free, however many alerts it logs. */
  lemma DeferredSyncCompletes(alerts: nat)
    ensures RunPlainLock(false, DeferredSyncLockTrace(alerts)) == Some(false)
  {
    var t := DeferredSyncLockTrace(alerts);
    assert t[1..][0] == Release && t[1..][1..] == LogCalls(alerts);
    PlainLogCallsComplete(alerts);
  }

  /** With a reentrant lock every sync finishes and leaves the lock free,
      however many alerts it logs. This is the thread lock alone: sqlite's
      own lock on the uncommitted section is not part of it. */
  lemma ReentrantSyncCompletes(alerts: nat)
    ensures RunReentrantLock(0, SyncLockTrace(alerts)) == Some(0)
  {
    var t := SyncLockTrace(alerts);
    assert t[0] == Acquire && t[1..] == LogCalls(alerts) + [Release];
    LogCallsBalanced(1, alerts, [Release]);
    assert [Release][1..] == [];
  }

  /** The first sync of a country with alerts for new programmes on logs
      an alert for the first fetched id. */
  lemma FirstSyncAlerts(table: map<Key, Programme>, cc: string, s: Seen, visit: seq<int>, now: int,
                        cfg: AlertConfig, mailer: Mailer, bi: Builtins)
    requires SeenWellFormed(s) && s.order != [] && AlertAllowed(cfg, "new") &&
             Insertable(s.order[0], s.info[s.order[0]])
    requires forall k :: k in table ==> k.1 != cc
    ensures |SyncRows(s, visit, Previous(table, cc), cc, now, cfg, mailer, bi)| > 0
  {
    var prev := Previous(table, cc);
    var nf := NewRowsOf(s.info, prev, cc, now, cfg, mailer, bi);
    var pid := s.order[0];
    assert pid in s.info && pid !in prev;
    var row := nf(pid)[0];
    FlattenHolds(s.order, nf, row);
    assert row in SyncRows(s, visit, prev, cc, now, cfg, mailer, bi);
  }

  /** Hence, as written, the first sync of a country with new-programme
      alerts on never finishes. */
  lemma FirstSyncDeadlocks(table: map<Key, Programme>, cc: string, s: Seen, visit: seq<int>, now: int,
                           cfg: AlertConfig, mailer: Mailer, bi: Builtins)
    requires SeenWellFormed(s) && s.order != [] && AlertAllowed(cfg, "new") &&
             Insertable(s.order[0], s.info[s.order[0]])
    requires forall k :: k in table ==> k.1 != cc
    ensures RunPlainLock(false, SyncLockTrace(|SyncRows(s, visit, Previous(table, cc), cc, now, cfg, mailer, bi)|)).None?
  {
    FirstSyncAlerts(table, cc, s, visit, now, cfg, mailer, bi);
    SyncDeadlocksIffAlerts(|SyncRows(s, visit, Previous(table, cc), cc, now, cfg, mailer, bi)|);
  }
}
