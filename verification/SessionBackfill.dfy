/**
 * The one-time cap on session expiries, with a backup table that makes it
 * reversible. Times are in milliseconds; a table maps session ids to rows.
 */
module SessionBackfill {
  import opened Wrappers

  type Id = nat

  datatype Session = Session(createdAt: int, expiresAt: int)

  type Table = map<Id, Session>

  type Backup = map<Id, int>

  const CAP: int := 30 * 24 * 60 * 60 * 1000

  datatype Mode = Apply | Rollback

  datatype Outcome =
    | Refused
    | Mismatch(capped: nat, backedUp: nat)
    | Applied(backedUp: nat, capped: nat)
    | RolledBack(restored: nat, leftAlone: int)

  // ---- the statements ----

  predicate OverCap(s: Session) {
    s.expiresAt > s.createdAt + CAP
  }

  predicate AtCap(s: Session) {
    s.expiresAt == s.createdAt + CAP
  }

  /** createBackup */
  function BackupOf(t: Table): Backup {
    map id | id in t && OverCap(t[id]) :: t[id].expiresAt
  }

  /** The rows the cap statement updates. */
  function ToCap(t: Table, b: Backup): set<Id> {
    set id | id in t && id in b && OverCap(t[id])
  }

  function Capped(t: Table, b: Backup): Table {
    map id | id in t :: if id in b && OverCap(t[id]) then t[id].(expiresAt := t[id].createdAt + CAP) else t[id]
  }

  /** The rows the restore statement updates. */
  function ToRestore(t: Table, b: Backup): set<Id> {
    set id | id in t && id in b && AtCap(t[id])
  }

  function Restored(t: Table, b: Backup): Table {
    map id | id in t :: if id in b && AtCap(t[id]) then t[id].(expiresAt := b[id]) else t[id]
  }

  class Database {
    var sessions: Table
    var backup: Option<Backup>

    constructor (t: Table)
      ensures sessions == t && backup == None
    {
      sessions, backup := t, None;
    }

    /**
     * runBackfill: one transaction. `meanwhile`, when given, is the session
     * table other transactions have committed by the time of the cap
     * statement; without it the transaction runs in isolation. A mismatch
     * undoes what this transaction did and nothing else.
     */
    method Run(mode: Mode, meanwhile: Option<Table>) returns (outcome: Outcome)
      modifies this
      ensures mode == Apply && old(backup).Some? ==>
        outcome == Refused && sessions == old(sessions) && backup == old(backup)
      ensures mode == Apply && old(backup).None? ==>
        var b, t := BackupOf(old(sessions)), meanwhile.GetOr(old(sessions));
        if |ToCap(t, b)| == |b|
        then outcome == Applied(|b|, |b|) && sessions == Capped(t, b) && backup == Some(b)
        else outcome == Mismatch(|ToCap(t, b)|, |b|) && sessions == t && backup == None
      ensures mode == Rollback && old(backup).None? ==>
        outcome == Refused && sessions == old(sessions) && backup == old(backup)
      ensures mode == Rollback && old(backup).Some? ==>
        var b := old(backup).value;
        && outcome == RolledBack(|ToRestore(old(sessions), b)|, |b| - |ToRestore(old(sessions), b)|)
        && sessions == Restored(old(sessions), b) && backup == old(backup)
    {
      if mode == Apply {
        if backup.Some? {
          return Refused;
        }
        backup := Some(BackupOf(sessions));
        var backedUp := |backup.value|;
        if meanwhile.Some? {
          sessions := meanwhile.value;
        }
        var before := sessions;
        var capped := |ToCap(sessions, backup.value)|;
        sessions := Capped(sessions, backup.value);
        if capped != backedUp {
          sessions, backup := before, None;
          return Mismatch(capped, backedUp);
        }
        return Applied(backedUp, capped);
      }
      if backup.None? {
        return Refused;
      }
      var restored := |ToRestore(sessions, backup.value)|;
      sessions := Restored(sessions, backup.value);
      outcome := RolledBack(restored, |backup.value| - restored);
    }
  }

  // ---- apply ----

  /** In isolation the cap statement updates exactly the backed-up rows, so there is no mismatch. */
  lemma IsolatedCountsAgree(t: Table)
    ensures ToCap(t, BackupOf(t)) == BackupOf(t).Keys && |ToCap(t, BackupOf(t))| == |BackupOf(t)|
  {
    assert ToCap(t, BackupOf(t)) == BackupOf(t).Keys;
  }

  /**
   * With the counts equal, whatever was committed meanwhile: every backed-up
   * session is still there over its cap, ends at its cap, and every other
   * session is as it was; no expiry grows.
   */
  lemma CapIsExact(t: Table, later: Table)
    requires |ToCap(later, BackupOf(t))| == |BackupOf(t)|
    ensures forall id :: id in BackupOf(t) ==> id in later && OverCap(later[id]) && AtCap(Capped(later, BackupOf(t))[id])
    ensures forall id :: id in later && id !in BackupOf(t) ==> Capped(later, BackupOf(t))[id] == later[id]
    ensures forall id :: id in later ==> Capped(later, BackupOf(t))[id].expiresAt <= later[id].expiresAt
    ensures Capped(later, BackupOf(t)).Keys == later.Keys
  {
    var b := BackupOf(t);
    SameSize(ToCap(later, b), b.Keys);
    forall id | id in b
      ensures id in later && OverCap(later[id])
    {
      assert id in ToCap(later, b);
    }
  }

  lemma SameSize(a: set<Id>, b: set<Id>)
    requires a <= b && |a| == |b|
    ensures a == b
  {
    assert |b - a| == |b| - |a|;
  }

  /** In isolation no session is left over the cap. */
  lemma NoneLeftOver(t: Table)
    ensures forall id :: id in t ==> !OverCap(Capped(t, BackupOf(t))[id])
  {
  }

  // ---- rollback ----

  /** Rolling back right after applying gives every session its old row back. */
  lemma RollbackUndoesApply(t: Table)
    ensures Restored(Capped(t, BackupOf(t)), BackupOf(t)) == t
  {
  }

  /** After any changes in between: only backed-up rows still at their cap change, and they get their saved expiry. */
  lemma RollbackTouchesOnlyCapped(t: Table, b: Backup)
    ensures Restored(t, b).Keys == t.Keys
    ensures forall id :: id in t ==>
      Restored(t, b)[id] == (if id in ToRestore(t, b) then Session(t[id].createdAt, b[id]) else t[id])
    ensures ToRestore(t, b) <= b.Keys && |ToRestore(t, b)| <= |b|
  {
    SubsetSize(ToRestore(t, b), b.Keys);
  }

  lemma SubsetSize(a: set<Id>, b: set<Id>)
    requires a <= b
    ensures |a| <= |b|
  {
    assert |b - a| == |b| - |a|;
  }

  /** A second rollback changes nothing. */
  lemma RollbackIsIdempotent(t: Table, b: Backup)
    ensures Restored(Restored(t, b), b) == Restored(t, b)
  {
  }

  /** Apply, changes `t'`, rollback: a session whose row did not change after the cap has its old expiry again. */
  lemma UntouchedComesBack(t: Table, t': Table, id: Id)
    requires id in t && id in t' && t'[id] == Capped(t, BackupOf(t))[id]
    ensures Restored(t', BackupOf(t))[id] == t[id]
  {
  }
}
