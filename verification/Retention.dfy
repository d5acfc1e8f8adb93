/** Batched deletion of expired history. */
module Retention {
  import opened Tables
  import opened Paging
  import S = Store

  function ExpiredRows(db: Db, jobs: bool): set<RowId> {
    set r | r in db.rows && r.Job? == jobs && ExpiredRow(db.rows[r], db.now)
  }

  function ExpiredUpdates(db: Db): set<int> { set u | u in db.updates && ExpiredUpdate(db.updates[u], db.now) }

  function ExpiredAlerts(db: Db): set<nat> { set a | a in db.alerts && ExpiredAlert(db, a) }

  function RowAge(rows: map<RowId, Row>): RowId -> Rank {
    r => if r in rows then Rank(rows[r].closedAt, r.n) else Rank(0, 0)
  }

  function UpdateAge(updates: map<int, Update>): int -> Rank {
    u => if u in updates then Rank(updates[u].closedAt, u) else Rank(0, 0)
  }

  function AlertAge(alerts: map<nat, Alert>): nat -> Rank {
    a => if a in alerts then Rank(alerts[a].updatedAt, a) else Rank(0, 0)
  }

  /** A batch takes part of the expired set, all of it unless the batch is full. */
  ghost predicate Batch<T>(expired: set<T>, limit: nat, gone: set<T>) {
    gone <= expired && |gone| <= limit && (|gone| < limit ==> gone == expired)
  }

  /** The oldest expired entries, at most `limit` of them. */
  method Oldest<T(==, !new)>(expired: set<T>, age: T -> Rank, limit: nat) returns (gone: set<T>)
    requires Distinct(expired, age)
    ensures Batch(expired, limit, gone)
    ensures forall x, y | x in gone && y in expired - gone :: age(x).Before(age(y))
  {
    var page := Select(expired, age, limit);
    gone := set x | x in page;
    SetSize(page, age);
  }

  /** Taking a batch away leaves less, unless it was the last one. */
  lemma Progress<T>(all: set<T>, removed: set<T>, gone: set<T>, limit: nat)
    requires removed <= all && Batch(all - removed, limit, gone)
    ensures removed + gone <= all && |removed + gone| == |removed| + |gone|
    ensures |all - (removed + gone)| == |all - removed| - |gone|
    ensures |gone| < limit ==> removed + gone == all
  {
  }

  lemma Twice<K, V>(m: map<K, V>, a: set<K>, b: set<K>)
    ensures m - a - b == m - (a + b)
  {
  }

  function WithoutRows(db: Db, gone: set<RowId>): Db { db.(rows := db.rows - gone) }

  lemma RowsStep(db: Db, jobs: bool, removed: set<RowId>, gone: set<RowId>, limit: nat)
    requires removed <= ExpiredRows(db, jobs) && Batch(ExpiredRows(WithoutRows(db, removed), jobs), limit, gone)
    ensures Batch(ExpiredRows(db, jobs) - removed, limit, gone)
    ensures WithoutRows(WithoutRows(db, removed), gone) == WithoutRows(db, removed + gone)
  {
    assert ExpiredRows(WithoutRows(db, removed), jobs) == ExpiredRows(db, jobs) - removed;
    Twice(db.rows, removed, gone);
  }

  method DeleteRows(store: S.Store, jobs: bool, limit: nat) returns (deleted: nat, ghost gone: set<RowId>)
    modifies store`rows
    ensures Batch(ExpiredRows(old(store.Snapshot()), jobs), limit, gone) && deleted == |gone|
    ensures store.Snapshot() == WithoutRows(old(store.Snapshot()), gone)
  {
    var batch := Oldest(ExpiredRows(store.Snapshot(), jobs), RowAge(store.rows), limit);
    store.rows := store.rows - batch;
    deleted, gone := |batch|, batch;
  }

  /** drainRetentionBatches over one of the outboxes: whatever the batch limit, at a fixed clock exactly
      the expired closed rows disappear, and they are counted. */
  method DrainRows(store: S.Store, jobs: bool, limit: nat) returns (total: nat)
    requires limit >= 1
    modifies store`rows
    ensures store.Snapshot() == WithoutRows(old(store.Snapshot()), ExpiredRows(old(store.Snapshot()), jobs))
    ensures total == |ExpiredRows(old(store.Snapshot()), jobs)|
    ensures forall r :: r in store.rows <==>
      r in old(store.rows) && !(r.Job? == jobs && ExpiredRow(old(store.rows)[r], store.now))
    ensures forall r | r in store.rows :: store.rows[r] == old(store.rows)[r]
    ensures forall r | r in old(store.rows) && old(store.rows)[r].status.Open() :: r in store.rows
  {
    ghost var db, all, removed := store.Snapshot(), ExpiredRows(store.Snapshot(), jobs), {};
    assert db.rows - {} == db.rows;
    total := 0;
    var deleted := limit;
    while deleted >= limit
      invariant store.Snapshot() == WithoutRows(db, removed)
      invariant removed <= all && total == |removed| && (deleted < limit ==> removed == all)
      decreases |all - removed|, deleted >= limit
    {
      ghost var gone;
      deleted, gone := DeleteRows(store, jobs, limit);
      RowsStep(db, jobs, removed, gone, limit);
      Progress(all, removed, gone, limit);
      removed := removed + gone;
      total := total + deleted;
    }
  }

  function WithoutUpdates(db: Db, gone: set<int>): Db { db.(updates := db.updates - gone) }

  lemma UpdatesStep(db: Db, removed: set<int>, gone: set<int>, limit: nat)
    requires removed <= ExpiredUpdates(db) && Batch(ExpiredUpdates(WithoutUpdates(db, removed)), limit, gone)
    ensures Batch(ExpiredUpdates(db) - removed, limit, gone)
    ensures WithoutUpdates(WithoutUpdates(db, removed), gone) == WithoutUpdates(db, removed + gone)
  {
    assert ExpiredUpdates(WithoutUpdates(db, removed)) == ExpiredUpdates(db) - removed;
    Twice(db.updates, removed, gone);
  }

  method DeleteUpdates(store: S.Store, limit: nat) returns (deleted: nat, ghost gone: set<int>)
    modifies store`updates
    ensures Batch(ExpiredUpdates(old(store.Snapshot())), limit, gone) && deleted == |gone|
    ensures store.Snapshot() == WithoutUpdates(old(store.Snapshot()), gone)
  {
    var batch := Oldest(ExpiredUpdates(store.Snapshot()), UpdateAge(store.updates), limit);
    store.updates := store.updates - batch;
    deleted, gone := |batch|, batch;
  }

  method DrainUpdates(store: S.Store, limit: nat) returns (total: nat)
    requires limit >= 1
    modifies store`updates
    ensures store.Snapshot() == WithoutUpdates(old(store.Snapshot()), ExpiredUpdates(old(store.Snapshot())))
    ensures total == |ExpiredUpdates(old(store.Snapshot()))|
    ensures forall u :: u in store.updates <==>
      u in old(store.updates) && !ExpiredUpdate(old(store.updates)[u], store.now)
    ensures forall u | u in store.updates :: store.updates[u] == old(store.updates)[u]
  {
    ghost var db, all, removed := store.Snapshot(), ExpiredUpdates(store.Snapshot()), {};
    assert db.updates - {} == db.updates;
    total := 0;
    var deleted := limit;
    while deleted >= limit
      invariant store.Snapshot() == WithoutUpdates(db, removed)
      invariant removed <= all && total == |removed| && (deleted < limit ==> removed == all)
      decreases |all - removed|, deleted >= limit
    {
      ghost var gone;
      deleted, gone := DeleteUpdates(store, limit);
      UpdatesStep(db, removed, gone, limit);
      Progress(all, removed, gone, limit);
      removed := removed + gone;
      total := total + deleted;
    }
  }

  /** Crossings are deleted with their alerts. */
  function WithoutAlerts(db: Db, gone: set<nat>): Db {
    db.(alerts := db.alerts - gone, crossings := db.crossings - gone)
  }

  lemma AlertsStep(db: Db, removed: set<nat>, gone: set<nat>, limit: nat)
    requires removed <= ExpiredAlerts(db) && Batch(ExpiredAlerts(WithoutAlerts(db, removed)), limit, gone)
    ensures Batch(ExpiredAlerts(db) - removed, limit, gone)
    ensures WithoutAlerts(WithoutAlerts(db, removed), gone) == WithoutAlerts(db, removed + gone)
  {
    assert ExpiredAlerts(WithoutAlerts(db, removed)) == ExpiredAlerts(db) - removed;
    Twice(db.alerts, removed, gone);
    Twice(db.crossings, removed, gone);
  }

  method DeleteAlerts(store: S.Store, limit: nat) returns (deleted: nat, ghost gone: set<nat>)
    modifies store`alerts, store`crossings
    ensures Batch(ExpiredAlerts(old(store.Snapshot())), limit, gone) && deleted == |gone|
    ensures store.Snapshot() == WithoutAlerts(old(store.Snapshot()), gone)
  {
    var batch := Oldest(ExpiredAlerts(store.Snapshot()), AlertAge(store.alerts), limit);
    store.alerts, store.crossings := store.alerts - batch, store.crossings - batch;
    deleted, gone := |batch|, batch;
  }

  /** Alerts go with their crossings, and never before their last job is gone. */
  method DrainAlerts(store: S.Store, limit: nat) returns (total: nat)
    requires limit >= 1
    modifies store`alerts, store`crossings
    ensures store.Snapshot() == WithoutAlerts(old(store.Snapshot()), ExpiredAlerts(old(store.Snapshot())))
    ensures total == |ExpiredAlerts(old(store.Snapshot()))|
    ensures forall a :: a in store.alerts <==> a in old(store.alerts) && !ExpiredAlert(old(store.Snapshot()), a)
    ensures forall a | a in store.alerts :: store.alerts[a] == old(store.alerts)[a]
    ensures forall a :: a in store.crossings <==>
      a in old(store.crossings) && (a in old(store.alerts) ==> a in store.alerts)
  {
    ghost var db, all, removed := store.Snapshot(), ExpiredAlerts(store.Snapshot()), {};
    assert db.alerts - {} == db.alerts && db.crossings - {} == db.crossings;
    total := 0;
    var deleted := limit;
    while deleted >= limit
      invariant store.Snapshot() == WithoutAlerts(db, removed)
      invariant removed <= all && total == |removed| && (deleted < limit ==> removed == all)
      decreases |all - removed|, deleted >= limit
    {
      ghost var gone;
      deleted, gone := DeleteAlerts(store, limit);
      AlertsStep(db, removed, gone, limit);
      Progress(all, removed, gone, limit);
      removed := removed + gone;
      total := total + deleted;
    }
  }

  /** Deleting every expired alert orphans no job and loses no crossing that still waits. */
  lemma NoOrphans(db: Db)
    ensures var db' := WithoutAlerts(db, ExpiredAlerts(db));
      && (forall r | r in db'.rows && db'.rows[r].kind.PriceAlert? && db'.rows[r].kind.alert in db.alerts ::
            db'.rows[r].kind.alert in db'.alerts)
      && S.Waiting(db') == S.Waiting(db)
  {
  }
}
