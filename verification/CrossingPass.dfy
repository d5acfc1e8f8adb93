/** The keyset-paged delivery of captured crossings, against one unpaged pass. */
module CrossingPass {
  import opened Tables
  import opened Paging
  import S = Store

  /** Triggers the given alerts one after another, each with its own crossing. */
  function FireAll(db: Db, ids: seq<nat>): Db {
    if ids == [] then db else
      var a, before := ids[|ids| - 1], FireAll(db, ids[..|ids| - 1]);
      if a in before.crossings then Trigger(before, a, before.crossings[a], before.nextJob) else before
  }

  /** Those of the given alerts whose chat is free, in the same order. */
  function Free(db: Db, ids: seq<nat>, free: Chat -> bool): seq<nat> {
    if ids == [] then [] else
      var a, before := ids[|ids| - 1], Free(db, ids[..|ids| - 1], free);
      if a in db.alerts && free(db.alerts[a].chat) then before + [a] else before
  }

  /** One unpaged pass over an ascending list of everything that waits. */
  ghost predicate Listing(db: Db, ids: seq<nat>) {
    Sorted(ids, S.IdOrder()) && forall a :: a in ids <==> a in S.Waiting(db)
  }

  ghost function Pass(db: Db, ids: seq<nat>, free: Chat -> bool): Db
    requires Listing(db, ids)
  {
    FireAll(db, Free(db, ids, free))
  }

  lemma FireSnoc(db: Db, ids: seq<nat>, a: nat)
    ensures var before := FireAll(db, ids);
      FireAll(db, ids + [a]) ==
        if a in before.crossings then Trigger(before, a, before.crossings[a], before.nextJob) else before
  {
  }

  lemma {:induction false} FreeMembers(db: Db, ids: seq<nat>, free: Chat -> bool)
    ensures forall a :: a in Free(db, ids, free) <==> a in ids && a in db.alerts && free(db.alerts[a].chat)
  {
    if ids != [] {
      var n := |ids| - 1;
      FreeMembers(db, ids[..n], free);
      assert ids == ids[..n] + [ids[n]];
    }
  }

  /** Triggering some alerts leaves every other alert and crossing as it was. */
  lemma {:induction false} FireKeeps(db: Db, ids: seq<nat>, b: nat)
    requires b !in ids
    ensures var db' := FireAll(db, ids);
      && (b in db'.crossings <==> b in db.crossings) && (b in db.crossings ==> db'.crossings[b] == db.crossings[b])
      && (b in db'.alerts <==> b in db.alerts) && (b in db.alerts ==> db'.alerts[b] == db.alerts[b])
  {
    if ids != [] {
      var n := |ids| - 1;
      assert ids == ids[..n] + [ids[n]];
      FireKeeps(db, ids[..n], b);
    }
  }

  /** Each triggered alert takes the price of its own crossing, which is gone, and gets one job. */
  lemma {:induction false} FireTriggers(db: Db, ids: seq<nat>, a: nat)
    requires a in ids && Sorted(ids, S.IdOrder()) && forall b | b in ids :: b in S.Waiting(db)
    ensures var db' := FireAll(db, ids);
      && a in db.crossings && a in db'.alerts && a !in db'.crossings
      && db'.alerts[a].status.Triggered? && db'.alerts[a].triggerPrice == Some(db.crossings[a].price)
  {
    var n := |ids| - 1;
    var before := ids[..n];
    assert ids == before + [ids[n]];
    FireSnoc(db, before, ids[n]);
    if a == ids[n] {
      assert a !in before;
      FireKeeps(db, before, a);
    } else {
      FireTriggers(db, before, a);
    }
  }

  /** The same list, however it was cut into pages: an ascending listing of a set is unique. */
  lemma {:induction false} ListingUnique(x: seq<nat>, y: seq<nat>)
    requires Sorted(x, S.IdOrder()) && Sorted(y, S.IdOrder()) && forall a :: a in x <==> a in y
    ensures x == y
    decreases |x|
  {
    assert |y| > 0 ==> y[0] in y;
    if x != [] {
      assert x[0] in x;
      assert x[0] == y[0];
      forall a ensures a in x[1..] <==> a in y[1..] {
        assert a in x <==> a == x[0] || a in x[1..];
        assert a in y <==> a == y[0] || a in y[1..];
        assert x[0] !in x[1..] && y[0] !in y[1..];
      }
      ListingUnique(x[1..], y[1..]);
    }
  }

  ghost predicate Intact(db: Db, db': Db, a: nat) {
    && a in db.crossings && a in db'.crossings && db'.crossings[a] == db.crossings[a]
    && a in db.alerts && a in db'.alerts && db'.alerts[a] == db.alerts[a]
  }

  /** One alert of a page: still as it was before the pass, triggered exactly if its chat is free. */
  lemma PageStep(db: Db, ids: seq<nat>, i: nat, free: Chat -> bool)
    requires i < |ids| && ids[i] in S.Waiting(db) && Sorted(ids, S.IdOrder())
    ensures var a, before := ids[i], FireAll(db, Free(db, ids[..i], free));
      && Intact(db, before, a)
      && FireAll(db, Free(db, ids[..i + 1], free)) ==
           (if free(db.alerts[a].chat) then Trigger(before, a, db.crossings[a], before.nextJob) else before)
      && |Free(db, ids[..i + 1], free)| == |Free(db, ids[..i], free)| + (if free(db.alerts[a].chat) then 1 else 0)
  {
    assert ids[..i + 1][..i] == ids[..i];
    assert ids[i] !in ids[..i];
    FreeMembers(db, ids[..i], free);
    FireKeeps(db, Free(db, ids[..i], free), ids[i]);
    FireSnoc(db, Free(db, ids[..i], free), ids[i]);
  }

  /** What a page reads is what the pass started from. */
  lemma PageAsRead(db: Db, ids: seq<nat>, from: nat, free: Chat -> bool)
    requires from <= |ids| && Sorted(ids, S.IdOrder()) && forall a | a in ids :: a in S.Waiting(db)
    ensures forall i | from <= i < |ids| :: Intact(db, FireAll(db, Free(db, ids[..from], free)), ids[i])
  {
    FreeMembers(db, ids[..from], free);
    forall i | from <= i < |ids| ensures Intact(db, FireAll(db, Free(db, ids[..from], free)), ids[i]) {
      assert ids[i] in S.Waiting(db);
      assert ids[i] !in ids[..from];
      FireKeeps(db, Free(db, ids[..from], free), ids[i]);
    }
  }

  method FireOne(store: S.Store, a: nat, chat: Chat, x: Crossing, free: Chat -> bool, ghost db: Db,
      ghost ids: seq<nat>, ghost i: nat)
      returns (triggered: bool)
    requires i < |ids| && ids[i] == a && a in S.Waiting(db) && Sorted(ids, S.IdOrder())
    requires chat == db.alerts[a].chat && x == db.crossings[a]
    requires store.Snapshot() == FireAll(db, Free(db, ids[..i], free))
    modifies store
    ensures store.Snapshot() == FireAll(db, Free(db, ids[..i + 1], free))
    ensures |Free(db, ids[..i + 1], free)| == |Free(db, ids[..i], free)| + (if triggered then 1 else 0)
  {
    PageStep(db, ids, i, free);
    triggered := store.TriggerAlert(a, chat, x, free);
  }

  /** The loop over one page, which lists `ids` from position `from` on. */
  method FirePage(store: S.Store, page: seq<nat>, free: Chat -> bool, ghost db: Db, ghost ids: seq<nat>,
      ghost from: nat) returns (created: nat)
    requires from <= |ids| && page == ids[from..] && Sorted(ids, S.IdOrder())
    requires forall a | a in ids :: a in S.Waiting(db)
    requires store.Snapshot() == FireAll(db, Free(db, ids[..from], free))
    modifies store
    ensures store.Snapshot() == FireAll(db, Free(db, ids, free))
    ensures created == |Free(db, ids, free)| - |Free(db, ids[..from], free)|
  {
    created := 0;
    var read := store.Snapshot();
    PageAsRead(db, ids, from, free);
    for i := 0 to |page|
      invariant forall k | from <= k < |ids| :: Intact(db, read, ids[k])
      invariant store.Snapshot() == FireAll(db, Free(db, ids[..from + i], free))
      invariant created == |Free(db, ids[..from + i], free)| - |Free(db, ids[..from], free)|
    {
      var a := page[i];
      assert a == ids[from + i] && Intact(db, read, ids[from + i]);
      var triggered := FireOne(store, a, read.alerts[a].chat, read.crossings[a], free, db, ids, from + i);
      if triggered { created := created + 1; }
    }
    assert ids[..from + |page|] == ids;
  }

  /** Nothing waiting lies between the pages: what is left beyond the last visited id is what waited
      there from the start. */
  lemma NextPage(db: Db, seen: seq<nat>, free: Chat -> bool, after: nat)
    requires (forall a | a in seen :: a in S.Waiting(db))
    requires (forall a | a in S.Waiting(db) :: a <= after <==> a in seen)
    ensures var db' := FireAll(db, Free(db, seen, free));
      forall a | a > after :: a in S.Waiting(db') <==> a in S.Waiting(db)
  {
    FreeMembers(db, seen, free);
    forall a | a > after ensures a in S.Waiting(FireAll(db, Free(db, seen, free))) <==> a in S.Waiting(db) {
      FireKeeps(db, Free(db, seen, free), a);
    }
  }

  /** processPriceAlertCrossings: for any page size, with the busy chats fixed, it ends after visiting
      every waiting crossing once; the effect and the count are those of one unpaged pass. */
  method ProcessCrossings(store: S.Store, limit: nat, free: Chat -> bool) returns (created: nat, ghost ids: seq<nat>)
    requires limit >= 1 && forall a | a in store.crossings :: a >= 1
    modifies store
    ensures var db := PurgeCrossings(old(store.Snapshot()));
      Listing(db, ids) && store.Snapshot() == Pass(db, ids, free) && created == |Free(db, ids, free)|
  {
    store.Purge();
    ghost var db := store.Snapshot();
    var after := 0;
    created, ids := 0, [];
    while true
      invariant Sorted(ids, S.IdOrder()) && forall a | a in ids :: a in S.Waiting(db)
      invariant forall a | a in S.Waiting(db) :: a <= after <==> a in ids
      invariant store.Snapshot() == FireAll(db, Free(db, ids, free)) && created == |Free(db, ids, free)|
      decreases |S.Beyond(db, after)|
    {
      NextPage(db, ids, free, after);
      var page := store.ReadPage(after, limit);
      if page == [] { return; }
      ghost var seen, left := ids, S.Beyond(db, after);
      ids := ids + page;
      Extend(db, seen, page, after, limit);
      assert ids[..|seen|] == seen && ids[|seen|..] == page;
      var n := FirePage(store, page, free, db, ids, |seen|);
      created := created + n;
      after := page[|page| - 1];
      Shrinks(S.Beyond(db, after), left, after);
    }
  }

  lemma Extend(db: Db, seen: seq<nat>, page: seq<nat>, after: nat, limit: nat)
    requires Sorted(seen, S.IdOrder()) && (forall a | a in seen :: a in S.Waiting(db))
    requires (forall a | a in S.Waiting(db) :: a <= after <==> a in seen)
    requires FirstOf(S.Beyond(db, after), S.IdOrder(), limit, page) && page != []
    ensures Sorted(seen + page, S.IdOrder()) && forall a | a in seen + page :: a in S.Waiting(db)
    ensures page[|page| - 1] > after && page[|page| - 1] in S.Waiting(db)
    ensures forall a | a in S.Waiting(db) :: a <= page[|page| - 1] <==> a in seen + page
  {
    var last := page[|page| - 1];
    assert last in page;
    forall a | a in S.Waiting(db) ensures a <= last <==> a in seen + page {
      if a in page { var k :| 0 <= k < |page| && page[k] == a; }
    }
  }

  lemma Shrinks(less: set<nat>, more: set<nat>, x: nat)
    requires less <= more && x in more && x !in less
    ensures |less| < |more|
  {
    assert less <= more - {x};
    SubsetSize(less, more - {x});
  }

  /** What a whole pass leaves: every waiting alert in a free chat is triggered at its crossing's price,
      every one in a busy chat still waits with the crossing it had, and nothing else waits. */
  lemma PassSettles(db: Db, ids: seq<nat>, free: Chat -> bool, a: nat)
    requires Listing(db, ids)
    ensures var db' := Pass(db, ids, free);
      if a !in S.Waiting(db) then a !in S.Waiting(db')
      else if free(db.alerts[a].chat)
      then a in db'.alerts && a !in db'.crossings && db'.alerts[a].status.Triggered?
           && db'.alerts[a].triggerPrice == Some(db.crossings[a].price)
      else a in S.Waiting(db') && Intact(db, db', a)
  {
    FreeMembers(db, ids, free);
    FreeSorted(db, ids, free);
    if a in Free(db, ids, free) {
      FireTriggers(db, Free(db, ids, free), a);
    } else {
      FireKeeps(db, Free(db, ids, free), a);
    }
  }

  ghost predicate JobOf(db: Db, db': Db, a: nat, id: nat) {
    && a in db.alerts && a in db.crossings && Job(id) in db'.rows
    && db'.rows[Job(id)] == NewJob(db.alerts[a].chat, PriceAlert(a), db.crossings[a].observedAt, db.now)
  }

  /** Each triggered alert gets one job, numbered in id order, at the time its price was observed. */
  lemma {:induction false} FireJobs(db: Db, ids: seq<nat>)
    requires Sorted(ids, S.IdOrder()) && forall b | b in ids :: b in S.Waiting(db)
    ensures var db' := FireAll(db, ids);
      && db'.nextJob == db.nextJob + |ids| && db'.now == db.now && db'.subs == db.subs
      && (forall k | 0 <= k < |ids| :: JobOf(db, db', ids[k], db.nextJob + k))
      && (forall r | r in db.rows && !(r.Job? && r.n >= db.nextJob) :: r in db'.rows && db'.rows[r] == db.rows[r])
  {
    if ids != [] {
      var n := |ids| - 1;
      var before := ids[..n];
      assert ids == before + [ids[n]];
      assert ids[n] in S.Waiting(db) && ids[n] !in before;
      FireJobs(db, before);
      FireKeeps(db, before, ids[n]);
      FireSnoc(db, before, ids[n]);
      forall k | 0 <= k < n ensures JobOf(db, FireAll(db, ids), ids[k], db.nextJob + k) {
        assert JobOf(db, FireAll(db, before), before[k], db.nextJob + k);
      }
    }
  }

  lemma {:induction false} FreeSorted(db: Db, ids: seq<nat>, free: Chat -> bool)
    requires Sorted(ids, S.IdOrder())
    ensures Sorted(Free(db, ids, free), S.IdOrder())
  {
    if ids != [] {
      var n := |ids| - 1;
      FreeSorted(db, ids[..n], free);
      FreeMembers(db, ids[..n], free);
      forall i | 0 <= i < |Free(db, ids[..n], free)| ensures Free(db, ids[..n], free)[i] < ids[n] {
        assert Free(db, ids[..n], free)[i] in Free(db, ids[..n], free);
      }
    }
  }

  /** Page size does not matter: two passes over the same tables end alike. */
  lemma PagesAgree(db: Db, x: seq<nat>, y: seq<nat>, free: Chat -> bool)
    requires Listing(db, x) && Listing(db, y)
    ensures Pass(db, x, free) == Pass(db, y, free)
  {
    ListingUnique(x, y);
  }
}
