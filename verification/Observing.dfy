/** Captures of crossings as the price ticker makes them, and what becomes of an alert whose price was seen. */
module Observing {
  import opened Policy
  import opened Tables
  import opened Machine
  import S = Store
  import CrossingPass

  /** An active alert that an observation reaches: created and quoted before the observation began, which is at most
      a minute old, and on the target's side of the price. */
  ghost predicate Seen(db: Db, a: nat, symbol: string, o: Observation) {
    && a in db.alerts && db.alerts[a].status == Active && db.alerts[a].symbol == symbol
    && o.price > 0.0 && o.startedAt <= o.storedAt <= db.now <= o.startedAt + 60
    && db.alerts[a].createdAt < o.startedAt && db.alerts[a].baseAt <= o.startedAt
    && if db.alerts[a].pct > 0 then o.price >= db.alerts[a].target else o.price <= db.alerts[a].target
  }

  /** The capturing statement for a tracked symbol is a step of the state machine, the one that picks exactly the
      alerts that are seen. */
  lemma CaptureIsObserve(s: State, symbol: string, o: Observation)
    requires symbol in ["BTCUSDT", "ETHUSDT", "SOLUSDT", "BNBUSDT"] && o.price > 0.0
    requires o.startedAt <= o.storedAt <= s.db.now <= o.startedAt + 60
    ensures var picked := set a | a in s.db.alerts && Seen(s.db, a, symbol, o);
      && Can(s, Prices(Observe(symbol, o, picked)))
      && Next(s, Prices(Observe(symbol, o, picked))).db ==
           Capture(s.db, o.price, o.storedAt, S.Reached(s.db, symbol, o.price, o.startedAt, o.storedAt))
  {
    S.TrackedIsSymbol(symbol);
    var picked := set a | a in s.db.alerts && Seen(s.db, a, symbol, o);
    assert picked == S.Reached(s.db, symbol, o.price, o.startedAt, o.storedAt);
  }

  /** A seen alert without an earlier crossing, in a free chat, is triggered at this price by the pass that follows,
      and its job carries the time the price was stored. */
  lemma SeenFires(db: Db, symbol: string, o: Observation, ids: seq<nat>, free: Chat -> bool, a: nat)
    requires symbol in ["BTCUSDT", "ETHUSDT", "SOLUSDT", "BNBUSDT"] && Seen(db, a, symbol, o)
    requires a !in db.crossings && free(db.alerts[a].chat)
    requires var captured := Capture(db, o.price, o.storedAt,
        S.Reached(db, symbol, o.price, o.startedAt, o.storedAt));
      CrossingPass.Listing(PurgeCrossings(captured), ids)
    ensures var captured := Capture(db, o.price, o.storedAt,
        S.Reached(db, symbol, o.price, o.startedAt, o.storedAt));
      var after := CrossingPass.Pass(PurgeCrossings(captured), ids, free);
      && a in after.alerts && after.alerts[a].status == Triggered && after.alerts[a].triggerPrice == Some(o.price)
      && exists id: nat :: CrossingPass.JobOf(PurgeCrossings(captured), after, a, id)
  {
    S.TrackedIsSymbol(symbol);
    var captured := Capture(db, o.price, o.storedAt, S.Reached(db, symbol, o.price, o.startedAt, o.storedAt));
    var start := PurgeCrossings(captured);
    assert a in S.Waiting(start) && start.crossings[a] == Crossing(o.price, o.storedAt);
    CrossingPass.PassSettles(start, ids, free, a);
    CrossingPass.FreeMembers(start, ids, free);
    CrossingPass.FreeSorted(start, ids, free);
    CrossingPass.FireJobs(start, CrossingPass.Free(start, ids, free));
    var fired := CrossingPass.Free(start, ids, free);
    var k :| 0 <= k < |fired| && fired[k] == a;
    assert CrossingPass.JobOf(start, CrossingPass.Pass(start, ids, free), fired[k], start.nextJob + k);
  }
}
