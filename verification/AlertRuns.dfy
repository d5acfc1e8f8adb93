/** Price alerts over whole runs: one trigger, one job, the first crossing's price. */
module AlertRuns {
  import opened Policy
  import opened Tables
  import opened Machine
  import opened Claims
  import opened Views
  import opened Delivery
  import opened Alerts
  import opened Safety
  import InboxOrder

  /** No alert is triggered twice, not even after retention deleted it or its job. */
  lemma FiresOnce(states: seq<State>, labels: seq<Label>, i: nat, j: nat, v: Worker, w: Worker, a: nat, b: nat,
      m: nat, n: nat)
    requires Run(states, labels) && i < j < |labels|
    requires labels[i] == Prices(Fire(v, a, m)) && labels[j] == Prices(Fire(w, b, n))
    ensures a != b
  {
    FireRecorded(states[i], v, a, m);
    FireRecorded(states[j], w, b, n);
    Forever(states, labels, i + 1, j);
    RunAlerts(states, labels, j + 1);
    var fired, f := states[j + 1].h.fired, |states[i].h.fired|;
    assert states[i + 1].h.fired[f] == a;
    assert states[j].h.fired[f] == a;
    assert fired[f] == a;
    assert fired[|states[j].h.fired|] == b;
  }

  lemma FireRecorded(s: State, w: Worker, a: nat, id: nat)
    requires CanPrice(s, Fire(w, a, id))
    ensures NextPrice(s, Fire(w, a, id)).h.fired == s.h.fired + [a]
  {
  }

  /** Whatever waits for delivery has a positive id, so that a pass over the ids beyond zero misses none. */
  lemma PassMissesNone(states: seq<State>, labels: seq<Label>, i: nat)
    requires Run(states, labels) && i < |states|
    ensures forall a | a in states[i].db.crossings :: a >= 1
  {
    RunAlerts(states, labels, i);
    RunJobs(states, labels, i);
  }

  /* ---- One job per alert ---- */

  ghost predicate JobFor(db: Db, r: RowId, a: nat) { r in db.rows && db.rows[r].kind == PriceAlert(a) }

  /** A job for an alert appears only together with the alert's one trigger. */
  ghost predicate Steady(s: State, t: State, a: nat) {
    Grows(s, t) && forall r | JobFor(t.db, r, a) :: JobFor(s.db, r, a) || (a !in s.h.fired && a in t.h.fired)
  }

  lemma SteadyHandle(s: State, w: Worker, l: HandleStep, a: nat)
    requires DrawInv(s) && CanHandle(s, w, l)
    ensures forall r | JobFor(NextHandle(s, w, l).db, r, a) :: JobFor(s.db, r, a)
  {
    HandleShape(s, w, l);
    if Effective(s, w, l) {
      CommitDrawn(s, w, l.ctx);
      SteadyDelta(s.db, NextHandle(s, w, l).db, s.pcs[w].update, s.pcs[w].step.ids, s.pcs[w].step.view.began, a);
    }
  }

  lemma SteadyDelta(db: Db, db': Db, c: UpdateClaim, ids: seq<nat>, at: nat, a: nat)
    requires CommitDelta(db.rows, db'.rows, c, ids, at)
    ensures forall r | JobFor(db', r, a) :: JobFor(db, r, a)
  {
  }

  lemma SteadyPrice(s: State, l: PriceStep, a: nat)
    requires AlertInv(s) && CanPrice(s, l)
    ensures var t := NextPrice(s, l);
      forall r | JobFor(t.db, r, a) :: JobFor(s.db, r, a) || (a !in s.h.fired && a in t.h.fired)
  {
  }

  lemma SteadyWorld(s: State, l: WorldStep, a: nat)
    requires CanWorld(s, l)
    ensures forall r | JobFor(NextWorld(s, l).db, r, a) :: JobFor(s.db, r, a)
  {
  }

  lemma SteadyStep(s: State, l: Label, a: nat)
    requires Inv(s) && Can(s, l)
    ensures Steady(s, Next(s, l), a)
  {
    StepGrows(s, l);
    match l
    case Outbox(w, send) => InboxOrder.SendKinds(s, w, send);
    case Inbox(w, handle) => SteadyHandle(s, w, handle, a);
    case Prices(price) => SteadyPrice(s, price, a);
    case World(world) => SteadyWorld(s, world, a);
  }

  lemma {:induction false} ChainFired(states: seq<State>, i: nat, r: RowId, a: nat)
    requires i < |states| && states[0].db.rows == map[] && forall k | 0 <= k < i :: Steady(states[k], states[k + 1], a)
    requires JobFor(states[i].db, r, a)
    ensures a in states[i].h.fired
  {
    if i > 0 {
      assert Steady(states[i - 1], states[i - 1 + 1], a);
      if JobFor(states[i - 1].db, r, a) { ChainFired(states, i - 1, r, a); }
    }
  }

  lemma {:induction false} ChainKeeps(states: seq<State>, i: nat, j: nat, r: RowId, a: nat)
    requires i <= j < |states| && (forall k | i <= k < j :: Steady(states[k], states[k + 1], a))
    requires a in states[i].h.fired && JobFor(states[j].db, r, a)
    ensures JobFor(states[i].db, r, a)
  {
    if i < j {
      ChainGrows(states, i, j - 1);
      assert Steady(states[j - 1], states[j - 1 + 1], a);
      ChainKeeps(states, i, j - 1, r, a);
    }
  }

  /** Over its whole life an alert has at most one job: any two jobs seen at any two moments of a
      run are the same row. */
  lemma OneJobForever(states: seq<State>, labels: seq<Label>, i: nat, j: nat, q: RowId, r: RowId, a: nat)
    requires Run(states, labels) && i <= j < |states| && JobFor(states[i].db, q, a) && JobFor(states[j].db, r, a)
    ensures q == r
  {
    forall k | 0 <= k < j ensures Steady(states[k], states[k + 1], a) {
      RunInv(states, labels, k);
      SteadyStep(states[k], labels[k], a);
    }
    ChainFired(states, i, q, a);
    ChainKeeps(states, i, j, r, a);
    RunInv(states, labels, i);
  }

  /* ---- The trigger price ---- */

  /** This observation captured the alert's first crossing. */
  ghost predicate FirstCapture(s: State, l: Label, a: nat, o: Observation) {
    && l.Prices? && l.price.Observe? && l.price.o == o && a in l.price.picked
    && a in s.db.alerts && s.db.alerts[a].status.Active? && s.db.alerts[a].symbol == l.price.symbol && a !in s.h.firsts
  }

  ghost predicate FirstTold(s: State, t: State, l: Label, a: nat) {
    a in t.h.firsts ==> (a in s.h.firsts && s.h.firsts[a] == t.h.firsts[a]) || FirstCapture(s, l, a, t.h.firsts[a])
  }

  lemma FirstPrice(s: State, l: PriceStep, a: nat)
    requires AlertInv(s) && CanPrice(s, l)
    ensures FirstTold(s, NextPrice(s, l), Prices(l), a)
  {
    if a in s.db.alerts { assert AlertState(s, a); }
  }

  lemma FirstWorld(s: State, l: WorldStep)
    requires CanWorld(s, l)
    ensures NextWorld(s, l).h.firsts == s.h.firsts
  {
  }

  lemma FirstHandle(s: State, w: Worker, l: HandleStep)
    requires CanHandle(s, w, l)
    ensures NextHandle(s, w, l).h.firsts == s.h.firsts
  {
    HandleShape(s, w, l);
  }

  lemma FirstSend(s: State, w: Worker, l: SendStep)
    requires CanSend(s, w, l)
    ensures NextSend(s, w, l).h.firsts == s.h.firsts
  {
    SendKeeps(s, w, l);
  }

  lemma FirstOrigin(s: State, l: Label, a: nat)
    requires AlertInv(s) && Can(s, l)
    ensures FirstTold(s, Next(s, l), l, a)
  {
    match l
    case Outbox(w, send) => FirstSend(s, w, send);
    case Inbox(w, handle) => FirstHandle(s, w, handle);
    case Prices(price) => FirstPrice(s, price, a);
    case World(world) => FirstWorld(s, world);
  }

  lemma {:induction false} FirstObserved(states: seq<State>, labels: seq<Label>, i: nat, a: nat) returns (k: nat)
    requires Run(states, labels) && i < |states| && a in states[i].h.firsts
    ensures k < i && FirstCapture(states[k], labels[k], a, states[i].h.firsts[a])
  {
    k := i - 1;
    RunAlerts(states, labels, k);
    FirstOrigin(states[k], labels[k], a);
    if a in states[k].h.firsts && states[k].h.firsts[a] == states[i].h.firsts[a] {
      k := FirstObserved(states, labels, k, a);
    }
  }

  /** A triggered alert carries the price of the first observation captured for it while active, which
      lies on the right side of its fixed target and began strictly after the alert was created. */
  lemma TriggeredByFirstCrossing(states: seq<State>, labels: seq<Label>, i: nat, a: nat) returns (k: nat)
    requires Run(states, labels) && i < |states| && a in states[i].db.alerts && states[i].db.alerts[a].status.Triggered?
    ensures k < i && labels[k].Prices? && labels[k].price.Observe?
    ensures FirstCapture(states[k], labels[k], a, labels[k].price.o)
    ensures var o, alert := labels[k].price.o, states[i].db.alerts[a];
      && alert.triggerPrice == Some(o.price) && alert.target == Target(alert.base, alert.pct)
      && (if alert.pct > 0 then o.price >= alert.target else o.price <= alert.target)
      && alert.createdAt < o.startedAt
  {
    RunAlerts(states, labels, i);
    assert AlertState(states[i], a);
    k := FirstObserved(states, labels, i, a);
  }

  /** A captured crossing is never lost or replaced as long as its alert is active. */
  lemma CrossingPersists(states: seq<State>, labels: seq<Label>, i: nat, j: nat, a: nat)
    requires Run(states, labels) && i <= j < |states| && a in states[i].db.alerts && a in states[j].db.alerts
    requires states[i].db.alerts[a].status.Active? && states[j].db.alerts[a].status.Active?
    requires a in states[i].db.crossings
    ensures a in states[j].db.crossings && states[j].db.crossings[a] == states[i].db.crossings[a]
  {
    RunAlerts(states, labels, i);
    RunAlerts(states, labels, j);
    assert AlertState(states[i], a) && AlertState(states[j], a);
    Forever(states, labels, i, j);
  }

  lemma NoneAtFirst(s: State, chat: Chat)
    requires Init(s)
    ensures !OverTen(s.db, chat)
  {
    assert OpenAlerts(s.db, chat) == {};
  }

  /** In every step of every run: a chat within its limit leaves it if and only if the step lets a creation
      take effect that is accepted while ten alerts are open. That needs a tainted chat. */
  lemma LimitLeft(states: seq<State>, labels: seq<Label>, k: nat, chat: Chat)
    requires Run(states, labels) && k < |labels| && |OpenAlerts(states[k].db, chat)| <= 10
    ensures |OpenAlerts(states[k + 1].db, chat)| > 10 <==> Overfills(states[k], labels[k], chat)
    ensures Overfills(states[k], labels[k], chat) ==> chat in states[k].h.tainted
  {
    RunBase(states, labels, k);
    RunJobs(states, labels, k);
    LimitStep(states[k], labels[k], chat);
    if Overfills(states[k], labels[k], chat) { OverfillIsTorn(states[k], labels[k], chat); }
  }

  /** Up to any moment of a run a chat has never had more than ten alerts that are active or still being
      delivered, if and only if no creation was accepted while ten were open. */
  lemma AtMostTen(states: seq<State>, labels: seq<Label>, n: nat, chat: Chat)
    requires Run(states, labels) && n < |states|
    ensures (forall i | 0 <= i <= n :: |OpenAlerts(states[i].db, chat)| <= 10) <==>
      (forall k | 0 <= k < n :: !Overfills(states[k], labels[k], chat))
  {
    if forall k | 0 <= k < n :: !Overfills(states[k], labels[k], chat) {
      forall i | 0 <= i <= n ensures |OpenAlerts(states[i].db, chat)| <= 10 { WithinTen(states, labels, i, chat); }
    }
    if forall i | 0 <= i <= n :: |OpenAlerts(states[i].db, chat)| <= 10 {
      forall k | 0 <= k < n ensures !Overfills(states[k], labels[k], chat) { LimitLeft(states, labels, k, chat); }
    }
  }

  lemma {:induction false} WithinTen(states: seq<State>, labels: seq<Label>, i: nat, chat: Chat)
    requires Run(states, labels) && i < |states| && forall k | 0 <= k < i :: !Overfills(states[k], labels[k], chat)
    ensures |OpenAlerts(states[i].db, chat)| <= 10
  {
    if i == 0 {
      NoneAtFirst(states[0], chat);
    } else {
      WithinTen(states, labels, i - 1, chat);
      LimitLeft(states, labels, i - 1, chat);
    }
  }

  /** More than ten open alerts exist only after a creation was accepted while ten were open, and only until
      the count has fallen to ten again. */
  lemma {:induction false} OverTenSince(states: seq<State>, labels: seq<Label>, i: nat, chat: Chat) returns (k: nat)
    requires Run(states, labels) && i < |states| && OverTen(states[i].db, chat)
    ensures k < i && Overfills(states[k], labels[k], chat) && chat in states[k].h.tainted
    ensures forall m | k < m <= i :: OverTen(states[m].db, chat)
  {
    NoneAtFirst(states[0], chat);
    k := i - 1;
    if OverTen(states[k].db, chat) {
      k := OverTenSince(states, labels, k, chat);
    } else {
      LimitLeft(states, labels, k, chat);
    }
  }

  /** Cron, deliveries of scheduled jobs and replies, and every command except an alert cancellation leave
      the alert jobs alone. */
  lemma AlertJobsUntouched(s: State, l: Label, r: RowId, a: nat)
    requires BaseInv(s) && Can(s, l) && JobFor(s.db, r, a)
    requires match l
      case Outbox(w, send) => SenderAt(s, w) && !s.pcs[w].claim.kind.PriceAlert?
      case Inbox(w, handle) => HandlerAt(s, w) && !s.pcs[w].update.command.CancelAlert?
      case Prices(price) => false
      case World(world) => world.Cron?
    ensures var db' := Next(s, l).db; r in db'.rows && db'.rows[r] == s.db.rows[r]
  {
    match l
    case Outbox(w, send) => SendShape(s, w, send); assert ClaimOk(s.db, s.pcs[w]);
    case Inbox(w, handle) => CommitSpares(s, w, handle, r);
    case World(world) =>
  }

  lemma CommitSpares(s: State, w: Worker, l: HandleStep, r: RowId)
    requires RowsInv(s.db) && CanHandle(s, w, l) && HandlerAt(s, w) && !s.pcs[w].update.command.CancelAlert?
    requires r in s.db.rows && s.db.rows[r].kind.PriceAlert?
    ensures var db' := NextHandle(s, w, l).db; r in db'.rows && db'.rows[r] == s.db.rows[r]
  {
    HandleShape(s, w, l);
    if Effective(s, w, l) {
      CommitSparesAlerts(s.db, s.pcs[w].update, s.pcs[w].step.ids, s.pcs[w].step.view, l.ctx, r);
    }
  }

  lemma CommitSparesAlerts(db: Db, c: UpdateClaim, ids: seq<nat>, view: View, ctx: Context, r: RowId)
    requires r in db.rows && db.rows[r].kind.PriceAlert? && !c.command.CancelAlert? && r.Job?
    ensures var db' := CommitUpdate(db, c, ids, view, ctx); r in db'.rows && db'.rows[r] == db.rows[r]
  {
    var recorded := db.(versions := Record(db.versions, c, view));
    var mutated := Mutate(recorded, c, view, ctx);
    NewReplyRows(mutated.rows, c, ids, view.began);
    MutateSparesAlerts(recorded, c, view, ctx, r);
  }

  lemma MutateSparesAlerts(db: Db, c: UpdateClaim, view: View, ctx: Context, r: RowId)
    requires r in db.rows && db.rows[r].kind.PriceAlert? && !c.command.CancelAlert?
    ensures var rows := Mutate(db, c, view, ctx).rows; r in rows && rows[r] == db.rows[r]
  {
    if c.command.AddAlert? { CreateRows(db, c, c.command.symbol, c.command.pct, view, ctx); }
  }
}
