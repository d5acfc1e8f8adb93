/** One-shot price alerts: fixed target, first captured crossing, one job, bounded number per chat. */
module Alerts {
  import opened Policy
  import opened Tables
  import opened Machine
  import opened Claims
  import opened Views
  import opened Delivery
  import opened Paging

  /* ---- Triggering ---- */

  ghost predicate AlertOk(a: Alert, now: nat) {
    a.base > 0.0 && ValidPct(a.pct) && a.target == Target(a.base, a.pct) && a.createdAt <= now
  }

  /** An observation that may trigger an alert: on the right side of its target, begun after its creation. */
  ghost predicate Justifies(o: Observation, a: Alert) {
    Crosses(a, o.price) && a.createdAt < o.startedAt && a.baseAt <= o.startedAt
  }

  ghost function CrossingOf(o: Observation): Crossing { Crossing(o.price, o.storedAt) }

  ghost predicate AlertState(s: State, a: nat)
    requires a in s.db.alerts
  {
    var alert := s.db.alerts[a];
    && AlertOk(alert, s.db.now)
    && (alert.status.Active? ==>
          && a !in s.h.fired
          && (a in s.db.crossings <==> a in s.h.firsts)
          && (a in s.db.crossings ==> s.db.crossings[a] == CrossingOf(s.h.firsts[a])))
    && (alert.status.Triggered? ==> a in s.h.firsts && alert.triggerPrice == Some(s.h.firsts[a].price))
    && (a in s.h.firsts ==> Justifies(s.h.firsts[a], alert))
  }

  ghost predicate AlertInv(s: State) {
    && (forall a | a in s.db.alerts :: AlertState(s, a))
    && (forall a | a in s.db.crossings :: a in s.db.alerts)
    && (forall a | a in s.h.firsts || a in s.h.fired :: a < s.db.nextAlert)
    && (forall i, j | 0 <= i < j < |s.h.fired| :: s.h.fired[i] != s.h.fired[j])
    && (forall w, a | w in s.pcs && s.pcs[w].Ticker? && a in s.pcs[w].page ::
          a in s.h.firsts && s.pcs[w].page[a] == CrossingOf(s.h.firsts[a]))
  }

  /** Steps that leave alerts, crossings and tickers alone. */
  lemma AlertFrame(s: State, t: State)
    requires AlertInv(s)
    requires t.db.alerts == s.db.alerts && t.db.crossings == s.db.crossings && s.db.now <= t.db.now
    requires s.db.nextAlert == t.db.nextAlert
    requires t.h.firsts == s.h.firsts && t.h.fired == s.h.fired
    requires forall w | w in t.pcs && t.pcs[w].Ticker? :: w in s.pcs && t.pcs[w] == s.pcs[w]
    ensures AlertInv(t)
  {
  }

  lemma AlertSend(s: State, w: Worker, l: SendStep)
    requires AlertInv(s) && CanSend(s, w, l)
    ensures AlertInv(NextSend(s, w, l))
  {
    SendPrograms(s, w, l);
    SendKeeps(s, w, l);
    AlertFrame(s, NextSend(s, w, l));
  }

  /** Sender steps never touch alerts, crossings or the inbox. */
  lemma SendKeeps(s: State, w: Worker, l: SendStep)
    requires CanSend(s, w, l)
    ensures var t := NextSend(s, w, l);
      && t.db.(rows := s.db.rows, subs := s.db.subs) == s.db
      && t.h.(fate := s.h.fate, tally := s.h.tally, kicked := s.h.kicked, tainted := s.h.tainted) == s.h
  {
    match l
    case Claim(r, token, at, heard) =>
    case BeginSend =>
    case Conclude(_) =>
    case Finalize(_, _) =>
    case _ =>
  }

  /** What one inbox transaction may do to the alerts: nothing, create one, or withdraw one. */
  ghost predicate AlertsDelta(db: Db, db': Db, c: UpdateClaim, view: View, ctx: Context) {
    && db'.crossings == db.crossings && db'.now == db.now
    && ((db'.alerts == db.alerts && db'.nextAlert == db.nextAlert)
        || (exists a :: a in db.alerts && db'.nextAlert == db.nextAlert
              && db'.alerts == db.alerts[a := db.alerts[a].(status := Withdrawn, updatedAt := view.began)])
        || CreatesOne(db, db', c, view, ctx))
  }

  ghost predicate CreatesOne(db: Db, db': Db, c: UpdateClaim, view: View, ctx: Context) {
    && c.command.AddAlert? && AlertAccepted(db, c, c.command.symbol, c.command.pct, view, ctx)
    && db'.nextAlert == ctx.alertId + 1
    && db'.alerts == db.alerts[ctx.alertId := NewAlert(c, c.command.symbol, c.command.pct, ctx.quote.value, view, ctx)]
  }

  lemma MutateAlerts(db: Db, c: UpdateClaim, view: View, ctx: Context)
    ensures AlertsDelta(db, Mutate(db, c, view, ctx), c, view, ctx)
  {
    match c.command
    case AddAlert(symbol, pct) =>
    case CancelAlert(a) =>
    case cmd =>
  }

  lemma CommitAlerts(db: Db, c: UpdateClaim, ids: seq<nat>, view: View, ctx: Context)
    ensures AlertsDelta(db, CommitUpdate(db, c, ids, view, ctx), c, view, ctx)
  {
    if OwnsUpdate(db.updates, c) && Admits(db.versions, c, view) {
      MutateAlerts(db.(versions := Record(db.versions, c, view)), c, view, ctx);
    }
  }

  lemma AlertCommit(s: State, t: State, c: UpdateClaim, view: View, ctx: Context)
    requires AlertInv(s) && ctx.alertId >= s.db.nextAlert && (forall a | a in s.db.alerts :: a < s.db.nextAlert)
    requires AlertsDelta(s.db, t.db, c, view, ctx) && ctx.createdAt <= s.db.now
    requires t.h.firsts == s.h.firsts && t.h.fired == s.h.fired
    requires forall w | w in t.pcs && t.pcs[w].Ticker? :: w in s.pcs && t.pcs[w] == s.pcs[w]
    ensures AlertInv(t)
  {
  }

  lemma AlertHandle(s: State, w: Worker, l: HandleStep)
    requires AlertInv(s) && EnabledInv(s.db) && CanHandle(s, w, l)
    ensures AlertInv(NextHandle(s, w, l))
  {
    HandleShape(s, w, l);
    var t := NextHandle(s, w, l);
    if Effective(s, w, l) {
      CommitAlerts(s.db, s.pcs[w].update, s.pcs[w].step.ids, s.pcs[w].step.view, l.ctx);
      AlertCommit(s, t, s.pcs[w].update, s.pcs[w].step.view, l.ctx);
    } else {
      AlertFrame(s, t);
    }
  }

  lemma AlertObserved(s: State, t: State, symbol: string, o: Observation, picked: set<nat>)
    requires AlertInv(s) && EnabledInv(s.db) && CanPrice(s, Observe(symbol, o, picked))
    requires t == NextPrice(s, Observe(symbol, o, picked))
    ensures AlertInv(t)
  {
    forall a | a in t.db.alerts ensures AlertState(t, a) { AlertSeen(s, t, symbol, o, picked, a); }
    forall a | a in s.h.firsts ensures a in t.h.firsts && t.h.firsts[a] == s.h.firsts[a] {
      if a in s.db.alerts { assert AlertState(s, a); }
    }
  }

  lemma AlertSeen(s: State, t: State, symbol: string, o: Observation, picked: set<nat>, a: nat)
    requires a in s.db.alerts && AlertState(s, a)
    requires CanPrice(s, Observe(symbol, o, picked)) && t == NextPrice(s, Observe(symbol, o, picked))
    ensures AlertState(t, a)
  {
  }

  lemma AlertFired(s: State, t: State, w: Worker, a: nat, id: nat)
    requires AlertInv(s) && EnabledInv(s.db) && CanPrice(s, Fire(w, a, id)) && t == NextPrice(s, Fire(w, a, id))
    ensures AlertInv(t)
  {
  }

  lemma AlertPrice(s: State, l: PriceStep)
    requires AlertInv(s) && EnabledInv(s.db) && CanPrice(s, l)
    ensures AlertInv(NextPrice(s, l))
  {
    var t := NextPrice(s, l);
    match l
    case Observe(symbol, o, picked) => AlertObserved(s, t, symbol, o, picked);
    case Fire(w, a, id) => AlertFired(s, t, w, a, id);
    case Purge => forall a | a in t.db.alerts ensures AlertState(t, a) { assert AlertState(s, a); }
    case ReadPage(w, ids) =>
      assert forall a | a in ids :: AlertState(s, a);
      forall a | a in t.db.alerts ensures AlertState(t, a) { assert AlertState(s, a); }
  }

  lemma AlertWorld(s: State, l: WorldStep)
    requires AlertInv(s) && CanWorld(s, l)
    ensures AlertInv(NextWorld(s, l))
  {
    var t := NextWorld(s, l);
    if l.DropAlert? {
      forall a | a in t.db.alerts ensures AlertState(t, a) { assert AlertState(s, a); }
    } else {
      AlertFrame(s, t);
    }
  }

  /* ---- At most ten open alerts per chat ---- */

  ghost predicate OverTen(db: Db, chat: Chat) { |OpenAlerts(db, chat)| > MAX_OPEN_ALERTS }

  ghost predicate StaysLimited(db: Db, db': Db, chat: Chat) { OverTen(db', chat) ==> OverTen(db, chat) }

  /** Whenever no alert becomes open, the count can only fall. */
  lemma LimitShrinks(db: Db, db': Db, chat: Chat)
    requires FewerOpen(db, db', chat)
    ensures StaysLimited(db, db', chat) && |OpenAlerts(db', chat)| <= |OpenAlerts(db, chat)|
  {
    SubsetSize(OpenAlerts(db', chat), OpenAlerts(db, chat));
  }

  lemma LimitSend(s: State, w: Worker, l: SendStep, chat: Chat)
    requires CanSend(s, w, l)
    ensures StaysLimited(s.db, NextSend(s, w, l).db, chat)
  {
    SendShape(s, w, l);
    match OutcomeOf(s, w, l)
    case Some(v) =>
      SettleFewer(s.db, s.pcs[w].claim, v, chat);
      LimitShrinks(s.db, Settle(s.db, s.pcs[w].claim, v), chat);
    case None => if l.Claim? { LimitTaken(s.db, l.r, l.token, l.at, chat); }
  }

  lemma LimitTaken(db: Db, r: RowId, token: Token, at: nat, chat: Chat)
    requires r in db.rows && db.rows[r].status.Open()
    ensures StaysLimited(db, TakeClaim(db, r, token, at), chat)
  {
    LimitShrinks(db, TakeClaim(db, r, token, at), chat);
  }

  /** Rows keep their alert and never reopen. */
  ghost predicate NoneReopen(rows: map<RowId, Row>, rows': map<RowId, Row>) {
    forall r | r in rows' && rows'[r].kind.PriceAlert? && rows'[r].status.Open() ::
      r in rows && rows[r].kind == rows'[r].kind && rows[r].status.Open()
  }

  /** A new alert adds one to the open alerts of its chat. */
  lemma LimitCreate(db: Db, db': Db, id: nat, chat: Chat)
    requires id in db'.alerts && id !in db.alerts && db'.alerts[id].status.Active?
    requires db'.rows == db.rows || NoneReopen(db.rows, db'.rows)
    requires forall a | a in db.alerts :: a in db'.alerts && db'.alerts[a] == db.alerts[a]
    requires forall a | a in db'.alerts && a != id :: a in db.alerts
    requires forall r | r in db.rows && db.rows[r].kind.PriceAlert? && db.rows[r].status.Open() ::
      r in db'.rows && db'.rows[r] == db.rows[r]
    ensures OpenAlerts(db', chat) == OpenAlerts(db, chat) + if db'.alerts[id].chat == chat then {id} else {}
    ensures id !in OpenAlerts(db, chat)
  {
    forall a | a in OpenAlerts(db', chat) && a != id ensures a in OpenAlerts(db, chat) {}
    forall a | a in OpenAlerts(db, chat) ensures a in OpenAlerts(db', chat) {}
  }

  /** A creation of the chat that is accepted, from a count read before, while at least ten are open. */
  ghost predicate Overfills(s: State, l: Label, chat: Chat)
    requires Can(s, l)
  {
    && l.Inbox? && Effective(s, l.w, l.handle)
    && var c := s.pcs[l.w].update;
    && c.chat == chat && c.command.AddAlert?
    && AlertAccepted(s.db, c, c.command.symbol, c.command.pct, s.pcs[l.w].step.view, l.handle.ctx)
    && |OpenAlerts(s.db, chat)| >= MAX_OPEN_ALERTS
  }

  /** In an untainted chat the count that was read still bounds the open alerts. */
  lemma OverfillIsTorn(s: State, l: Label, chat: Chat)
    requires ViewInv(s) && Can(s, l) && Overfills(s, l, chat)
    ensures chat in s.h.tainted
  {
    ReadsHold(s, l.w);
    if OpenAlerts(s.db, chat) <= s.pcs[l.w].step.view.open {
      SubsetSize(OpenAlerts(s.db, chat), s.pcs[l.w].step.view.open);
    }
  }

  /** What a commit adds to the open alerts of a chat: the alert it creates there, if it is accepted. */
  lemma LimitCommit(s: State, t: State, w: Worker, ctx: Context, chat: Chat)
    requires CommittedStep(s, t, w, ctx)
    requires CommitDelta(s.db.rows, t.db.rows, s.pcs[w].update, s.pcs[w].step.ids, s.pcs[w].step.view.began)
    requires AlertsDelta(s.db, t.db, s.pcs[w].update, s.pcs[w].step.view, ctx)
    requires ctx.alertId >= s.db.nextAlert && forall a | a in s.db.alerts :: a < s.db.nextAlert
    ensures var c, view := s.pcs[w].update, s.pcs[w].step.view;
      if c.chat == chat && c.command.AddAlert?
         && AlertAccepted(s.db, c, c.command.symbol, c.command.pct, view, ctx)
      then |OpenAlerts(t.db, chat)| == |OpenAlerts(s.db, chat)| + 1
      else |OpenAlerts(t.db, chat)| <= |OpenAlerts(s.db, chat)|
  {
    var c, ids, view := s.pcs[w].update, s.pcs[w].step.ids, s.pcs[w].step.view;
    DeltaReopensNone(s.db.rows, t.db.rows, c, ids, view.began);
    if CreatesOne(s.db, t.db, c, view, ctx) {
      AddSparesRows(s, t, w, ctx);
      LimitCreated(s.db, t.db, c, view, ctx, chat);
    } else {
      AcceptedCreates(s, t, w, ctx);
      FewerCommitted(s.db, t.db, c, view, ctx, chat);
      LimitShrinks(s.db, t.db, chat);
    }
  }

  lemma LimitCreated(db: Db, db': Db, c: UpdateClaim, view: View, ctx: Context, chat: Chat)
    requires CreatesOne(db, db', c, view, ctx) && ctx.alertId !in db.alerts && NoneReopen(db.rows, db'.rows)
    requires forall r | r in db.rows && db.rows[r].kind.PriceAlert? :: r in db'.rows && db'.rows[r] == db.rows[r]
    ensures |OpenAlerts(db', chat)| == |OpenAlerts(db, chat)| + if c.chat == chat then 1 else 0
  {
    LimitCreate(db, db', ctx.alertId, chat);
  }

  lemma FewerCommitted(db: Db, db': Db, c: UpdateClaim, view: View, ctx: Context, chat: Chat)
    requires AlertsDelta(db, db', c, view, ctx) && !CreatesOne(db, db', c, view, ctx) && NoneReopen(db.rows, db'.rows)
    ensures FewerOpen(db, db', chat)
  {
  }

  /** An alert creation cancels nothing. */
  lemma AddSparesRows(s: State, t: State, w: Worker, ctx: Context)
    requires CommittedStep(s, t, w, ctx) && s.pcs[w].update.command.AddAlert?
    requires CommitDelta(s.db.rows, t.db.rows, s.pcs[w].update, s.pcs[w].step.ids, s.pcs[w].step.view.began)
    ensures forall r | r in s.db.rows && s.db.rows[r].kind.PriceAlert? :: r in t.db.rows && t.db.rows[r] == s.db.rows[r]
  {
    var c, ids, view := s.pcs[w].update, s.pcs[w].step.ids, s.pcs[w].step.view;
    var recorded := s.db.(versions := Record(s.db.versions, c, view));
    CreateRows(recorded, c, c.command.symbol, c.command.pct, view, ctx);
    NewReplyRows(Mutate(recorded, c, view, ctx).rows, c, ids, view.began);
  }

  lemma AcceptedCreates(s: State, t: State, w: Worker, ctx: Context)
    requires CommittedStep(s, t, w, ctx) && !CreatesOne(s.db, t.db, s.pcs[w].update, s.pcs[w].step.view, ctx)
    ensures var c := s.pcs[w].update; c.command.AddAlert? ==>
      !AlertAccepted(s.db, c, c.command.symbol, c.command.pct, s.pcs[w].step.view, ctx)
  {
  }

  lemma DeltaReopensNone(rows: map<RowId, Row>, rows': map<RowId, Row>, c: UpdateClaim, ids: seq<nat>, at: nat)
    requires CommitDelta(rows, rows', c, ids, at)
    ensures NoneReopen(rows, rows')
  {
  }

  /** The limit of a chat that keeps to it holds after a step exactly if the step does not overfill it. */
  ghost predicate LimitTold(s: State, l: Label, chat: Chat)
    requires Can(s, l)
  {
    !OverTen(s.db, chat) ==> (OverTen(Next(s, l).db, chat) <==> Overfills(s, l, chat))
  }

  lemma LimitHandle(s: State, w: Worker, l: HandleStep, chat: Chat)
    requires AlertJobsInv(s.db) && DrawInv(s) && CanHandle(s, w, l)
    ensures LimitTold(s, Inbox(w, l), chat)
  {
    HandleShape(s, w, l);
    var t := NextHandle(s, w, l);
    if Effective(s, w, l) {
      CommitDrawn(s, w, l.ctx);
      CommitAlerts(s.db, s.pcs[w].update, s.pcs[w].step.ids, s.pcs[w].step.view, l.ctx);
      LimitCommit(s, t, w, l.ctx, chat);
    } else {
      LimitShrinks(s.db, t.db, chat);
    }
  }

  lemma LimitStep(s: State, l: Label, chat: Chat)
    requires AlertJobsInv(s.db) && DrawInv(s) && Can(s, l)
    ensures LimitTold(s, l, chat)
  {
    match l
    case Outbox(w, send) => LimitSend(s, w, send, chat);
    case Inbox(w, handle) => LimitHandle(s, w, handle, chat);
    case Prices(price) =>
      PriceFewer(s, price, chat);
      LimitShrinks(s.db, NextPrice(s, price).db, chat);
    case World(world) =>
      WorldFewer(s, world, chat);
      LimitShrinks(s.db, NextWorld(s, world).db, chat);
  }
}
