/** What an open inbox transaction has read stays true while the chat lock protects it. */
module Views {
  import opened Policy
  import opened Tables
  import opened Machine
  import opened Claims

  /* ---- Times ---- */

  /** Scheduled jobs and last_sent never lie in the future, and every interval is positive. */
  ghost predicate TimeInv(db: Db) {
    && (forall r | r in db.rows && db.rows[r].kind.Scheduled? :: db.rows[r].scheduledAt <= db.now)
    && (forall chat | chat in db.subs :: db.subs[chat].lastSent <= db.now && db.subs[chat].interval >= 1)
  }

  lemma TimeSettle(db: Db, c: Claim, v: Verdict)
    requires TimeInv(db) && Owns(db.rows, c) && Faithful(db.rows[c.row], c)
    ensures TimeInv(Settle(db, c, v))
  {
  }

  lemma TimeSend(s: State, w: Worker, l: SendStep)
    requires TimeInv(s.db) && ClaimInv(s) && CanSend(s, w, l)
    ensures var t := NextSend(s, w, l); TimeInv(t.db)
  {
    SendShape(s, w, l);
    if OutcomeOf(s, w, l).Some? {
      assert ClaimOk(s.db, s.pcs[w]);
      TimeSettle(s.db, s.pcs[w].claim, OutcomeOf(s, w, l).value);
    }
  }

  /** A transaction's own time has come before it commits. */
  ghost predicate ViewTimes(s: State) {
    forall w | HandlerAt(s, w) ::
      match s.pcs[w].step
      case Begun(at) => at <= s.db.now
      case Prepared(_, view) => view.began <= view.readAt <= s.db.now
      case _ => true
  }

  lemma MutateSubs(db: Db, c: UpdateClaim, view: View, ctx: Context)
    ensures Mutate(db, c, view, ctx).subs == SubsAfter(db.subs, c.chat, c.command, view)
  {
    match c.command
    case AddAlert(symbol, pct) =>
    case CancelAlert(a) =>
    case cmd =>
  }

  /** A commit closes its update row and nothing else in the inbox, and changes the subscriber of its
      chat at most. */
  lemma CommitCloses(db: Db, c: UpdateClaim, ids: seq<nat>, view: View, ctx: Context)
    requires OwnsUpdate(db.updates, c)
    ensures var db' := CommitUpdate(db, c, ids, view, ctx);
      && db'.updates == db.updates[c.id := db.updates[c.id].(status := Processed, claimedUntil := None,
          closedAt := view.began)]
      && db'.versions == Record(db.versions, c, view)
      && db'.epoch == db.epoch && db'.now == db.now
      && db'.subs == (if Admits(db.versions, c, view) then SubsAfter(db.subs, c.chat, c.command, view) else db.subs)
  {
    if Admits(db.versions, c, view) {
      var recorded := db.(versions := Record(db.versions, c, view));
      MutateRows(recorded, c, view, ctx);
      MutateSubs(recorded, c, view, ctx);
    }
  }

  lemma TimeCommit(db: Db, db': Db, c: UpdateClaim, ids: seq<nat>, view: View)
    requires TimeInv(db) && CommitDelta(db.rows, db'.rows, c, ids, view.began) && db'.now == db.now
    requires view.began <= db.now
    requires db'.subs == db.subs || db'.subs == SubsAfter(db.subs, c.chat, c.command, view)
    ensures TimeInv(db')
  {
  }

  lemma TimeHandle(s: State, w: Worker, l: HandleStep)
    requires TimeInv(s.db) && ViewTimes(s) && DrawInv(s) && CanHandle(s, w, l)
    ensures var t := NextHandle(s, w, l); TimeInv(t.db)
  {
    HandleShape(s, w, l);
    if Effective(s, w, l) {
      var c, ids, view := s.pcs[w].update, s.pcs[w].step.ids, s.pcs[w].step.view;
      CommitDrawn(s, w, l.ctx);
      CommitCloses(s.db, c, ids, view, l.ctx);
      TimeCommit(s.db, NextHandle(s, w, l).db, c, ids, view);
    }
  }

  lemma TimePrice(s: State, l: PriceStep)
    requires TimeInv(s.db) && CanPrice(s, l)
    ensures var t := NextPrice(s, l); TimeInv(t.db)
  {
  }

  lemma TimeWorld(s: State, l: WorldStep)
    requires TimeInv(s.db) && CanWorld(s, l)
    ensures var t := NextWorld(s, l); TimeInv(t.db)
  {
  }

  /* ---- Views ---- */

  /** The chat was not sent anything after this time. */
  ghost predicate Since(s: State, chat: Chat, at: nat) { chat in s.db.subs ==> s.db.subs[chat].lastSent <= at }

  /** The handler's reads still describe the tables; open alerts may have become fewer. */
  ghost predicate Current(s: State, w: Worker)
    requires HandlerAt(s, w)
  {
    var c := s.pcs[w].update;
    match s.pcs[w].step
    case Begun(at) => Since(s, c.chat, at)
    case Prepared(_, view) =>
      && Since(s, c.chat, view.began)
      && view.lang == LangOf(s.db.subs, c.chat)
      && OpenAlerts(s.db, c.chat) <= view.open
      && view.superseded == Superseded(s.db.versions, c.chat, c.Ver())
    case _ => true
  }

  ghost predicate ViewInv(s: State) {
    && ViewTimes(s)
    && forall w | HandlerAt(s, w) && s.pcs[w].update.chat !in s.h.tainted :: Current(s, w)
  }

  /** What a handler has read for its commit holds in an untainted chat. */
  lemma ReadsHold(s: State, w: Worker)
    requires ViewInv(s) && HandlerAt(s, w) && s.pcs[w].step.Prepared?
    ensures var c, view := s.pcs[w].update, s.pcs[w].step.view; c.chat !in s.h.tainted ==>
      && view.lang == LangOf(s.db.subs, c.chat)
      && OpenAlerts(s.db, c.chat) <= view.open
      && view.superseded == Superseded(s.db.versions, c.chat, c.Ver())
  {
    assert s.pcs[w].update.chat !in s.h.tainted ==> Current(s, w);
  }

  /** A step that leaves everything a chat's handler reads as it was, except for closing alerts. */
  ghost predicate Undisturbed(s: State, t: State, chat: Chat) {
    && s.db.now <= t.db.now
    && (chat in t.db.subs <==> chat in s.db.subs)
    && (chat in s.db.subs ==>
          t.db.subs[chat].lastSent == s.db.subs[chat].lastSent && t.db.subs[chat].lang == s.db.subs[chat].lang)
    && OpenAlerts(t.db, chat) <= OpenAlerts(s.db, chat)
    && ((chat, Subscription) in t.db.versions <==> (chat, Subscription) in s.db.versions)
    && ((chat, Subscription) in s.db.versions ==>
          t.db.versions[(chat, Subscription)] == s.db.versions[(chat, Subscription)])
  }

  lemma ViewFrame(s: State, t: State, v: Worker)
    requires HandlerAt(s, v) && HandlerAt(t, v) && t.pcs[v] == s.pcs[v] && Current(s, v)
    requires Undisturbed(s, t, s.pcs[v].update.chat)
    ensures Current(t, v)
  {
  }

  /** In an untainted chat a handler inside its transaction is the only one in the locked section. */
  lemma Alone(s: State, v: Worker, w: Worker)
    requires LockInv(s) && HandlerAt(s, v) && (s.pcs[v].step.Begun? || s.pcs[v].step.Prepared?)
    requires s.pcs[v].update.chat !in s.h.tainted
    requires w in s.pcs && s.pcs[w].Holding() && s.pcs[w].Chat() == s.pcs[v].update.chat
    ensures v == w
  {
    OneHolder(s, v, w);
  }

  ghost predicate FewerOpen(db: Db, db': Db, chat: Chat) {
    forall a | a in db'.alerts && db'.alerts[a].chat == chat && OpenAlert(db', a) ::
      a in db.alerts && db.alerts[a].chat == chat && OpenAlert(db, a)
  }

  lemma SettleFewer(db: Db, c: Claim, v: Verdict, chat: Chat)
    ensures FewerOpen(db, Settle(db, c, v), chat)
  {
  }

  lemma ViewSettle(s: State, t: State, w: Worker, v: Verdict, chat: Chat)
    requires SenderAt(s, w) && Owns(s.db.rows, s.pcs[w].claim) && ClaimInv(s)
    requires t.db == Settle(s.db, s.pcs[w].claim, v)
    requires v.Delivered? ==> s.pcs[w].claim.chat != chat
    ensures Undisturbed(s, t, chat)
  {
    SettleFewer(s.db, s.pcs[w].claim, v, chat);
  }

  lemma ViewSend(s: State, w: Worker, l: SendStep)
    requires ViewInv(s) && LockInv(s) && ClaimInv(s) && CanSend(s, w, l)
    ensures ViewInv(NextSend(s, w, l))
  {
    SendPrograms(s, w, l);
    SendTaint(s, w, l);
    SendShape(s, w, l);
    ViewOutbox(s, NextSend(s, w, l), w, OutcomeOf(s, w, l));
  }

  lemma ViewOutbox(s: State, t: State, w: Worker, o: Option<Verdict>)
    requires ViewInv(s) && LockInv(s) && ClaimInv(s) && TaintKept(s, t)
    requires forall v | v != w :: (v in t.pcs <==> v in s.pcs) && (v in s.pcs ==> t.pcs[v] == s.pcs[v])
    requires w in t.pcs ==> t.pcs[w].Sender?
    requires match o
      case Some(v) =>
        && SenderAt(s, w) && Owns(s.db.rows, s.pcs[w].claim) && (v.Delivered? ==> s.pcs[w].checkedAt.Some?)
        && t.db == Settle(s.db, s.pcs[w].claim, v)
      case None => TablesQuiet(s, t)
    ensures ViewInv(t)
  {
    forall v | HandlerAt(t, v) && t.pcs[v].update.chat !in t.h.tainted ensures Current(t, v) {
      if t.pcs[v].step.Begun? || t.pcs[v].step.Prepared? {
        if o.Some? { ViewOutcome(s, t, w, o.value, v); } else { ViewQuiet(s, t, v); }
      }
    }
  }

  /** Rows are claimed at most, programs move, ids are drawn. */
  ghost predicate TablesQuiet(s: State, t: State) {
    && t.db.now == s.db.now && t.db.subs == s.db.subs && t.db.alerts == s.db.alerts && t.db.versions == s.db.versions
    && forall r | r in t.db.rows && t.db.rows[r].status.Open() ::
         r in s.db.rows && s.db.rows[r].kind == t.db.rows[r].kind && s.db.rows[r].status.Open()
  }

  lemma ViewOutcome(s: State, t: State, w: Worker, o: Verdict, v: Worker)
    requires ViewInv(s) && LockInv(s) && ClaimInv(s) && TaintKept(s, t)
    requires SenderAt(s, w) && Owns(s.db.rows, s.pcs[w].claim) && (o.Delivered? ==> s.pcs[w].checkedAt.Some?)
    requires t.db == Settle(s.db, s.pcs[w].claim, o)
    requires HandlerAt(s, v) && HandlerAt(t, v) && t.pcs[v] == s.pcs[v] && t.pcs[v].update.chat !in t.h.tainted
    requires t.pcs[v].secured && (t.pcs[v].step.Begun? || t.pcs[v].step.Prepared?)
    ensures Current(t, v)
  {
    assert ClaimOk(s.db, s.pcs[w]);
    if s.pcs[w].claim.chat == s.pcs[v].update.chat && o.Delivered? { Alone(s, v, w); }
    ViewSettle(s, t, w, o, s.pcs[v].update.chat);
    ViewFrame(s, t, v);
  }

  /** Steps that only claim rows, move programs or draw ids. */
  lemma ViewQuiet(s: State, t: State, v: Worker)
    requires ViewInv(s) && TaintKept(s, t) && TablesQuiet(s, t)
    requires HandlerAt(s, v) && HandlerAt(t, v) && t.pcs[v] == s.pcs[v] && t.pcs[v].secured
    requires t.pcs[v].update.chat !in t.h.tainted
    ensures Current(t, v)
  {
    assert FewerOpen(s.db, t.db, s.pcs[v].update.chat);
    ViewFrame(s, t, v);
  }

  /** A commit disturbs no other chat. */
  lemma CommitElsewhere(db: Db, c: UpdateClaim, ids: seq<nat>, view: View, ctx: Context, chat: Chat)
    requires c.chat != chat && OwnsUpdate(db.updates, c) && ctx.alertId !in db.alerts
    requires forall r | r in db.rows && r.Answer? :: r.n !in ids
    ensures FewerOpen(db, CommitUpdate(db, c, ids, view, ctx), chat)
  {
    CommitRows(db, c, ids, view, ctx);
    var db' := CommitUpdate(db, c, ids, view, ctx);
    forall a | a in db'.alerts && db'.alerts[a].chat == chat ensures a in db.alerts && db'.alerts[a] == db.alerts[a] {
      CommitAlertsOf(db, c, ids, view, ctx, a);
    }
  }

  lemma CommitAlertsOf(db: Db, c: UpdateClaim, ids: seq<nat>, view: View, ctx: Context, a: nat)
    requires ctx.alertId !in db.alerts
    ensures var db' := CommitUpdate(db, c, ids, view, ctx);
      a in db'.alerts && db'.alerts[a].chat != c.chat ==> a in db.alerts && db'.alerts[a] == db.alerts[a]
  {
    if OwnsUpdate(db.updates, c) && Admits(db.versions, c, view) {
      var recorded := db.(versions := Record(db.versions, c, view));
      var mutated := Mutate(recorded, c, view, ctx);
      assert CommitUpdate(db, c, ids, view, ctx).alerts == mutated.alerts;
      match c.command
      case AddAlert(symbol, pct) =>
      case CancelAlert(b) =>
      case cmd =>
    }
  }

  lemma CommitUndisturbed(s: State, t: State, w: Worker, ctx: Context, chat: Chat)
    requires DrawInv(s) && CommittedStep(s, t, w, ctx) && ctx.alertId !in s.db.alerts && s.pcs[w].update.chat != chat
    ensures Undisturbed(s, t, chat)
  {
    var c, ids, view := s.pcs[w].update, s.pcs[w].step.ids, s.pcs[w].step.view;
    forall r | r in s.db.rows && r.Answer? ensures r.n !in ids { assert !Drawn(s, w, r); }
    CommitElsewhere(s.db, c, ids, view, ctx, chat);
    CommitCloses(s.db, c, ids, view, ctx);
  }

  lemma ViewCommit(s: State, t: State, w: Worker, ctx: Context, v: Worker)
    requires ViewInv(s) && LockInv(s) && DrawInv(s) && TaintKept(s, t) && CommittedStep(s, t, w, ctx)
    requires ctx.alertId !in s.db.alerts
    requires v != w && HandlerAt(s, v) && HandlerAt(t, v) && t.pcs[v] == s.pcs[v]
    requires t.pcs[v].update.chat !in t.h.tainted
    requires t.pcs[v].step.Begun? || t.pcs[v].step.Prepared?
    ensures Current(t, v)
  {
    if s.pcs[w].update.chat == s.pcs[v].update.chat { Alone(s, v, w); }
    CommitUndisturbed(s, t, w, ctx, s.pcs[v].update.chat);
    ViewFrame(s, t, v);
  }

  ghost predicate OwnView(t: State, w: Worker) {
    HandlerAt(t, w) && t.pcs[w].update.chat !in t.h.tainted ==> Current(t, w)
  }

  lemma ViewOwn(s: State, w: Worker, l: HandleStep)
    requires ViewInv(s) && TimeInv(s.db) && LockInv(s) && CanHandle(s, w, l)
    ensures OwnView(NextHandle(s, w, l), w)
  {
    HandleTaint(s, w, l);
    match l
    case Take(_, _, _) =>
    case Commit(_, _, _) =>
    case Close(_) =>
    case Prepare => assert s.pcs[w].update.chat !in s.h.tainted ==> Current(s, w);
    case Draw(_) => assert s.pcs[w].update.chat !in s.h.tainted ==> Current(s, w);
    case _ =>
  }

  lemma ViewHandle(s: State, w: Worker, l: HandleStep)
    requires ViewInv(s) && TimeInv(s.db) && LockInv(s) && DrawInv(s) && CanHandle(s, w, l)
    requires forall a | a in s.db.alerts :: a < s.db.nextAlert
    ensures ViewInv(NextHandle(s, w, l))
  {
    HandleShape(s, w, l);
    HandleTaint(s, w, l);
    ViewTimed(s, w, l);
    ViewOwn(s, w, l);
    ViewInbox(s, NextHandle(s, w, l), w, if Effective(s, w, l) then Some(l.ctx) else None);
  }

  lemma ViewInbox(s: State, t: State, w: Worker, ctx: Option<Context>)
    requires ViewInv(s) && LockInv(s) && DrawInv(s) && TaintKept(s, t) && ViewTimes(t)
    requires forall v | v != w :: (v in t.pcs <==> v in s.pcs) && (v in s.pcs ==> t.pcs[v] == s.pcs[v])
    requires (w in t.pcs ==> t.pcs[w].Handler?) && OwnView(t, w)
    requires match ctx
      case Some(x) => CommittedStep(s, t, w, x) && x.alertId !in s.db.alerts
      case None => QuietStep(s, t)
    ensures ViewInv(t)
  {
    forall v | HandlerAt(t, v) && t.pcs[v].update.chat !in t.h.tainted ensures Current(t, v) {
      if v != w && (t.pcs[v].step.Begun? || t.pcs[v].step.Prepared?) {
        if ctx.Some? { ViewCommit(s, t, w, ctx.value, v); } else { ViewQuiet(s, t, v); }
      }
    }
  }

  lemma ViewTimed(s: State, w: Worker, l: HandleStep)
    requires ViewTimes(s) && CanHandle(s, w, l)
    ensures ViewTimes(NextHandle(s, w, l))
  {
    HandleShape(s, w, l);
    if Effective(s, w, l) { CommitCloses(s.db, s.pcs[w].update, s.pcs[w].step.ids, s.pcs[w].step.view, l.ctx); }
  }

  lemma ViewPrice(s: State, l: PriceStep)
    requires ViewInv(s) && LockInv(s) && CanPrice(s, l)
    ensures ViewInv(NextPrice(s, l))
  {
    var t := NextPrice(s, l);
    forall v | HandlerAt(t, v) && t.pcs[v].update.chat !in t.h.tainted ensures Current(t, v) {
      PriceFewer(s, l, s.pcs[v].update.chat);
      ViewFrame(s, t, v);
    }
  }

  /** A trigger trades an active alert for an open job. */
  lemma PriceFewer(s: State, l: PriceStep, chat: Chat)
    requires CanPrice(s, l)
    ensures FewerOpen(s.db, NextPrice(s, l).db, chat)
  {
  }

  lemma ViewWorld(s: State, l: WorldStep)
    requires ViewInv(s) && LockInv(s) && CanWorld(s, l)
    ensures ViewInv(NextWorld(s, l))
  {
    var t := NextWorld(s, l);
    forall v | HandlerAt(t, v) && t.pcs[v].update.chat !in t.h.tainted ensures Current(t, v) {
      if t.pcs[v].step.Begun? || t.pcs[v].step.Prepared? {
        WorldUndisturbed(s, l, s.pcs[v].update.chat);
        ViewFrame(s, t, v);
      }
    }
  }

  lemma WorldUndisturbed(s: State, l: WorldStep, chat: Chat)
    requires CanWorld(s, l)
    ensures Undisturbed(s, NextWorld(s, l), chat)
  {
    WorldFewer(s, l, chat);
  }

  lemma WorldFewer(s: State, l: WorldStep, chat: Chat)
    requires CanWorld(s, l)
    ensures FewerOpen(s.db, NextWorld(s, l).db, chat)
  {
  }
}