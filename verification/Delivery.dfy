/** What may be delivered: only enabled notifications. */
module Delivery {
  import opened Policy
  import opened Tables
  import opened Machine
  import opened Claims
  import opened Views

  /* ---- Open jobs are enabled ---- */

  ghost predicate OpenScheduled(db: Db, r: RowId) {
    r in db.rows && db.rows[r].kind.Scheduled? && db.rows[r].status.Open()
  }

  /** An open scheduled job belongs to a subscribed chat, one per chat. */
  ghost predicate ScheduledInv(db: Db) {
    && (forall r | OpenScheduled(db, r) :: db.rows[r].chat in db.subs && db.subs[db.rows[r].chat].subscribed)
    && (forall q, r | OpenScheduled(db, q) && OpenScheduled(db, r) && db.rows[q].chat == db.rows[r].chat :: q == r)
  }

  /** An open price-alert job belongs to a triggered alert, one job per alert, and no job refers to an active
      or deleted alert. */
  ghost predicate AlertJobsInv(db: Db) {
    && (forall r | r in db.rows && db.rows[r].kind.PriceAlert? :: AlertJobOk(db, r))
    && (forall q, r | q in db.rows && r in db.rows && db.rows[q].kind.PriceAlert?
                      && db.rows[q].kind == db.rows[r].kind ::
          q == r)
    && 1 <= db.nextAlert && (forall a | a in db.alerts :: 1 <= a < db.nextAlert)
  }

  ghost predicate EnabledInv(db: Db) { ScheduledInv(db) && AlertJobsInv(db) }

  ghost predicate AlertJobOk(db: Db, r: RowId)
    requires r in db.rows && db.rows[r].kind.PriceAlert?
  {
    var row := db.rows[r];
    && row.kind.alert in db.alerts
    && db.alerts[row.kind.alert].chat == row.chat
    && !db.alerts[row.kind.alert].status.Active?
    && (row.status.Open() ==> db.alerts[row.kind.alert].status.Triggered?)
  }

  lemma EnabledTake(db: Db, r: RowId, token: Token, at: nat)
    requires EnabledInv(db) && r in db.rows && db.rows[r].status.Open()
    ensures EnabledInv(TakeClaim(db, r, token, at))
  {
  }

  lemma EnabledSettle(db: Db, c: Claim, v: Verdict)
    requires EnabledInv(db) && (c.row in db.rows ==> Faithful(db.rows[c.row], c))
    ensures EnabledInv(Settle(db, c, v))
  {
    SettleScheduled(db, c, v);
    SettleAlertJobs(db, c, v);
  }

  /** A permanent failure unsubscribes the chat of the one scheduled job it closes. */
  lemma SettleScheduled(db: Db, c: Claim, v: Verdict)
    requires ScheduledInv(db) && (c.row in db.rows ==> Faithful(db.rows[c.row], c))
    ensures ScheduledInv(Settle(db, c, v))
  {
    var db' := Settle(db, c, v);
    forall r | OpenScheduled(db', r) ensures OpenScheduled(db, r) && db'.rows[r].chat == db.rows[r].chat {}
    assert Owns(db.rows, c) && c.kind.Scheduled? ==> OpenScheduled(db, c.row);
  }

  lemma SettleAlertJobs(db: Db, c: Claim, v: Verdict)
    requires AlertJobsInv(db)
    ensures AlertJobsInv(Settle(db, c, v))
  {
    var db' := Settle(db, c, v);
    SettleKinds(db, c, v);
    forall r | r in db'.rows && db'.rows[r].kind.PriceAlert? ensures AlertJobOk(db', r) { assert AlertJobOk(db, r); }
  }

  lemma SettleKinds(db: Db, c: Claim, v: Verdict)
    ensures var db' := Settle(db, c, v);
      && db'.rows.Keys == db.rows.Keys && db'.alerts == db.alerts && db'.nextAlert == db.nextAlert
      && forall r | r in db.rows ::
           && db'.rows[r].kind == db.rows[r].kind && db'.rows[r].chat == db.rows[r].chat
           && (db'.rows[r].status.Open() ==> db.rows[r].status.Open())
  {
  }

  ghost predicate CanceledOnly(rows: map<RowId, Row>, rows': map<RowId, Row>, at: nat) {
    rows'.Keys == rows.Keys && forall r | r in rows :: rows'[r] == rows[r] || rows'[r] == CancelRow(rows[r], at)
  }

  /** Rows only canceled, and no subscriber of an open scheduled job unsubscribed. */
  lemma ScheduledFrame(db: Db, db': Db, at: nat)
    requires ScheduledInv(db) && CanceledOnly(db.rows, db'.rows, at)
    requires forall r | OpenScheduled(db', r) && db.rows[r].chat in db.subs && db.subs[db.rows[r].chat].subscribed ::
      db.rows[r].chat in db'.subs && db'.subs[db.rows[r].chat].subscribed
    ensures ScheduledInv(db')
  {
    forall r | OpenScheduled(db', r) ensures OpenScheduled(db, r) && db'.rows[r].chat == db.rows[r].chat {}
  }

  /** Rows only canceled, and no alert changed that has an open job. */
  lemma AlertJobsFrame(db: Db, db': Db, at: nat)
    requires AlertJobsInv(db) && CanceledOnly(db.rows, db'.rows, at)
    requires forall a | a in db.alerts ::
      && a in db'.alerts && db'.alerts[a].chat == db.alerts[a].chat
      && (!db.alerts[a].status.Active? ==> !db'.alerts[a].status.Active?)
    requires forall r | r in db'.rows && db'.rows[r].kind.PriceAlert? && db'.rows[r].status.Open()
                        && db'.rows[r].kind.alert in db.alerts ::
      db'.alerts[db'.rows[r].kind.alert] == db.alerts[db'.rows[r].kind.alert]
    requires 1 <= db'.nextAlert && forall a | a in db'.alerts :: 1 <= a < db'.nextAlert
    ensures AlertJobsInv(db')
  {
    forall r | r in db'.rows && db'.rows[r].kind.PriceAlert? ensures AlertJobOk(db', r) { assert AlertJobOk(db, r); }
  }

  /** A canceled alert takes its open job along. */
  lemma EnabledWithdraw(db: Db, chat: Chat, a: nat, view: View)
    requires EnabledInv(db)
    ensures EnabledInv(WithdrawAlert(db, chat, a, view))
  {
    if a in view.open && a in db.alerts && db.alerts[a].chat == chat {
      var db' := WithdrawAlert(db, chat, a, view);
      assert CanceledOnly(db.rows, db'.rows, view.began);
      ScheduledFrame(db, db', view.began);
      WithdrawAlertJobs(db, db', chat, a, view);
    }
  }

  lemma WithdrawAlertJobs(db: Db, db': Db, chat: Chat, a: nat, view: View)
    requires AlertJobsInv(db) && a in view.open && a in db.alerts && db.alerts[a].chat == chat
    requires db' == WithdrawAlert(db, chat, a, view) && CanceledOnly(db.rows, db'.rows, view.began)
    ensures AlertJobsInv(db')
  {
    forall r | r in db'.rows && db'.rows[r].kind == PriceAlert(a) ensures !db'.rows[r].status.Open() {
      assert AlertJobOk(db, r);
    }
    AlertJobsFrame(db, db', view.began);
  }

  lemma EnabledCreate(db: Db, c: UpdateClaim, symbol: string, pct: int, view: View, ctx: Context)
    requires EnabledInv(db) && ctx.alertId >= db.nextAlert
    ensures EnabledInv(CreateAlert(db, c, symbol, pct, view, ctx))
  {
  }

  /** A settings command unsubscribes only together with canceling the chat's open scheduled jobs. */
  lemma EnabledSettings(db: Db, chat: Chat, cmd: Command, view: View)
    requires EnabledInv(db)
    ensures EnabledInv(db.(subs := SubsAfter(db.subs, chat, cmd, view),
                           rows := RowsAfter(db.rows, view.began, chat, cmd)))
  {
    var db' := db.(subs := SubsAfter(db.subs, chat, cmd, view), rows := RowsAfter(db.rows, view.began, chat, cmd));
    assert CanceledOnly(db.rows, db'.rows, view.began);
    forall r | OpenScheduled(db', r) ensures OpenScheduled(db, r) && (cmd.Unsubscribe? ==> db.rows[r].chat != chat) {}
    ScheduledFrame(db, db', view.began);
    AlertJobsFrame(db, db', view.began);
  }

  lemma EnabledMutate(db: Db, c: UpdateClaim, view: View, ctx: Context)
    requires EnabledInv(db) && ctx.alertId >= db.nextAlert
    ensures EnabledInv(Mutate(db, c, view, ctx))
  {
    match c.command
    case CancelAlert(a) => EnabledWithdraw(db, c.chat, a, view);
    case AddAlert(symbol, pct) => EnabledCreate(db, c, symbol, pct, view, ctx);
    case cmd => EnabledSettings(db, c.chat, cmd, view);
  }

  lemma EnabledReplies(db: Db, db': Db)
    requires EnabledInv(db) && db'.subs == db.subs && db'.alerts == db.alerts && db'.nextAlert == db.nextAlert
    requires forall r | r in db.rows && !db.rows[r].kind.Reply? :: r in db'.rows && db'.rows[r] == db.rows[r]
    requires forall r | r in db'.rows && !db'.rows[r].kind.Reply? :: r in db.rows && db'.rows[r] == db.rows[r]
    ensures EnabledInv(db')
  {
  }

  lemma EnabledCommit(db: Db, c: UpdateClaim, ids: seq<nat>, view: View, ctx: Context)
    requires EnabledInv(db) && RowsInv(db) && ctx.alertId >= db.nextAlert
    ensures EnabledInv(CommitUpdate(db, c, ids, view, ctx))
  {
    if OwnsUpdate(db.updates, c) && Admits(db.versions, c, view) {
      var recorded := db.(versions := Record(db.versions, c, view));
      var mutated := Mutate(recorded, c, view, ctx);
      EnabledReplies(db, recorded);
      EnabledMutate(recorded, c, view, ctx);
      MutateRows(recorded, c, view, ctx);
      NewReplyRows(mutated.rows, c, ids, view.began);
      EnabledReplies(mutated, CommitUpdate(db, c, ids, view, ctx));
    } else {
      EnabledReplies(db, CommitUpdate(db, c, ids, view, ctx));
    }
  }

  lemma EnabledTrigger(db: Db, a: nat, x: Crossing, id: nat)
    requires EnabledInv(db) && RowsInv(db) && id >= db.nextJob
    ensures EnabledInv(Trigger(db, a, x, id))
  {
  }

  lemma EnabledCron(db: Db, chat: Chat, id: nat, at: nat)
    requires EnabledInv(db) && RowsInv(db) && Due(db, chat, at) && id >= db.nextJob
    ensures EnabledInv(CreateScheduled(db, chat, id, at))
  {
  }

  lemma EnabledSend(s: State, w: Worker, l: SendStep)
    requires EnabledInv(s.db) && ClaimInv(s) && CanSend(s, w, l)
    ensures EnabledInv(NextSend(s, w, l).db)
  {
    match l
    case Claim(r, token, at, heard) => EnabledTake(s.db, r, token, at);
    case Conclude(_) => assert ClaimOk(s.db, s.pcs[w]); EnabledSettle(s.db, s.pcs[w].claim, s.pcs[w].phase.verdict);
    case Finalize(_, _) => assert ClaimOk(s.db, s.pcs[w]); EnabledSettle(s.db, s.pcs[w].claim, Delivered);
    case _ => assert NextSend(s, w, l).db == s.db;
  }

  lemma EnabledHandle(s: State, w: Worker, l: HandleStep)
    requires EnabledInv(s.db) && RowsInv(s.db) && CanHandle(s, w, l)
    ensures EnabledInv(NextHandle(s, w, l).db)
  {
    HandleShape(s, w, l);
    if Effective(s, w, l) { EnabledCommit(s.db, s.pcs[w].update, s.pcs[w].step.ids, s.pcs[w].step.view, l.ctx); }
    else { EnabledReplies(s.db, NextHandle(s, w, l).db); }
  }

  lemma EnabledPrice(s: State, l: PriceStep)
    requires EnabledInv(s.db) && RowsInv(s.db) && CanPrice(s, l)
    ensures EnabledInv(NextPrice(s, l).db)
  {
    match l
    case Fire(w, a, id) => EnabledTrigger(s.db, a, s.pcs[w].page[a], id);
    case _ => EnabledReplies(s.db, NextPrice(s, l).db);
  }

  lemma EnabledWorld(s: State, l: WorldStep)
    requires EnabledInv(s.db) && RowsInv(s.db) && CanWorld(s, l)
    ensures EnabledInv(NextWorld(s, l).db)
  {
    match l
    case Cron(chat, id, at) => EnabledCron(s.db, chat, id, at);
    case DropRow(r) => EnabledDrop(s.db, s.db.(rows := s.db.rows - {r}));
    case DropAlert(a) => EnabledDrop(s.db, NextWorld(s, l).db);
    case _ => EnabledReplies(s.db, NextWorld(s, l).db);
  }

  /** Deleting rows, and alerts no row refers to. */
  lemma EnabledDrop(db: Db, db': Db)
    requires EnabledInv(db) && db'.subs == db.subs && db'.nextAlert == db.nextAlert
    requires forall r | r in db'.rows :: r in db.rows && db'.rows[r] == db.rows[r]
    requires forall a | a in db'.alerts :: a in db.alerts && db'.alerts[a] == db.alerts[a]
    requires forall r | r in db'.rows && db'.rows[r].kind.PriceAlert? && db'.rows[r].kind.alert in db.alerts ::
      db'.rows[r].kind.alert in db'.alerts
    ensures EnabledInv(db')
  {
  }
}
