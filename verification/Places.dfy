/** How long an alert counts among the ten of its chat. */
module Places {
  import opened Tables
  import opened Machine
  import opened Claims
  import opened Views
  import opened Delivery
  import opened Alerts
  import opened Safety
  import AlertRuns

  ghost predicate OpenJob(rows: map<RowId, Row>, r: RowId, a: nat) {
    r in rows && rows[r].kind == PriceAlert(a) && (rows[r].status == Pending || rows[r].status == Sending)
  }

  /** An alert takes one of its chat's ten places while it is active or its job is open. */
  ghost predicate TakesPlace(db: Db, a: nat) {
    a in db.alerts && (db.alerts[a].status == Active || exists r :: OpenJob(db.rows, r, a))
  }

  lemma PlacesAreOpen(db: Db, chat: Chat, a: nat)
    ensures a in OpenAlerts(db, chat) <==> a in db.alerts && db.alerts[a].chat == chat && TakesPlace(db, a)
  {
    assert forall r :: OpenJob(db.rows, r, a) <==>
      r in db.rows && db.rows[r].kind == PriceAlert(a) && db.rows[r].status.Open();
  }

  /** The final outcome of the alert's job, or a cancellation of the alert by its own chat that saw it open. */
  ghost predicate Frees(s: State, l: Label, a: nat)
    requires Can(s, l)
  {
    match l
    case Outbox(w, send) =>
      && OutcomeOf(s, w, send).Some? && !OutcomeOf(s, w, send).value.Retry? && s.pcs[w].claim.kind == PriceAlert(a)
    case Inbox(w, handle) =>
      Effective(s, w, handle) && Cancels(s.db, s.pcs[w].update, s.pcs[w].step.view, a)
    case _ => false
  }

  ghost predicate Cancels(db: Db, c: UpdateClaim, view: View, a: nat) {
    c.command == CancelAlert(a) && a in view.open && a in db.alerts && db.alerts[a].chat == c.chat
  }

  lemma PlaceSettled(db: Db, c: Claim, v: Verdict, a: nat)
    requires AlertJobsInv(db) && Owns(db.rows, c) && db.rows[c.row].kind == c.kind && TakesPlace(db, a)
    ensures TakesPlace(Settle(db, c, v), a) <==> v.Retry? || c.kind != PriceAlert(a)
  {
    var db' := Settle(db, c, v);
    if db.alerts[a].status == Active {
      assert forall r | r in db.rows && db.rows[r].kind.PriceAlert? :: AlertJobOk(db, r);
    } else {
      var r :| OpenJob(db.rows, r, a);
      if v.Retry? || c.kind != PriceAlert(a) { assert OpenJob(db'.rows, r, a); }
      assert forall q | OpenJob(db'.rows, q, a) :: q in db.rows && db.rows[q].kind == PriceAlert(a);
    }
  }

  lemma PlaceClaimed(db: Db, r: RowId, token: Token, at: nat, a: nat)
    requires r in db.rows && db.rows[r].status.Open() && TakesPlace(db, a)
    ensures TakesPlace(TakeClaim(db, r, token, at), a)
  {
    if db.alerts[a].status != Active {
      var q :| OpenJob(db.rows, q, a);
      assert OpenJob(TakeClaim(db, r, token, at).rows, q, a);
    }
  }

  lemma PlaceSend(s: State, w: Worker, l: SendStep, a: nat)
    requires AlertJobsInv(s.db) && ClaimInv(s) && CanSend(s, w, l) && TakesPlace(s.db, a)
    ensures TakesPlace(NextSend(s, w, l).db, a) <==> !Frees(s, Outbox(w, l), a)
  {
    SendShape(s, w, l);
    match OutcomeOf(s, w, l)
    case Some(v) =>
      assert ClaimOk(s.db, s.pcs[w]);
      PlaceSettled(s.db, s.pcs[w].claim, v, a);
    case None => if l.Claim? { PlaceClaimed(s.db, l.r, l.token, l.at, a); }
  }

  /** The cancellation of another alert. */
  lemma OtherWithdrawn(db: Db, chat: Chat, b: nat, view: View, a: nat)
    requires TakesPlace(db, a) && a != b
    ensures TakesPlace(WithdrawAlert(db, chat, b, view), a)
  {
    var db' := WithdrawAlert(db, chat, b, view);
    if db.alerts[a].status != Active {
      var r :| OpenJob(db.rows, r, a);
      assert db'.rows[r] == db.rows[r];
      assert OpenJob(db'.rows, r, a);
    }
  }

  lemma OwnWithdrawn(db: Db, a: nat, view: View)
    requires AlertJobsInv(db) && TakesPlace(db, a) && a in view.open
    ensures !TakesPlace(WithdrawAlert(db, db.alerts[a].chat, a, view), a)
  {
    var db' := WithdrawAlert(db, db.alerts[a].chat, a, view);
    forall r ensures !OpenJob(db'.rows, r, a) {
      if r in db.rows && db.rows[r].kind == PriceAlert(a) { assert AlertJobOk(db, r); }
    }
  }

  lemma PlaceWithdrawn(db: Db, chat: Chat, b: nat, view: View, a: nat)
    requires AlertJobsInv(db) && TakesPlace(db, a)
    ensures TakesPlace(WithdrawAlert(db, chat, b, view), a) <==>
      !(a == b && a in view.open && db.alerts[a].chat == chat)
  {
    if a != b {
      OtherWithdrawn(db, chat, b, view, a);
    } else if a in view.open && db.alerts[a].chat == chat {
      OwnWithdrawn(db, a, view);
    }
  }

  /** Rows and alert as they were, up to rows that are no job of the alert. */
  lemma PlaceKept(db: Db, db': Db, a: nat)
    requires TakesPlace(db, a) && a in db'.alerts && db'.alerts[a] == db.alerts[a]
    requires forall r | r in db.rows && db.rows[r].kind.PriceAlert? :: r in db'.rows && db'.rows[r] == db.rows[r]
    ensures TakesPlace(db', a)
  {
    if db.alerts[a].status != Active {
      var r :| OpenJob(db.rows, r, a);
      assert OpenJob(db'.rows, r, a);
    }
  }

  lemma PlaceMutated(db: Db, c: UpdateClaim, view: View, ctx: Context, a: nat)
    requires AlertJobsInv(db) && TakesPlace(db, a) && ctx.alertId >= db.nextAlert
    ensures TakesPlace(Mutate(db, c, view, ctx), a) <==> !Cancels(db, c, view, a)
  {
    if c.command.CancelAlert? {
      PlaceWithdrawn(db, c.chat, c.command.id, view, a);
    } else {
      var db' := Mutate(db, c, view, ctx);
      forall r | r in db.rows && db.rows[r].kind.PriceAlert? ensures r in db'.rows && db'.rows[r] == db.rows[r] {
        AlertRuns.MutateSparesAlerts(db, c, view, ctx, r);
      }
      PlaceKept(db, db', a);
    }
  }

  /** Replies make no difference. */
  lemma PlaceAnswered(db: Db, db': Db, a: nat)
    requires db'.alerts == db.alerts
    requires forall r | r in db'.rows && db'.rows[r].kind.PriceAlert? :: r in db.rows && db.rows[r] == db'.rows[r]
    requires forall r | r in db.rows && db.rows[r].kind.PriceAlert? :: r in db'.rows && db'.rows[r] == db.rows[r]
    ensures TakesPlace(db', a) <==> TakesPlace(db, a)
  {
    if TakesPlace(db, a) { PlaceKept(db, db', a); }
    if TakesPlace(db', a) { PlaceKept(db', db, a); }
  }

  lemma PlaceReplied(db: Db, added: map<RowId, Row>, a: nat)
    requires forall r | r in added :: r.Answer? && added[r].kind.Reply?
    requires forall r | r in db.rows && db.rows[r].kind.PriceAlert? :: r.Job?
    ensures TakesPlace(db.(rows := db.rows + added), a) <==> TakesPlace(db, a)
  {
    PlaceAnswered(db, db.(rows := db.rows + added), a);
  }

  lemma AlertJobsAreJobs(db: Db, db': Db, chat: Chat, at: nat)
    requires RowsInv(db) && CancelsOnly(db.rows, db'.rows, chat, at)
    ensures forall r | r in db'.rows && db'.rows[r].kind.PriceAlert? :: r.Job?
  {
    forall r | r in db'.rows && db'.rows[r].kind.PriceAlert? ensures r.Job? { assert RowOk(db, r); }
  }

  lemma PlaceApplied(db: Db, c: UpdateClaim, ids: seq<nat>, view: View, ctx: Context, a: nat)
    requires AlertJobsInv(db) && RowsInv(db) && TakesPlace(db, a) && ctx.alertId >= db.nextAlert
    ensures var mutated := Mutate(db, c, view, ctx);
      TakesPlace(mutated.(rows := mutated.rows + NewReplies(mutated.rows, c, ids, view.began)), a) <==>
        !Cancels(db, c, view, a)
  {
    var mutated := Mutate(db, c, view, ctx);
    PlaceMutated(db, c, view, ctx, a);
    MutateRows(db, c, view, ctx);
    AlertJobsAreJobs(db, mutated, c.chat, view.began);
    NewReplyRows(mutated.rows, c, ids, view.began);
    PlaceReplied(mutated, NewReplies(mutated.rows, c, ids, view.began), a);
  }

  lemma PlaceCommit(s: State, t: State, w: Worker, ctx: Context, a: nat)
    requires AlertJobsInv(s.db) && RowsInv(s.db) && CommittedStep(s, t, w, ctx)
    requires TakesPlace(s.db, a) && ctx.alertId >= s.db.nextAlert
    ensures TakesPlace(t.db, a) <==> !Cancels(s.db, s.pcs[w].update, s.pcs[w].step.view, a)
  {
    var c, ids, view := s.pcs[w].update, s.pcs[w].step.ids, s.pcs[w].step.view;
    if Admits(s.db.versions, c, view) {
      PlaceApplied(s.db.(versions := Record(s.db.versions, c, view)), c, ids, view, ctx, a);
    }
  }

  lemma PlaceHandle(s: State, w: Worker, l: HandleStep, a: nat)
    requires AlertJobsInv(s.db) && RowsInv(s.db) && CanHandle(s, w, l) && TakesPlace(s.db, a)
    ensures TakesPlace(NextHandle(s, w, l).db, a) <==> !Frees(s, Inbox(w, l), a)
  {
    HandleShape(s, w, l);
    if Effective(s, w, l) {
      PlaceCommit(s, NextHandle(s, w, l), w, l.ctx, a);
    } else {
      PlaceAnswered(s.db, NextHandle(s, w, l).db, a);
    }
  }

  lemma PlacePrice(s: State, l: PriceStep, a: nat)
    requires RowsInv(s.db) && CanPrice(s, l) && TakesPlace(s.db, a)
    ensures TakesPlace(NextPrice(s, l).db, a)
  {
    var db' := NextPrice(s, l).db;
    if l.Fire? && l.a == a {
      assert OpenJob(db'.rows, Job(l.id), a);
    } else {
      PlaceKept(s.db, db', a);
    }
  }

  lemma PlaceWorld(s: State, l: WorldStep, a: nat)
    requires RowsInv(s.db) && CanWorld(s, l) && TakesPlace(s.db, a)
    ensures TakesPlace(NextWorld(s, l).db, a)
  {
    var db' := NextWorld(s, l).db;
    if s.db.alerts[a].status != Active {
      var r :| OpenJob(s.db.rows, r, a);
      assert OpenJob(db'.rows, r, a);
    }
  }

  /** In every step of every run an alert gives up its place exactly so: triggering it keeps the place, and nothing
      else touches it. */
  lemma PlaceFreed(states: seq<State>, labels: seq<Label>, k: nat, a: nat)
    requires Run(states, labels) && k < |labels| && TakesPlace(states[k].db, a)
    ensures TakesPlace(states[k + 1].db, a) <==> !Frees(states[k], labels[k], a)
  {
    RunBase(states, labels, k);
    RunJobs(states, labels, k);
    PlaceStep(states[k], labels[k], a);
  }

  lemma PlaceStep(s: State, l: Label, a: nat)
    requires AlertJobsInv(s.db) && RowsInv(s.db) && ClaimInv(s) && Can(s, l) && TakesPlace(s.db, a)
    ensures TakesPlace(Next(s, l).db, a) <==> !Frees(s, l, a)
  {
    match l
    case Outbox(w, send) => PlaceSend(s, w, send, a);
    case Inbox(w, handle) => PlaceHandle(s, w, handle, a);
    case Prices(price) => PlacePrice(s, price, a);
    case World(world) => PlaceWorld(s, world, a);
  }
}
