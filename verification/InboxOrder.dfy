/** The inbox: every saved update takes effect at most once, and replies leave each chat in order. */
module InboxOrder {
  import opened Policy
  import opened Tables
  import opened Machine
  import opened Claims
  import opened Views
  import opened Delivery
  import opened Alerts

  /* ---- Exactly-once effects ---- */

  ghost predicate Took(effects: seq<Effect>, serial: nat) {
    exists i | 0 <= i < |effects| :: effects[i].serial == serial
  }

  /** Each inbox row stems from its own save, is processed exactly when that save has committed its
      effect, and no save commits twice. Every stored reply was written by an applied effect. */
  ghost predicate EffectInv(s: State) {
    && (forall u | u in s.db.updates ::
          && u in s.h.serials && s.h.serials[u] < |s.h.saves|
          && s.h.saves[s.h.serials[u]] == Version(s.db.updates[u].epoch, u)
          && (s.db.updates[u].status.Processed? <==> Took(s.h.effects, s.h.serials[u])))
    && (forall i | 0 <= i < |s.h.effects| ::
          s.h.effects[i].serial < |s.h.saves| && s.h.saves[s.h.effects[i].serial].id == s.h.effects[i].claim.id)
    && (forall i, j | 0 <= i < j < |s.h.effects| :: s.h.effects[i].serial != s.h.effects[j].serial)
  }

  ghost predicate Wrote(effects: seq<Effect>, r: RowId, source: int) {
    exists i | 0 <= i < |effects| :: effects[i].applied && r in effects[i].answers && effects[i].claim.id == source
  }

  ghost predicate AuthorInv(s: State) {
    forall r | r in s.db.rows && s.db.rows[r].kind.Reply? :: Wrote(s.h.effects, r, s.db.rows[r].kind.source)
  }

  lemma EffectFrame(s: State, t: State)
    requires EffectInv(s)
    requires t.h.effects == s.h.effects && t.h.serials == s.h.serials && t.h.saves == s.h.saves
    requires forall u | u in t.db.updates :: u in s.db.updates && t.db.updates[u].epoch == s.db.updates[u].epoch
    requires forall u | u in t.db.updates :: t.db.updates[u].status.Processed? <==> s.db.updates[u].status.Processed?
    ensures EffectInv(t)
  {
  }

  lemma EffectCommit(s: State, t: State, c: UpdateClaim)
    requires EffectInv(s) && OwnsUpdate(s.db.updates, c)
    requires t.h.serials == s.h.serials && t.h.saves == s.h.saves
    requires |t.h.effects| == |s.h.effects| + 1 && t.h.effects[..|s.h.effects|] == s.h.effects
    requires t.h.effects[|s.h.effects|].serial == s.h.serials[c.id] && t.h.effects[|s.h.effects|].claim == c
    requires t.db.updates.Keys == s.db.updates.Keys
    requires forall u | u in s.db.updates && u != c.id :: t.db.updates[u] == s.db.updates[u]
    requires t.db.updates[c.id].status.Processed? && t.db.updates[c.id].epoch == s.db.updates[c.id].epoch
    ensures EffectInv(t)
  {
    var e := t.h.effects[|s.h.effects|];
    assert t.h.effects == s.h.effects + [e];
    forall u | u in t.db.updates
      ensures t.db.updates[u].status.Processed? <==> Took(t.h.effects, t.h.serials[u])
    {
      TookMore(s.h.effects, e, s.h.serials[u]);
    }
    SerialsDiffer(s.h.effects, e);
  }

  lemma TookMore(effects: seq<Effect>, e: Effect, serial: nat)
    ensures Took(effects + [e], serial) <==> Took(effects, serial) || e.serial == serial
  {
    if Took(effects, serial) {
      var i :| 0 <= i < |effects| && effects[i].serial == serial;
      assert (effects + [e])[i].serial == serial;
    }
    assert (effects + [e])[|effects|] == e;
  }

  lemma SerialsDiffer(effects: seq<Effect>, e: Effect)
    requires !Took(effects, e.serial) && forall i, j | 0 <= i < j < |effects| :: effects[i].serial != effects[j].serial
    ensures var es := effects + [e]; forall i, j | 0 <= i < j < |es| :: es[i].serial != es[j].serial
  {
  }

  lemma EffectHandle(s: State, w: Worker, l: HandleStep)
    requires EffectInv(s) && CanHandle(s, w, l)
    ensures EffectInv(NextHandle(s, w, l))
  {
    HandleShape(s, w, l);
    var t := NextHandle(s, w, l);
    if Effective(s, w, l) {
      CommitCloses(s.db, s.pcs[w].update, s.pcs[w].step.ids, s.pcs[w].step.view, l.ctx);
      EffectCommit(s, t, s.pcs[w].update);
    } else {
      HandleUpdates(s, w, l);
      EffectFrame(s, t);
    }
  }

  /** Claiming, retrying and rejecting never touch a processed update nor produce one. */
  lemma HandleUpdates(s: State, w: Worker, l: HandleStep)
    requires CanHandle(s, w, l) && !Effective(s, w, l)
    ensures var t := NextHandle(s, w, l);
      && t.db.updates.Keys == s.db.updates.Keys
      && forall u | u in t.db.updates ::
           && t.db.updates[u].epoch == s.db.updates[u].epoch
           && (t.db.updates[u].status.Processed? <==> s.db.updates[u].status.Processed?)
  {
    match l
    case Take(u, at, heard) =>
    case Close(committed) =>
    case _ => assert NextHandle(s, w, l).db.updates == s.db.updates;
  }

  lemma EffectWorld(s: State, l: WorldStep)
    requires EffectInv(s) && CanWorld(s, l)
    ensures EffectInv(NextWorld(s, l))
  {
  }

  lemma AuthorFrame(s: State, t: State)
    requires AuthorInv(s) && t.h.effects == s.h.effects
    requires forall r | r in t.db.rows && t.db.rows[r].kind.Reply? ::
      r in s.db.rows && t.db.rows[r].kind == s.db.rows[r].kind
    ensures AuthorInv(t)
  {
  }

  lemma AuthorCommit(s: State, t: State, w: Worker)
    requires AuthorInv(s) && DrawInv(s) && HandlerAt(s, w) && s.pcs[w].step.Prepared?
    requires CommitDelta(s.db.rows, t.db.rows, s.pcs[w].update, s.pcs[w].step.ids, s.pcs[w].step.view.began)
    requires |t.h.effects| == |s.h.effects| + 1 && t.h.effects[..|s.h.effects|] == s.h.effects
    requires var e := t.h.effects[|s.h.effects|];
      && e.claim == s.pcs[w].update && e.answers == t.db.rows.Keys - s.db.rows.Keys
      && (e.applied || t.db.rows.Keys == s.db.rows.Keys)
    ensures AuthorInv(t)
  {
  }

  lemma AuthorHandle(s: State, w: Worker, l: HandleStep)
    requires AuthorInv(s) && DrawInv(s) && CanHandle(s, w, l)
    ensures AuthorInv(NextHandle(s, w, l))
  {
    HandleShape(s, w, l);
    var t := NextHandle(s, w, l);
    if Effective(s, w, l) {
      CommitDrawn(s, w, l.ctx);
      RefusedAddsNone(s.db, s.pcs[w].update, s.pcs[w].step.ids, s.pcs[w].step.view, l.ctx);
      AuthorCommit(s, t, w);
    } else {
      AuthorFrame(s, t);
    }
  }

  /** A refused command leaves no reply behind. */
  lemma RefusedAddsNone(db: Db, c: UpdateClaim, ids: seq<nat>, view: View, ctx: Context)
    ensures !Admits(db.versions, c, view) ==>
      CommitUpdate(db, c, ids, view, ctx).rows == db.rows && CommitUpdate(db, c, ids, view, ctx).alerts == db.alerts
  {
  }

  lemma AuthorSend(s: State, w: Worker, l: SendStep)
    requires AuthorInv(s) && CanSend(s, w, l)
    ensures AuthorInv(NextSend(s, w, l))
  {
    SendKinds(s, w, l);
    SendKeeps(s, w, l);
    AuthorFrame(s, NextSend(s, w, l));
  }

  lemma SendKinds(s: State, w: Worker, l: SendStep)
    requires CanSend(s, w, l)
    ensures var rows := NextSend(s, w, l).db.rows;
      forall r | r in rows :: r in s.db.rows && rows[r].kind == s.db.rows[r].kind && rows[r].chat == s.db.rows[r].chat
  {
    match l
    case Claim(r, token, at, heard) =>
    case Conclude(_) =>
    case Finalize(_, _) =>
    case _ => assert NextSend(s, w, l).db == s.db;
  }

  lemma AuthorPrice(s: State, l: PriceStep)
    requires AuthorInv(s) && CanPrice(s, l)
    ensures AuthorInv(NextPrice(s, l))
  {
  }

  lemma AuthorWorld(s: State, l: WorldStep)
    requires AuthorInv(s) && CanWorld(s, l)
    ensures AuthorInv(NextWorld(s, l))
  {
  }

  /** An admitted commit leaves every one of its replies stored, new or, on a reused update id, already there. */
  lemma AllRepliesStored(db: Db, c: UpdateClaim, ids: seq<nat>, view: View, ctx: Context, i: nat)
    requires OwnsUpdate(db.updates, c) && Admits(db.versions, c, view) && i < |ids|
    requires (forall r | r in db.rows && r.Answer? :: r.n !in ids)
    requires forall j, k | 0 <= j < k < |ids| :: ids[j] != ids[k]
    ensures ReplyExists(CommitUpdate(db, c, ids, view, ctx).rows, c.id, i)
  {
    var recorded := db.(versions := Record(db.versions, c, view));
    var mutated := Mutate(recorded, c, view, ctx);
    MutateRows(recorded, c, view, ctx);
    assert CommitUpdate(db, c, ids, view, ctx).rows == mutated.rows + NewReplies(mutated.rows, c, ids, view.began);
    RepliesPresent(mutated.rows, c, ids, view.began, i);
  }

  lemma RepliesPresent(rows: map<RowId, Row>, c: UpdateClaim, ids: seq<nat>, at: nat, i: nat)
    requires i < |ids| && (forall r | r in rows && r.Answer? :: r.n !in ids)
    requires forall j, k | 0 <= j < k < |ids| :: ids[j] != ids[k]
    ensures ReplyExists(rows + NewReplies(rows, c, ids, at), c.id, i)
  {
    var added := NewReplies(rows, c, ids, at);
    NewReplyRows(rows, c, ids, at);
    if ReplyExists(rows, c.id, i) {
      var r :| r in rows && rows[r].kind == Reply(c.id, i);
      assert (rows + added)[r].kind == Reply(c.id, i);
    } else {
      ReplyAdded(rows, c, ids, at, i);
      assert (rows + added)[Answer(ids[i])].kind == Reply(c.id, i);
    }
  }

  lemma {:induction false} ReplyAdded(rows: map<RowId, Row>, c: UpdateClaim, ids: seq<nat>, at: nat, i: nat)
    requires i < |ids| && !ReplyExists(rows, c.id, i) && forall j, k | 0 <= j < k < |ids| :: ids[j] != ids[k]
    ensures var added := NewReplies(rows, c, ids, at);
      Answer(ids[i]) in added && added[Answer(ids[i])] == ReplyRow(c, i, at)
  {
    if i < |ids| - 1 { ReplyAdded(rows, c, ids[..|ids| - 1], at, i); }
  }

  /* ---- Alerts have founders ---- */

  ghost predicate FoundedBy(e: Effect, a: nat, alert: Alert) {
    && e.applied && a in e.alerts && e.claim.id == alert.source && e.claim.chat == alert.chat
    && e.claim.command == AddAlert(alert.symbol, alert.pct)
  }

  /** Every stored alert was inserted by an applied effect of the update it names, and by one only. */
  ghost predicate FounderInv(s: State) {
    && (forall a | a in s.db.alerts :: Founded(s.h.effects, a, s.db.alerts[a]))
    && (forall i, a | 0 <= i < |s.h.effects| && a in s.h.effects[i].alerts :: a < s.db.nextAlert)
    && (forall i, j, a | 0 <= i < j < |s.h.effects| && a in s.h.effects[i].alerts :: a !in s.h.effects[j].alerts)
  }

  ghost predicate Founded(effects: seq<Effect>, a: nat, alert: Alert) {
    exists i | 0 <= i < |effects| :: FoundedBy(effects[i], a, alert)
  }

  ghost predicate SameFounding(x: Alert, y: Alert) {
    x.source == y.source && x.chat == y.chat && x.symbol == y.symbol && x.pct == y.pct
  }

  lemma FounderFrame(s: State, t: State)
    requires FounderInv(s) && t.h.effects == s.h.effects && s.db.nextAlert <= t.db.nextAlert
    requires forall a | a in t.db.alerts :: a in s.db.alerts && SameFounding(s.db.alerts[a], t.db.alerts[a])
    ensures FounderInv(t)
  {
    forall a | a in t.db.alerts ensures Founded(t.h.effects, a, t.db.alerts[a]) {
      var i :| 0 <= i < |s.h.effects| && FoundedBy(s.h.effects[i], a, s.db.alerts[a]);
      assert FoundedBy(t.h.effects[i], a, t.db.alerts[a]);
    }
  }

  lemma FoundedBefore(effects: seq<Effect>, e: Effect, a: nat, alert: Alert, alert': Alert)
    requires Founded(effects, a, alert) && SameFounding(alert, alert')
    ensures Founded(effects + [e], a, alert')
  {
    var i :| 0 <= i < |effects| && FoundedBy(effects[i], a, alert);
    assert FoundedBy((effects + [e])[i], a, alert');
  }

  /** The alert a commit creates is founded by its own effect; the others keep their founders. */
  lemma FoundedStill(s: State, t: State, w: Worker, ctx: Context, a: nat)
    requires FounderInv(s) && CommittedStep(s, t, w, ctx)
    requires AlertsDelta(s.db, t.db, s.pcs[w].update, s.pcs[w].step.view, ctx)
    requires !Admits(s.db.versions, s.pcs[w].update, s.pcs[w].step.view) ==> t.db.alerts == s.db.alerts
    requires a in t.db.alerts && ctx.alertId !in s.db.alerts
    ensures Founded(t.h.effects, a, t.db.alerts[a])
  {
    var n := |s.h.effects|;
    if a in s.db.alerts {
      FoundedBefore(s.h.effects, t.h.effects[n], a, s.db.alerts[a], t.db.alerts[a]);
      assert t.h.effects == s.h.effects + [t.h.effects[n]];
    } else {
      assert FoundedBy(t.h.effects[n], a, t.db.alerts[a]);
    }
  }

  lemma FounderCommit(s: State, t: State, w: Worker, ctx: Context)
    requires FounderInv(s) && CommittedStep(s, t, w, ctx)
    requires AlertsDelta(s.db, t.db, s.pcs[w].update, s.pcs[w].step.view, ctx)
    requires ctx.alertId >= s.db.nextAlert && forall a | a in s.db.alerts :: a < s.db.nextAlert
    requires !Admits(s.db.versions, s.pcs[w].update, s.pcs[w].step.view) ==> t.db.alerts == s.db.alerts
    ensures FounderInv(t)
  {
    forall a | a in t.db.alerts ensures Founded(t.h.effects, a, t.db.alerts[a]) { FoundedStill(s, t, w, ctx, a); }
    FoundersDiffer(s.h.effects, t.h.effects[|s.h.effects|], s.db.nextAlert, t.db.nextAlert, ctx.alertId);
  }

  lemma FoundersDiffer(effects: seq<Effect>, e: Effect, next: nat, next': nat, id: nat)
    requires forall i, a | 0 <= i < |effects| && a in effects[i].alerts :: a < next
    requires forall i, j, a | 0 <= i < j < |effects| && a in effects[i].alerts :: a !in effects[j].alerts
    requires next <= next' && id >= next && forall a | a in e.alerts :: a == id && next' == id + 1
    ensures var es := effects + [e];
      && (forall i, a | 0 <= i < |es| && a in es[i].alerts :: a < next')
      && (forall i, j, a | 0 <= i < j < |es| && a in es[i].alerts :: a !in es[j].alerts)
  {
  }

  lemma FounderHandle(s: State, w: Worker, l: HandleStep)
    requires FounderInv(s) && (forall a | a in s.db.alerts :: a < s.db.nextAlert) && CanHandle(s, w, l)
    ensures FounderInv(NextHandle(s, w, l))
  {
    HandleShape(s, w, l);
    if Effective(s, w, l) {
      CommitAlerts(s.db, s.pcs[w].update, s.pcs[w].step.ids, s.pcs[w].step.view, l.ctx);
      RefusedAddsNone(s.db, s.pcs[w].update, s.pcs[w].step.ids, s.pcs[w].step.view, l.ctx);
      FounderCommit(s, NextHandle(s, w, l), w, l.ctx);
    } else {
      FounderFrame(s, NextHandle(s, w, l));
    }
  }

  lemma FounderSend(s: State, w: Worker, l: SendStep)
    requires FounderInv(s) && CanSend(s, w, l)
    ensures FounderInv(NextSend(s, w, l))
  {
    SendKeeps(s, w, l);
    FounderFrame(s, NextSend(s, w, l));
  }

  lemma FounderPrice(s: State, l: PriceStep)
    requires FounderInv(s) && CanPrice(s, l)
    ensures FounderInv(NextPrice(s, l))
  {
    FounderFrame(s, NextPrice(s, l));
  }

  lemma FounderWorld(s: State, l: WorldStep)
    requires FounderInv(s) && CanWorld(s, l)
    ensures FounderInv(NextWorld(s, l))
  {
    FounderFrame(s, NextWorld(s, l));
  }

  /* ---- Reply order ---- */

  /** A reply that was inserted while its chat was tainted, perhaps before one that had already left. */
  ghost predicate TornReply(effects: seq<Effect>, r: RowId) { exists e | e in effects :: e.torn && r in e.answers }

  /** A reply that was ever attempted has only closed replies before it, not counting torn ones. */
  ghost predicate FifoRows(rows: map<RowId, Row>, effects: seq<Effect>) {
    forall q, r | q in rows && r in rows && q.Answer? && r.Answer? && q.n < r.n && rows[q].chat == rows[r].chat
                  && rows[r].attempts > 0 && !TornReply(effects, q) ::
      !rows[q].status.Open()
  }

  /** Ids drawn by a handler in an untainted chat lie beyond every stored reply of the chat. */
  ghost predicate FifoDraws(s: State) {
    forall w, r, q | Drawn(s, w, q) && r in s.db.rows && r.Answer?
                     && s.db.rows[r].chat == s.pcs[w].update.chat && s.pcs[w].update.chat !in s.h.tainted ::
      r.n < q.n
  }

  ghost predicate FifoInv(s: State) { FifoRows(s.db.rows, s.h.effects) && FifoDraws(s) }

  ghost predicate FifoStill(a: Row, b: Row) {
    b.chat == a.chat && (b.attempts > 0 ==> a.attempts > 0) && (b.status.Open() ==> a.status.Open())
  }

  /** Replies keep their chats, and none is added. */
  lemma DrawsFrame(s: State, t: State)
    requires FifoDraws(s) && LockInv(s) && TaintKept(s, t)
    requires forall r | r in t.db.rows && r.Answer? :: r in s.db.rows && t.db.rows[r].chat == s.db.rows[r].chat
    requires forall w | HandlerAt(t, w) && t.pcs[w].step.Prepared? :: HandlerAt(s, w) && t.pcs[w] == s.pcs[w]
    ensures FifoDraws(t)
  {
    assert forall w, q | Drawn(t, w, q) :: Drawn(s, w, q);
  }

  /** Steps that neither reopen, nor add, nor newly attempt a reply. */
  lemma FifoFrame(s: State, t: State)
    requires FifoInv(s) && LockInv(s) && TaintKept(s, t) && t.h.effects == s.h.effects
    requires forall r | r in t.db.rows && r.Answer? :: r in s.db.rows && FifoStill(s.db.rows[r], t.db.rows[r])
    requires forall w | HandlerAt(t, w) && t.pcs[w].step.Prepared? :: HandlerAt(s, w) && t.pcs[w] == s.pcs[w]
    ensures FifoInv(t)
  {
    DrawsFrame(s, t);
  }

  /** A claim is made only when no earlier reply is open. */
  lemma FifoTaken(db: Db, effects: seq<Effect>, r: RowId, token: Token, at: nat)
    requires FifoRows(db.rows, effects) && Claimable(db.rows, r, at)
    ensures FifoRows(TakeClaim(db, r, token, at).rows, effects)
  {
  }

  lemma FifoSend(s: State, w: Worker, l: SendStep)
    requires FifoInv(s) && LockInv(s) && RowsInv(s.db) && CanSend(s, w, l)
    ensures FifoInv(NextSend(s, w, l))
  {
    SendPrograms(s, w, l);
    SendTaint(s, w, l);
    SendShape(s, w, l);
    SendKinds(s, w, l);
    DrawsFrame(s, NextSend(s, w, l));
    FifoOutbox(s, w, l);
  }

  lemma FifoOutbox(s: State, w: Worker, l: SendStep)
    requires FifoRows(s.db.rows, s.h.effects) && CanSend(s, w, l)
    ensures FifoRows(NextSend(s, w, l).db.rows, NextSend(s, w, l).h.effects)
  {
    SendShape(s, w, l);
    SendKeeps(s, w, l);
    if l.Claim? { FifoTaken(s.db, s.h.effects, l.r, l.token, l.at); }
  }

  /** New replies are not attempted yet, and lie beyond the stored ones unless they are torn. */
  lemma FifoAdds(rows: map<RowId, Row>, rows': map<RowId, Row>, effects: seq<Effect>, e: Effect)
    requires FifoRows(rows, effects) && e.answers == rows'.Keys - rows.Keys
    requires forall r | r in rows && r.Answer? :: r in rows' && FifoStill(rows[r], rows'[r])
    requires forall r | r in e.answers && r.Answer? :: rows'[r].attempts == 0
    requires !e.torn ==>
      forall q, r | q in e.answers && r in rows && q.Answer? && r.Answer? && rows[r].chat == rows'[q].chat :: r.n < q.n
    ensures FifoRows(rows', effects + [e])
  {
    assert e in effects + [e];
    assert forall x | x in effects :: x in effects + [e];
    assert forall r | !TornReply(effects + [e], r) :: !TornReply(effects, r) && (r in e.answers ==> !e.torn);
  }

  lemma DrawsCommit(s: State, t: State, w: Worker, at: nat)
    requires FifoDraws(s) && LockInv(s) && DrawInv(s) && HandlerAt(s, w) && s.pcs[w].step.Prepared? && TaintKept(s, t)
    requires CommitDelta(s.db.rows, t.db.rows, s.pcs[w].update, s.pcs[w].step.ids, at)
    requires forall v | v != w :: (v in t.pcs <==> v in s.pcs) && (v in s.pcs ==> t.pcs[v] == s.pcs[v])
    requires w in t.pcs ==> t.pcs[w].Handler? && !t.pcs[w].step.Prepared?
    ensures FifoDraws(t)
  {
    forall v, r, q | Drawn(t, v, q) && r in t.db.rows && r.Answer?
                  && t.db.rows[r].chat == t.pcs[v].update.chat && t.pcs[v].update.chat !in t.h.tainted
      ensures r.n < q.n
    {
      assert v != w;
      assert t.pcs[v] == s.pcs[v] && Drawn(s, v, q);
      StillUntainted(s, t, v);
      DrawnBehind(s, w, v, q);
      BehindAdded(s, t.db.rows, w, at, v, r, q);
    }
  }

  lemma StillUntainted(s: State, t: State, v: Worker)
    requires LockInv(s) && TaintKept(s, t) && HandlerAt(s, v) && s.pcs[v].step.Prepared?
    requires v in t.pcs && t.pcs[v] == s.pcs[v] && t.pcs[v].update.chat !in t.h.tainted
    ensures t.pcs[v].update.chat !in s.h.tainted
  {
  }

  /** In an untainted chat only one handler has drawn ids. */
  lemma DrawnBehind(s: State, w: Worker, v: Worker, q: RowId)
    requires LockInv(s) && HandlerAt(s, w) && s.pcs[w].step.Prepared? && v != w && Drawn(s, v, q)
    requires s.pcs[v].update.chat !in s.h.tainted
    ensures s.pcs[v].update.chat != s.pcs[w].update.chat
  {
    if s.pcs[v].update.chat == s.pcs[w].update.chat { OneHolder(s, v, w); }
  }

  /** Replies that a commit adds in another chat change nothing. */
  lemma BehindAdded(s: State, rows: map<RowId, Row>, w: Worker, at: nat, v: Worker, r: RowId, q: RowId)
    requires FifoDraws(s) && HandlerAt(s, w) && s.pcs[w].step.Prepared? && Drawn(s, v, q)
    requires CommitDelta(s.db.rows, rows, s.pcs[w].update, s.pcs[w].step.ids, at)
    requires s.pcs[v].update.chat != s.pcs[w].update.chat && s.pcs[v].update.chat !in s.h.tainted
    requires r in rows && r.Answer? && rows[r].chat == s.pcs[v].update.chat
    ensures r.n < q.n
  {
  }

  lemma FifoCommit(s: State, t: State, w: Worker)
    requires FifoInv(s) && LockInv(s) && DrawInv(s) && HandlerAt(s, w) && s.pcs[w].step.Prepared? && TaintKept(s, t)
    requires CommitDelta(s.db.rows, t.db.rows, s.pcs[w].update, s.pcs[w].step.ids, s.pcs[w].step.view.began)
    requires |t.h.effects| == |s.h.effects| + 1 && t.h.effects[..|s.h.effects|] == s.h.effects
    requires var e := t.h.effects[|s.h.effects|];
      e.answers == t.db.rows.Keys - s.db.rows.Keys && e.torn == (s.pcs[w].update.chat in s.h.tainted)
    requires forall v | v != w :: (v in t.pcs <==> v in s.pcs) && (v in s.pcs ==> t.pcs[v] == s.pcs[v])
    requires w in t.pcs ==> t.pcs[w].Handler? && !t.pcs[w].step.Prepared?
    ensures FifoInv(t)
  {
    DrawsCommit(s, t, w, s.pcs[w].step.view.began);
    var e := t.h.effects[|s.h.effects|];
    forall r | r in e.answers
      ensures Drawn(s, w, r) && t.db.rows[r].attempts == 0 && t.db.rows[r].chat == s.pcs[w].update.chat
    {
    }
    FifoAdds(s.db.rows, t.db.rows, s.h.effects, e);
    assert t.h.effects == s.h.effects + [e];
  }

  lemma FifoHandle(s: State, w: Worker, l: HandleStep)
    requires FifoInv(s) && LockInv(s) && DrawInv(s) && RowsInv(s.db) && CanHandle(s, w, l)
    ensures FifoInv(NextHandle(s, w, l))
  {
    HandleShape(s, w, l);
    HandleTaint(s, w, l);
    var t := NextHandle(s, w, l);
    if Effective(s, w, l) { CommitDrawn(s, w, l.ctx); FifoCommit(s, t, w); } else { DrawsQuiet(s, t, w); }
  }

  lemma DrawsQuiet(s: State, t: State, w: Worker)
    requires FifoDraws(s) && LockInv(s) && RowsInv(s.db) && TaintKept(s, t) && t.db.rows == s.db.rows
    requires forall v | v != w :: (v in t.pcs <==> v in s.pcs) && (v in s.pcs ==> t.pcs[v] == s.pcs[v])
    requires DrawnAnew(s, t, w)
    requires (w in t.pcs && w in s.pcs ==> t.pcs[w].Handler? && s.pcs[w].Handler? && t.pcs[w].update == s.pcs[w].update)
    requires w in t.pcs && w !in s.pcs ==> t.pcs[w].Handler? && t.pcs[w].step.Taken?
    requires HandlerAt(t, w) && t.pcs[w].step.Prepared? ==> t.pcs[w].secured
    ensures FifoDraws(t)
  {
    forall v, q | Drawn(t, v, q) ensures Drawn(s, v, q) || (v == w && s.db.nextAnswer <= q.n) {
      assert q == Answer(q.n);
    }
  }

  lemma FifoPrice(s: State, l: PriceStep)
    requires FifoInv(s) && LockInv(s) && CanPrice(s, l)
    ensures FifoInv(NextPrice(s, l))
  {
    FifoFrame(s, NextPrice(s, l));
  }

  lemma FifoWorld(s: State, l: WorldStep)
    requires FifoInv(s) && LockInv(s) && CanWorld(s, l)
    ensures FifoInv(NextWorld(s, l))
  {
    FifoFrame(s, NextWorld(s, l));
  }
}
