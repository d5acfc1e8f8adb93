/** Price alerts and scheduled notifications do not interfere: erasing everything about alerts from
    a run leaves a run with the same subscribers, scheduled jobs, replies, versions and inbox. */
module Independence {
  import opened Policy
  import opened Tables
  import opened Machine
  import opened Claims

  /* ---- Erasing alerts ---- */

  ghost function PlainCommand(c: Command): Command { if c.AddAlert? || c.CancelAlert? then Other else c }

  ghost function PlainRows(rows: map<RowId, Row>): map<RowId, Row> {
    map r | r in rows && !rows[r].kind.PriceAlert? :: rows[r]
  }

  ghost function PlainUpdates(updates: map<int, Update>): map<int, Update> {
    map u | u in updates :: updates[u].(command := PlainCommand(updates[u].command))
  }

  ghost predicate Visible(pc: Pc) { pc.Handler? || (pc.Sender? && !pc.claim.kind.PriceAlert?) }

  ghost function PlainView(v: View): View { v.(open := {}) }

  ghost function PlainStep(p: UpdatePhase): UpdatePhase { if p.Prepared? then p.(view := PlainView(p.view)) else p }

  ghost function PlainPc(pc: Pc): Pc {
    if pc.Handler? then pc.(update := PlainUpdateClaim(pc.update), step := PlainStep(pc.step)) else pc
  }

  /** The twin's tables: no alerts, no alert jobs, alert commands turned into plain messages. */
  ghost predicate TwinDb(db: Db, plain: Db) {
    && plain.now == db.now && plain.subs == db.subs && plain.rows == PlainRows(db.rows)
    && plain.alerts == map[] && plain.crossings == map[]
    && plain.updates == PlainUpdates(db.updates) && plain.versions == db.versions
    && plain.epoch == db.epoch && plain.lastReceived == db.lastReceived
    && plain.nextJob <= db.nextJob && plain.nextAnswer == db.nextAnswer && plain.nextAlert <= db.nextAlert
  }

  ghost predicate TwinPcs(pcs: map<Worker, Pc>, plain: map<Worker, Pc>) {
    && (forall w | w in plain :: w in pcs && Visible(pcs[w]) && plain[w] == PlainPc(pcs[w]))
    && (forall w | w in pcs && Visible(pcs[w]) :: w in plain)
  }

  ghost predicate TwinLocks(s: State, t: State) {
    && t.keyOf == s.keyOf
    && (forall k | k in t.locks :: k in s.locks && t.locks[k] == s.locks[k])
    && (forall k | k in s.locks && s.locks[k] in s.pcs && Visible(s.pcs[s.locks[k]]) :: k in t.locks)
    && (forall k | k in t.locks :: t.locks[k] in t.pcs)
  }

  ghost predicate Twin(s: State, t: State) { TwinDb(s.db, t.db) && TwinPcs(s.pcs, t.pcs) && TwinLocks(s, t) }

  /** Steps the twin does not see. */
  ghost predicate Erased(s: State, l: Label) {
    match l
    case Outbox(w, Claim(r, _, _, _)) => r in s.db.rows && s.db.rows[r].kind.PriceAlert?
    case Outbox(w, _) => w in s.pcs && !Visible(s.pcs[w])
    case Inbox(_, _) => false
    case Prices(_) => true
    case World(Crash(w)) => w in s.pcs && !Visible(s.pcs[w])
    case World(LoseSession(w)) => w in s.pcs && !Visible(s.pcs[w])
    case World(DropRow(r)) => r in s.db.rows && s.db.rows[r].kind.PriceAlert?
    case World(DropAlert(_)) => true
    case World(_) => false
  }

  /** The twin's version of a step it does see. */
  ghost function PlainLabel(l: Label): Label {
    if l.World? && l.world.Save? then World(Save(l.world.u, l.world.from, PlainCommand(l.world.command))) else l
  }

  /* ---- Row maps ---- */

  lemma PlainSet(rows: map<RowId, Row>, r: RowId, row: Row)
    requires !row.kind.PriceAlert?
    ensures PlainRows(rows[r := row]) == PlainRows(rows)[r := row]
  {
  }

  lemma PlainHide(rows: map<RowId, Row>, r: RowId, row: Row)
    requires row.kind.PriceAlert? && (r in rows ==> rows[r].kind.PriceAlert?)
    ensures PlainRows(rows[r := row]) == PlainRows(rows)
  {
  }

  lemma PlainClaimable(rows: map<RowId, Row>, r: RowId, at: nat)
    requires Claimable(rows, r, at) && !rows[r].kind.PriceAlert?
    ensures Claimable(PlainRows(rows), r, at)
  {
  }

  /* ---- Programs and locks ---- */

  lemma TwinFree(s: State, t: State, chat: Chat)
    requires TwinLocks(s, t) && ChatFree(s, chat)
    ensures ChatFree(t, chat)
  {
    assert t.keyOf(chat) == s.keyOf(chat);
  }

  /** A visible worker enters or moves on. */
  lemma TwinGoto(s: State, t: State, s': State, t': State, w: Worker, pc: Pc)
    requires Twin(s, t) && LockInv(s) && TwinDb(s'.db, t'.db) && Visible(pc) && (w in s.pcs ==> Visible(s.pcs[w]))
    requires s'.keyOf == s.keyOf && t'.keyOf == t.keyOf && s'.locks == s.locks && t'.locks == t.locks
    requires s'.pcs == s.pcs[w := pc] && t'.pcs == t.pcs[w := PlainPc(pc)]
    ensures Twin(s', t')
  {
  }

  /** A visible worker takes its chat lock. */
  lemma TwinSecure(s: State, t: State, s': State, t': State, w: Worker, pc: Pc, k: int)
    requires Twin(s, t) && LockInv(s) && TwinDb(s'.db, t'.db) && Visible(pc) && w in s.pcs && Visible(s.pcs[w])
    requires s'.keyOf == s.keyOf && t'.keyOf == t.keyOf && s'.locks == s.locks[k := w] && t'.locks == t.locks[k := w]
    requires s'.pcs == s.pcs[w := pc] && t'.pcs == t.pcs[w := PlainPc(pc)]
    ensures Twin(s', t')
  {
  }

  /** A visible worker leaves. */
  lemma TwinLeave(s: State, t: State, w: Worker)
    requires Twin(s, t) && LockInv(s) && w in s.pcs && Visible(s.pcs[w])
    ensures w in t.pcs && Twin(Leave(s, w), Leave(t, w))
  {
  }

  lemma TwinUnlock(s: State, t: State, w: Worker)
    requires Twin(s, t) && LockInv(s) && w in s.pcs && Visible(s.pcs[w])
    ensures w in t.pcs
    ensures forall k | k in Unlock(t, w) ::
      k in Unlock(s, w) && Unlock(t, w)[k] == Unlock(s, w)[k] == s.locks[k] && s.locks[k] != w
    ensures forall k | k in Unlock(s, w) && s.locks[k] in s.pcs && Visible(s.pcs[s.locks[k]]) :: k in Unlock(t, w)
  {
  }

  /* ---- Senders ---- */

  lemma TwinCanSend(s: State, t: State, w: Worker, l: SendStep)
    requires Twin(s, t) && CanSend(s, w, l) && !Erased(s, Outbox(w, l))
    ensures CanSend(t, w, l) && (!l.Claim? ==> t.pcs[w] == s.pcs[w])
  {
    if l.Claim? { PlainClaimable(s.db.rows, l.r, l.at); TwinFree(s, t, s.db.rows[l.r].chat); }
    if l.Lock? { TwinFree(s, t, s.pcs[w].claim.chat); }
  }

  /** A visible sender step, on both sides. */
  lemma TwinSend(s: State, t: State, w: Worker, l: SendStep)
    requires Twin(s, t) && LockInv(s) && ClaimInv(s) && CanSend(s, w, l) && !Erased(s, Outbox(w, l))
    ensures CanSend(t, w, l) && Twin(NextSend(s, w, l), NextSend(t, w, l))
  {
    TwinCanSend(s, t, w, l);
    match l
    case Claim(r, token, at, heard) => TwinClaim(s, t, w, r, token, at, heard);
    case Conclude(committed) => TwinConclude(s, t, w, committed);
    case Finalize(committed, heard) => TwinFinalize(s, t, w, committed, heard);
    case Release => TwinLeave(s, t, w);
    case Lock => TwinLocked(s, t, w);
    case _ => TwinMove(s, t, w, l);
  }

  lemma TwinLocked(s: State, t: State, w: Worker)
    requires Twin(s, t) && LockInv(s) && CanSend(s, w, Lock) && CanSend(t, w, Lock)
    requires t.pcs[w] == s.pcs[w] && Visible(s.pcs[w])
    ensures Twin(NextSend(s, w, Lock), NextSend(t, w, Lock))
  {
    var pc, k := s.pcs[w].(locked := true, since := s.db.now), s.keyOf(s.pcs[w].claim.chat);
    assert t.keyOf(s.pcs[w].claim.chat) == k;
    TwinSecure(s, t, NextSend(s, w, Lock), NextSend(t, w, Lock), w, pc, k);
  }

  ghost predicate Moves(l: SendStep) { !l.Claim? && !l.Conclude? && !l.Finalize? && !l.Release? && !l.Lock? }

  lemma MoveShape(s: State, w: Worker, l: SendStep)
    requires Moves(l) && CanSend(s, w, l)
    ensures var s' := NextSend(s, w, l);
      && s'.db == s.db && s'.locks == s.locks && s'.keyOf == s.keyOf
      && SenderAt(s', w) && s'.pcs == s.pcs[w := s'.pcs[w]] && s'.pcs[w].claim == s.pcs[w].claim
  {
  }

  lemma MoveAlike(s: State, t: State, w: Worker, l: SendStep)
    requires Moves(l) && CanSend(s, w, l) && CanSend(t, w, l) && t.pcs[w] == s.pcs[w] && TwinDb(s.db, t.db)
    requires !s.pcs[w].claim.kind.PriceAlert? && ClaimOk(s.db, s.pcs[w])
    ensures NextSend(t, w, l).pcs[w] == NextSend(s, w, l).pcs[w]
  {
    if l.Check? {
      assert ClaimCurrent(t.db.rows, s.pcs[w].claim, l.at) == ClaimCurrent(s.db.rows, s.pcs[w].claim, l.at);
    }
  }

  lemma TwinMove(s: State, t: State, w: Worker, l: SendStep)
    requires Moves(l)
    requires Twin(s, t) && LockInv(s) && ClaimInv(s) && CanSend(s, w, l) && CanSend(t, w, l) && !Erased(s, Outbox(w, l))
    requires t.pcs[w] == s.pcs[w]
    ensures Twin(NextSend(s, w, l), NextSend(t, w, l))
  {
    assert ClaimOk(s.db, s.pcs[w]);
    MoveShape(s, w, l);
    MoveShape(t, w, l);
    MoveAlike(s, t, w, l);
    TwinGoto(s, t, NextSend(s, w, l), NextSend(t, w, l), w, NextSend(s, w, l).pcs[w]);
  }

  lemma TwinClaim(s: State, t: State, w: Worker, r: RowId, token: Token, at: nat, heard: bool)
    requires Twin(s, t) && LockInv(s) && w !in s.pcs && r in s.db.rows && !s.db.rows[r].kind.PriceAlert?
    ensures r in t.db.rows && Twin(ClaimStep(s, w, r, token, at, heard), ClaimStep(t, w, r, token, at, heard))
  {
    var s', t' := ClaimStep(s, w, r, token, at, heard), ClaimStep(t, w, r, token, at, heard);
    PlainSet(s.db.rows, r, TakeClaim(s.db, r, token, at).rows[r]);
    assert TwinDb(s'.db, t'.db);
    if heard { TwinGoto(s, t, s', t', w, s'.pcs[w]); }
  }

  lemma TwinConclude(s: State, t: State, w: Worker, committed: bool)
    requires Twin(s, t) && LockInv(s) && ClaimInv(s) && SenderAt(s, w) && Visible(s.pcs[w])
    requires s.pcs[w].phase.Concluding?
    ensures SenderAt(t, w) && t.pcs[w] == s.pcs[w] && Twin(ConcludeStep(s, w, committed), ConcludeStep(t, w, committed))
  {
    assert ClaimOk(s.db, s.pcs[w]);
    TwinSettle(s.db, t.db, s.pcs[w].claim, s.pcs[w].phase.verdict);
    TwinGoto(s, t, ConcludeStep(s, w, committed), ConcludeStep(t, w, committed), w, s.pcs[w].(phase := Done));
  }

  lemma TwinFinalize(s: State, t: State, w: Worker, committed: bool, heard: bool)
    requires Twin(s, t) && LockInv(s) && ClaimInv(s) && SenderAt(s, w) && Visible(s.pcs[w]) && s.pcs[w].phase.Confirmed?
    ensures SenderAt(t, w) && t.pcs[w] == s.pcs[w]
    ensures Twin(FinalizeStep(s, w, committed, heard), FinalizeStep(t, w, committed, heard))
  {
    assert ClaimOk(s.db, s.pcs[w]);
    var c := s.pcs[w].claim;
    TwinOutcome(s, t, c, Delivered, false);
    var pc := s.pcs[w].(phase := AfterFinalize(s, w, committed, heard));
    if committed {
      TwinArrive(s, t, SettleStep(s, c, Delivered, false), SettleStep(t, c, Delivered, false), w, pc);
    } else {
      TwinArrive(s, t, s, t, w, pc);
    }
    assert AfterFinalize(t, w, committed, heard) == AfterFinalize(s, w, committed, heard);
    assert FinalizeStep(s, w, committed, heard) ==
      Goto(if committed then SettleStep(s, c, Delivered, false) else s, w, pc);
    assert FinalizeStep(t, w, committed, heard) ==
      Goto(if committed then SettleStep(t, c, Delivered, false) else t, w, pc);
  }

  lemma TwinOutcome(s: State, t: State, c: Claim, v: Verdict, overrun: bool)
    requires Twin(s, t) && !c.kind.PriceAlert? && (c.row in s.db.rows ==> s.db.rows[c.row].kind == c.kind)
    ensures TwinDb(SettleStep(s, c, v, overrun).db, SettleStep(t, c, v, overrun).db)
    ensures SameWorkers(s, SettleStep(s, c, v, overrun)) && SameWorkers(t, SettleStep(t, c, v, overrun))
    ensures Owns(s.db.rows, c) <==> Owns(t.db.rows, c)
  {
    TwinSettle(s.db, t.db, c, v);
  }

  lemma TwinSettle(db: Db, plain: Db, c: Claim, v: Verdict)
    requires TwinDb(db, plain) && !c.kind.PriceAlert? && (c.row in db.rows ==> db.rows[c.row].kind == c.kind)
    ensures TwinDb(Settle(db, c, v), Settle(plain, c, v)) && (Owns(db.rows, c) <==> Owns(plain.rows, c))
  {
  }

  /** Only an invisible worker's program and locks change. */
  lemma HiddenWork(s: State, t: State, s': State, w: Worker)
    requires Twin(s, t) && LockInv(s) && TwinDb(s'.db, t.db) && s'.keyOf == s.keyOf
    requires (w in s.pcs ==> !Visible(s.pcs[w])) && (w in s'.pcs ==> !Visible(s'.pcs[w]))
    requires forall v | v != w :: (v in s'.pcs <==> v in s.pcs) && (v in s.pcs ==> s'.pcs[v] == s.pcs[v])
    requires forall k | k in s.locks && s.locks[k] != w :: k in s'.locks && s'.locks[k] == s.locks[k]
    requires forall k | k in s'.locks && s'.locks[k] != w :: k in s.locks && s'.locks[k] == s.locks[k]
    ensures Twin(s', t)
  {
  }

  /** An alert job's sender step is invisible. */
  lemma HiddenSend(s: State, t: State, w: Worker, l: SendStep)
    requires Twin(s, t) && LockInv(s) && ClaimInv(s) && CanSend(s, w, l) && Erased(s, Outbox(w, l))
    ensures Twin(NextSend(s, w, l), t)
  {
    SendPrograms(s, w, l);
    HiddenTables(s, t, w, l);
    SendLocks(s, w, l);
    HiddenWork(s, t, NextSend(s, w, l), w);
  }

  lemma HiddenTables(s: State, t: State, w: Worker, l: SendStep)
    requires Twin(s, t) && ClaimInv(s) && CanSend(s, w, l) && Erased(s, Outbox(w, l))
    ensures TwinDb(NextSend(s, w, l).db, t.db)
    ensures w in NextSend(s, w, l).pcs ==> !Visible(NextSend(s, w, l).pcs[w])
  {
    match l
    case Claim(r, token, at, heard) => PlainHide(s.db.rows, r, TakeClaim(s.db, r, token, at).rows[r]);
    case Conclude(committed) =>
      assert ClaimOk(s.db, s.pcs[w]);
      HiddenSettle(s.db, s.pcs[w].claim, s.pcs[w].phase.verdict);
    case Finalize(committed, heard) => assert ClaimOk(s.db, s.pcs[w]); HiddenSettle(s.db, s.pcs[w].claim, Delivered);
    case _ =>
  }

  /** A sender step changes no lock but its own. */
  lemma SendLocks(s: State, w: Worker, l: SendStep)
    requires CanSend(s, w, l)
    ensures var s' := NextSend(s, w, l);
      && s'.keyOf == s.keyOf
      && (forall k | k in s.locks && s.locks[k] != w :: k in s'.locks && s'.locks[k] == s.locks[k])
      && (forall k | k in s'.locks && s'.locks[k] != w :: k in s.locks && s'.locks[k] == s.locks[k])
  {
  }

  lemma HiddenSettle(db: Db, c: Claim, v: Verdict)
    requires c.kind.PriceAlert? && (c.row in db.rows ==> db.rows[c.row].kind == c.kind)
    ensures var db' := Settle(db, c, v); PlainRows(db'.rows) == PlainRows(db.rows) && db'.(rows := db.rows) == db
  {
  }

  /* ---- Handlers ---- */

  ghost function PlainUpdateClaim(c: UpdateClaim): UpdateClaim { c.(command := PlainCommand(c.command)) }

  lemma PlainExists(rows: map<RowId, Row>, source: int, i: nat)
    ensures ReplyExists(PlainRows(rows), source, i) <==> ReplyExists(rows, source, i)
  {
    if ReplyExists(rows, source, i) {
      var r :| r in rows && rows[r].kind == Reply(source, i);
      assert PlainRows(rows)[r].kind == Reply(source, i);
    }
  }

  lemma {:induction false} TwinReplies(rows: map<RowId, Row>, c: UpdateClaim, ids: seq<nat>, at: nat)
    ensures NewReplies(PlainRows(rows), PlainUpdateClaim(c), ids, at) == NewReplies(rows, c, ids, at)
  {
    if ids != [] {
      TwinReplies(rows, c, ids[..|ids| - 1], at);
      PlainExists(rows, c.id, |ids| - 1);
    }
  }

  lemma TwinMutate(db: Db, plain: Db, c: UpdateClaim, view: View, ctx: Context)
    requires TwinDb(db, plain) && ctx.alertId >= db.nextAlert
    ensures TwinDb(Mutate(db, c, view, ctx), Mutate(plain, PlainUpdateClaim(c), PlainView(view), ctx))
  {
    if c.command.AddAlert? || c.command.CancelAlert? {
      TwinAlertCommand(db, plain, c, view, ctx);
    } else {
      TwinSetting(db, plain, c, view, ctx);
    }
  }

  lemma TwinAlertCommand(db: Db, plain: Db, c: UpdateClaim, view: View, ctx: Context)
    requires TwinDb(db, plain) && ctx.alertId >= db.nextAlert && (c.command.AddAlert? || c.command.CancelAlert?)
    ensures TwinDb(Mutate(db, c, view, ctx), Mutate(plain, PlainUpdateClaim(c), PlainView(view), ctx))
  {
    HiddenMutate(db, c, view, ctx);
    assert RowsAfter(plain.rows, view.began, c.chat, Other) == plain.rows;
    assert Mutate(plain, PlainUpdateClaim(c), PlainView(view), ctx) == plain;
  }

  /** Settings commands do the same to both. */
  lemma TwinSetting(db: Db, plain: Db, c: UpdateClaim, view: View, ctx: Context)
    requires TwinDb(db, plain) && !c.command.AddAlert? && !c.command.CancelAlert?
    ensures TwinDb(Mutate(db, c, view, ctx), Mutate(plain, PlainUpdateClaim(c), PlainView(view), ctx))
  {
    PlainCanceled(db.rows, view.began, c.chat, c.command);
    PlainSubs(db.subs, c.chat, c.command, view);
    var rows, subs := RowsAfter(db.rows, view.began, c.chat, c.command), SubsAfter(db.subs, c.chat, c.command, view);
    assert Mutate(db, c, view, ctx) == db.(subs := subs, rows := rows);
    assert Mutate(plain, PlainUpdateClaim(c), PlainView(view), ctx) == plain.(subs := subs, rows := PlainRows(rows));
  }

  /** Subscribers never depend on the open alerts that were read. */
  lemma PlainSubs(subs: map<Chat, Sub>, chat: Chat, cmd: Command, view: View)
    ensures SubsAfter(subs, chat, cmd, PlainView(view)) == SubsAfter(subs, chat, cmd, view)
  {
  }

  /** Alert commands touch nothing the twin can see. */
  lemma HiddenMutate(db: Db, c: UpdateClaim, view: View, ctx: Context)
    requires (c.command.AddAlert? || c.command.CancelAlert?) && ctx.alertId >= db.nextAlert
    ensures var db' := Mutate(db, c, view, ctx);
      && PlainRows(db'.rows) == PlainRows(db.rows) && db'.nextAlert >= db.nextAlert
      && db'.(rows := db.rows, alerts := db.alerts, nextAlert := db.nextAlert) == db
  {
    match c.command
    case AddAlert(symbol, pct) =>
    case CancelAlert(a) => PlainWithdraw(db, c.chat, a, view);
  }

  lemma PlainPlus(rows: map<RowId, Row>, added: map<RowId, Row>)
    requires forall r | r in added :: !added[r].kind.PriceAlert?
    ensures PlainRows(rows + added) == PlainRows(rows) + added
  {
  }

  lemma PlainWithdraw(db: Db, chat: Chat, a: nat, view: View)
    ensures var db' := WithdrawAlert(db, chat, a, view);
      PlainRows(db'.rows) == PlainRows(db.rows) && db'.(rows := db.rows, alerts := db.alerts) == db
  {
  }

  lemma PlainCanceled(rows: map<RowId, Row>, at: nat, chat: Chat, cmd: Command)
    ensures PlainRows(RowsAfter(rows, at, chat, cmd)) == RowsAfter(PlainRows(rows), at, chat, cmd)
  {
  }

  lemma TwinClosed(db: Db, plain: Db, c: UpdateClaim, status: UpdateStatus, at: nat)
    requires TwinDb(db, plain)
    ensures TwinDb(CloseUpdate(db, c, status, at), CloseUpdate(plain, PlainUpdateClaim(c), status, at))
    ensures OwnsUpdate(db.updates, c) <==> OwnsUpdate(plain.updates, PlainUpdateClaim(c))
  {
  }

  lemma TwinOwns(updates: map<int, Update>, c: UpdateClaim)
    ensures OwnsUpdate(PlainUpdates(updates), PlainUpdateClaim(c)) == OwnsUpdate(updates, c)
  {
  }

  lemma TwinAdmits(versions: map<(Chat, Setting), Version>, c: UpdateClaim, view: View)
    ensures Admits(versions, PlainUpdateClaim(c), PlainView(view)) == Admits(versions, c, view)
    ensures Record(versions, PlainUpdateClaim(c), PlainView(view)) == Record(versions, c, view)
  {
  }

  lemma TwinCommit(db: Db, plain: Db, c: UpdateClaim, ids: seq<nat>, view: View, ctx: Context)
    requires TwinDb(db, plain) && ctx.alertId >= db.nextAlert
    ensures TwinDb(CommitUpdate(db, c, ids, view, ctx),
        CommitUpdate(plain, PlainUpdateClaim(c), ids, PlainView(view), ctx))
  {
    var p := PlainUpdateClaim(c);
    TwinClosed(db, plain, c, Processed, view.began);
    TwinAdmits(db.versions, c, view);
    if OwnsUpdate(db.updates, c) && Admits(db.versions, c, view) {
      var versions := Record(db.versions, c, view);
      TwinMutate(db.(versions := versions), plain.(versions := versions), c, view, ctx);
      TwinWritten(Mutate(db.(versions := versions), c, view, ctx),
          Mutate(plain.(versions := versions), p, PlainView(view), ctx), c, ids, view.began);
    }
  }

  lemma TwinWritten(db: Db, plain: Db, c: UpdateClaim, ids: seq<nat>, at: nat)
    requires TwinDb(db, plain)
    ensures var p := PlainUpdateClaim(c);
      TwinDb(CloseUpdate(db.(rows := db.rows + NewReplies(db.rows, c, ids, at)), c, Processed, at),
             CloseUpdate(plain.(rows := plain.rows + NewReplies(plain.rows, p, ids, at)), p, Processed, at))
  {
    var added := NewReplies(db.rows, c, ids, at);
    TwinReplies(db.rows, c, ids, at);
    NewReplyRows(db.rows, c, ids, at);
    PlainPlus(db.rows, added);
    TwinClosed(db.(rows := db.rows + added), plain.(rows := plain.rows + added), c, Processed, at);
  }

  lemma TwinHandle(s: State, t: State, w: Worker, l: HandleStep)
    requires Twin(s, t) && LockInv(s) && CanHandle(s, w, l)
    ensures CanHandle(t, w, l) && Twin(NextHandle(s, w, l), NextHandle(t, w, l))
  {
    TwinCanHandle(s, t, w, l);
    match l
    case Take(u, at, heard) => TwinTaken(s, t, w, u, at, heard);
    case Secure => TwinSecured(s, t, w);
    case Commit(ctx, committed, heard) => TwinCommitted(s, t, w, ctx, committed, heard);
    case Close(committed) => TwinErred(s, t, w, committed);
    case Depart => TwinLeave(s, t, w);
    case Prepare => TwinPrepared(s, t, w);
    case _ => TwinProceeds(s, t, w, l);
  }

  lemma TwinSecured(s: State, t: State, w: Worker)
    requires Twin(s, t) && LockInv(s) && CanHandle(s, w, Secure) && CanHandle(t, w, Secure)
    requires t.pcs[w] == PlainPc(s.pcs[w])
    ensures Twin(NextHandle(s, w, Secure), NextHandle(t, w, Secure))
  {
    var k := s.keyOf(s.pcs[w].update.chat);
    assert t.keyOf(s.pcs[w].update.chat) == k;
    TwinSecure(s, t, NextHandle(s, w, Secure), NextHandle(t, w, Secure), w, s.pcs[w].(secured := true), k);
  }

  lemma TwinProceeds(s: State, t: State, w: Worker, l: HandleStep)
    requires l.Garbled? || l.Begin? || l.Draw? || l.Err?
    requires Twin(s, t) && LockInv(s) && CanHandle(s, w, l) && CanHandle(t, w, l) && t.pcs[w] == PlainPc(s.pcs[w])
    ensures Twin(NextHandle(s, w, l), NextHandle(t, w, l))
  {
    TwinGoto(s, t, NextHandle(s, w, l), NextHandle(t, w, l), w, NextHandle(s, w, l).pcs[w]);
  }

  lemma TwinPrepared(s: State, t: State, w: Worker)
    requires Twin(s, t) && LockInv(s) && CanHandle(s, w, Prepare) && CanHandle(t, w, Prepare)
    requires t.pcs[w] == PlainPc(s.pcs[w])
    ensures Twin(NextHandle(s, w, Prepare), NextHandle(t, w, Prepare))
  {
    var c := s.pcs[w].update;
    assert OpenAlerts(t.db, c.chat) == {};
    assert ViewOf(t.db, PlainUpdateClaim(c), s.pcs[w].step.at) == PlainView(ViewOf(s.db, c, s.pcs[w].step.at));
    TwinGoto(s, t, NextHandle(s, w, Prepare), NextHandle(t, w, Prepare), w, NextHandle(s, w, Prepare).pcs[w]);
  }

  lemma TwinCanHandle(s: State, t: State, w: Worker, l: HandleStep)
    requires Twin(s, t) && CanHandle(s, w, l)
    ensures CanHandle(t, w, l) && (!l.Take? ==> t.pcs[w] == PlainPc(s.pcs[w]))
  {
    if l.Take? { TwinUpdateClaimable(s.db.updates, l.u, l.at); }
    if l.Secure? { TwinFree(s, t, s.pcs[w].update.chat); }
  }

  lemma TwinUpdateClaimable(updates: map<int, Update>, u: int, at: nat)
    requires UpdateClaimable(updates, u, at)
    ensures UpdateClaimable(PlainUpdates(updates), u, at)
  {
  }

  lemma TwinTaken(s: State, t: State, w: Worker, u: int, at: nat, heard: bool)
    requires Twin(s, t) && LockInv(s) && CanHandle(s, w, Take(u, at, heard)) && CanHandle(t, w, Take(u, at, heard))
    ensures Twin(NextHandle(s, w, Take(u, at, heard)), NextHandle(t, w, Take(u, at, heard)))
  {
    TwinTake(s.db, t.db, u, at);
    var a, b := s.(db := TakeUpdate(s.db, u, at)), t.(db := TakeUpdate(t.db, u, at));
    TwinStill(s, t, a, b);
    if heard { TwinArrive(s, t, a, b, w, Handler(UpdateClaimOf(u, s.db.updates[u]), Taken, false)); }
  }

  lemma TwinTake(db: Db, plain: Db, u: int, at: nat)
    requires TwinDb(db, plain) && u in db.updates
    ensures u in plain.updates && TwinDb(TakeUpdate(db, u, at), TakeUpdate(plain, u, at))
    ensures UpdateClaimOf(u, plain.updates[u]) == PlainUpdateClaim(UpdateClaimOf(u, db.updates[u]))
  {
    PlainPut(db.updates, u, TakeUpdate(db, u, at).updates[u]);
  }

  lemma TwinCommitted(s: State, t: State, w: Worker, ctx: Context, committed: bool, heard: bool)
    requires Twin(s, t) && LockInv(s) && HandlerAt(s, w) && s.pcs[w].step.Prepared? && ctx.alertId >= s.db.nextAlert
    requires HandlerAt(t, w) && t.pcs[w] == PlainPc(s.pcs[w])
    ensures OwnsUpdate(t.db.updates, t.pcs[w].update) == OwnsUpdate(s.db.updates, s.pcs[w].update)
    ensures var effective := committed && OwnsUpdate(s.db.updates, s.pcs[w].update);
      Twin(Goto(CommitTurn(s, w, ctx, effective), w, s.pcs[w].(step := AfterCommit(s, w, committed, heard))),
           Goto(CommitTurn(t, w, ctx, effective), w, t.pcs[w].(step := AfterCommit(t, w, committed, heard))))
  {
    var effective := committed && OwnsUpdate(s.db.updates, s.pcs[w].update);
    TwinOwns(s.db.updates, s.pcs[w].update);
    TwinTurn(s, t, w, ctx, effective);
    var pc := s.pcs[w].(step := AfterCommit(s, w, committed, heard));
    TwinArrive(s, t, CommitTurn(s, w, ctx, effective), CommitTurn(t, w, ctx, effective), w, pc);
    assert AfterCommit(t, w, committed, heard) == AfterCommit(s, w, committed, heard);
    assert t.pcs[w].(step := AfterCommit(t, w, committed, heard)) == PlainPc(pc);
  }

  lemma TwinArrive(s: State, t: State, a: State, b: State, w: Worker, pc: Pc)
    requires Twin(s, t) && LockInv(s) && SameWorkers(s, a) && SameWorkers(t, b) && TwinDb(a.db, b.db)
    requires Visible(pc) && (w in s.pcs ==> Visible(s.pcs[w]))
    ensures Twin(Goto(a, w, pc), Goto(b, w, PlainPc(pc)))
  {
    TwinGoto(s, t, Goto(a, w, pc), Goto(b, w, PlainPc(pc)), w, pc);
  }

  ghost predicate SameWorkers(s: State, a: State) { a.pcs == s.pcs && a.locks == s.locks && a.keyOf == s.keyOf }

  lemma TwinTurn(s: State, t: State, w: Worker, ctx: Context, effective: bool)
    requires Twin(s, t) && HandlerAt(s, w) && s.pcs[w].step.Prepared? && ctx.alertId >= s.db.nextAlert
    requires HandlerAt(t, w) && t.pcs[w] == PlainPc(s.pcs[w])
    requires effective ==> OwnsUpdate(s.db.updates, s.pcs[w].update) && OwnsUpdate(t.db.updates, t.pcs[w].update)
    ensures TwinDb(CommitTurn(s, w, ctx, effective).db, CommitTurn(t, w, ctx, effective).db)
    ensures SameWorkers(s, CommitTurn(s, w, ctx, effective)) && SameWorkers(t, CommitTurn(t, w, ctx, effective))
  {
    TwinCommit(s.db, t.db, s.pcs[w].update, s.pcs[w].step.ids, s.pcs[w].step.view, ctx);
  }

  lemma TwinErred(s: State, t: State, w: Worker, committed: bool)
    requires Twin(s, t) && LockInv(s) && HandlerAt(s, w) && s.pcs[w].step.Erring? && t.pcs[w] == PlainPc(s.pcs[w])
    requires HandlerAt(t, w)
    ensures Twin(Goto(s, w, s.pcs[w].(step := Finished)).(db := ErrTable(s.db, s.pcs[w], committed)),
                 Goto(t, w, t.pcs[w].(step := Finished)).(db := ErrTable(t.db, t.pcs[w], committed)))
  {
    var pc := s.pcs[w].(step := Finished);
    TwinClosed(s.db, t.db, s.pcs[w].update, Rejected, s.db.now);
    TwinRetried(s.db, t.db, s.pcs[w].update);
    var a, b := s.(db := ErrTable(s.db, s.pcs[w], committed)), t.(db := ErrTable(t.db, t.pcs[w], committed));
    TwinArrive(s, t, a, b, w, pc);
  }

  lemma TwinRetried(db: Db, plain: Db, c: UpdateClaim)
    requires TwinDb(db, plain)
    ensures TwinDb(RetryUpdate(db, c), RetryUpdate(plain, PlainUpdateClaim(c)))
  {
  }

  /* ---- The ticker and the world ---- */

  lemma HiddenPrice(s: State, t: State, l: PriceStep)
    requires Twin(s, t) && RowsInv(s.db) && CanPrice(s, l)
    ensures Twin(NextPrice(s, l), t)
  {
    if l.Fire? { PlainHide(s.db.rows, Job(l.id), NextPrice(s, l).db.rows[Job(l.id)]); }
  }

  lemma TwinWorld(s: State, t: State, l: WorldStep)
    requires Twin(s, t) && LockInv(s) && CanWorld(s, l) && !Erased(s, World(l))
    ensures var l' := PlainLabel(World(l)).world; CanWorld(t, l') && Twin(NextWorld(s, l), NextWorld(t, l'))
  {
    match l
    case Tick(_) =>
    case Crash(w) => TwinLeave(s, t, w);
    case LoseSession(w) => TwinLost(s, t, w);
    case Cron(chat, id, at) => TwinProduce(s, t, l);
    case Save(u, from, command) => TwinProduce(s, t, l);
    case DropRow(r) => TwinDrop(s, t, l);
    case DropUpdate(u) => TwinDrop(s, t, l);
  }

  lemma TwinProduce(s: State, t: State, l: WorldStep)
    requires Twin(s, t) && CanWorld(s, l) && (l.Cron? || l.Save?)
    ensures var l' := PlainLabel(World(l)).world; CanWorld(t, l') && Twin(NextWorld(s, l), NextWorld(t, l'))
  {
    if l.Cron? {
      TwinCron(s.db, t.db, l.chat, l.id, l.at);
    } else {
      TwinSave(s.db, t.db, l.u, l.from, l.command);
    }
    TwinStill(s, t, NextWorld(s, l), NextWorld(t, PlainLabel(World(l)).world));
  }

  lemma TwinDrop(s: State, t: State, l: WorldStep)
    requires Twin(s, t) && CanWorld(s, l) && (l.DropRow? || l.DropUpdate?) && !Erased(s, World(l))
    ensures CanWorld(t, l) && Twin(NextWorld(s, l), NextWorld(t, l))
  {
  }

  /** Only the tables move. */
  lemma TwinStill(s: State, t: State, s': State, t': State)
    requires Twin(s, t) && TwinDb(s'.db, t'.db)
    requires s'.keyOf == s.keyOf && s'.locks == s.locks && s'.pcs == s.pcs
    requires t'.keyOf == t.keyOf && t'.locks == t.locks && t'.pcs == t.pcs
    ensures Twin(s', t')
  {
  }

  lemma TwinCron(db: Db, plain: Db, chat: Chat, id: nat, at: nat)
    requires TwinDb(db, plain) && Due(db, chat, at) && id >= db.nextJob
    ensures Due(plain, chat, at) && TwinDb(CreateScheduled(db, chat, id, at), CreateScheduled(plain, chat, id, at))
  {
  }

  lemma PlainPut(updates: map<int, Update>, u: int, up: Update)
    ensures PlainUpdates(updates[u := up]) == PlainUpdates(updates)[u := up.(command := PlainCommand(up.command))]
  {
  }

  lemma TwinSave(db: Db, plain: Db, u: int, from: Chat, command: Command)
    requires TwinDb(db, plain)
    ensures TwinDb(SaveUpdate(db, u, from, command), SaveUpdate(plain, u, from, PlainCommand(command)))
  {
    PlainPut(db.updates, u, Update(from, NextEpoch(db), command, Waiting, 0, None, db.now, 0));
  }

  lemma TwinLost(s: State, t: State, w: Worker)
    requires Twin(s, t) && LockInv(s) && CanWorld(s, LoseSession(w)) && Visible(s.pcs[w])
    ensures CanWorld(t, LoseSession(w)) && Twin(NextWorld(s, LoseSession(w)), NextWorld(t, LoseSession(w)))
  {
    TwinUnlock(s, t, w);
  }

  lemma HiddenWorld(s: State, t: State, l: WorldStep)
    requires Twin(s, t) && LockInv(s) && CanWorld(s, l) && Erased(s, World(l))
    ensures Twin(NextWorld(s, l), t)
  {
  }

  /** One step: invisible to the twin, or matched by the twin's own step. */
  lemma TwinStep(s: State, t: State, l: Label)
    requires Twin(s, t) && BaseInv(s) && Can(s, l)
    ensures if Erased(s, l) then Twin(Next(s, l), t)
            else Can(t, PlainLabel(l)) && Twin(Next(s, l), Next(t, PlainLabel(l)))
  {
    if Erased(s, l) { HiddenStep(s, t, l); } else { SeenStep(s, t, l); }
  }

  lemma HiddenStep(s: State, t: State, l: Label)
    requires Twin(s, t) && BaseInv(s) && Can(s, l) && Erased(s, l)
    ensures Twin(Next(s, l), t)
  {
    match l
    case Outbox(w, send) => HiddenSend(s, t, w, send);
    case Prices(price) => HiddenPrice(s, t, price);
    case World(world) => HiddenWorld(s, t, world);
  }

  lemma SeenStep(s: State, t: State, l: Label)
    requires Twin(s, t) && BaseInv(s) && Can(s, l) && !Erased(s, l)
    ensures Can(t, PlainLabel(l)) && Twin(Next(s, l), Next(t, PlainLabel(l)))
  {
    match l
    case Outbox(w, send) => TwinSend(s, t, w, send);
    case Inbox(w, handle) => TwinHandle(s, t, w, handle);
    case World(world) => TwinWorld(s, t, world);
  }

  /** Nothing about alerts: no ticker step and no alert command. */
  ghost predicate AlertFree(l: Label) {
    && !l.Prices? && !(l.World? && l.world.DropAlert?)
    && !(l.World? && l.world.Save? && (l.world.command.AddAlert? || l.world.command.CancelAlert?))
  }
}
