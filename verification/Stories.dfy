/** Why a row, a subscriber or an update is what it is: for every step, the one cause that changed it. */
module Stories {
  import opened Policy
  import opened Tables
  import opened Machine
  import opened Claims
  import opened Views

  /* ---- Subscribers ---- */

  datatype SubCause =
    | SubSame
    | SubOutcome(v: Verdict, at: nat)
    | SubCommand(cmd: Command, view: View)
    | SubCron(at: nat)

  ghost function SubCauseSend(s: State, w: Worker, l: SendStep, chat: Chat): SubCause
    requires CanSend(s, w, l)
  {
    if OutcomeOf(s, w, l).Some? && s.pcs[w].claim.kind.Scheduled? && s.pcs[w].claim.chat == chat
    then SubOutcome(OutcomeOf(s, w, l).value, s.pcs[w].claim.scheduledAt) else SubSame
  }

  ghost function SubCauseHandle(s: State, w: Worker, l: HandleStep, chat: Chat): SubCause
    requires CanHandle(s, w, l)
  {
    if Effective(s, w, l) && s.pcs[w].update.chat == chat && Admits(s.db.versions, s.pcs[w].update, s.pcs[w].step.view)
    then SubCommand(s.pcs[w].update.command, s.pcs[w].step.view) else SubSame
  }

  ghost function SubCauseWorld(l: WorldStep, chat: Chat): SubCause {
    if l.Cron? && l.chat == chat then SubCron(l.at) else SubSame
  }

  /** The transaction, if any, through which a step touches the subscriber of a chat. */
  ghost function CauseOf(s: State, l: Label, chat: Chat): SubCause
    requires Can(s, l)
  {
    match l
    case Outbox(w, send) => SubCauseSend(s, w, send, chat)
    case Inbox(w, handle) => SubCauseHandle(s, w, handle, chat)
    case Prices(_) => SubSame
    case World(world) => SubCauseWorld(world, chat)
  }

  ghost function SubAfter(sub: Sub, cause: SubCause, now: nat): Sub {
    match cause
    case SubSame => sub
    case SubOutcome(v, at) => SettledSub(sub, v, at, now)
    case SubCommand(cmd, view) => SubsAfter(map[0 := sub], 0, cmd, view)[0]
    case SubCron(at) => sub.(cronClaimedUntil := Some(at + CRON_CLAIM))
  }

  ghost predicate SubTold(s: State, t: State, chat: Chat, cause: SubCause) {
    chat in s.db.subs ==> chat in t.db.subs && t.db.subs[chat] == SubAfter(s.db.subs[chat], cause, s.db.now)
  }

  lemma SubSend(s: State, w: Worker, l: SendStep, chat: Chat)
    requires CanSend(s, w, l)
    ensures SubTold(s, NextSend(s, w, l), chat, SubCauseSend(s, w, l, chat))
  {
    SendShape(s, w, l);
  }

  lemma SubHandle(s: State, w: Worker, l: HandleStep, chat: Chat)
    requires CanHandle(s, w, l)
    ensures SubTold(s, NextHandle(s, w, l), chat, SubCauseHandle(s, w, l, chat))
  {
    HandleShape(s, w, l);
    if Effective(s, w, l) { SubCommit(s, NextHandle(s, w, l), w, l.ctx, chat); }
  }

  lemma SubCommit(s: State, t: State, w: Worker, ctx: Context, chat: Chat)
    requires CommittedStep(s, t, w, ctx)
    ensures var c, view := s.pcs[w].update, s.pcs[w].step.view;
      var acts := c.chat == chat && Admits(s.db.versions, c, view);
      SubTold(s, t, chat, if acts then SubCommand(c.command, view) else SubSame)
  {
    var c, view := s.pcs[w].update, s.pcs[w].step.view;
    CommitCloses(s.db, c, s.pcs[w].step.ids, view, ctx);
    if chat in s.db.subs { CommandLocal(s.db.subs, c.chat, c.command, view, chat); }
  }

  /** A command looks at nothing but the subscriber of its own chat. */
  lemma CommandLocal(subs: map<Chat, Sub>, chat: Chat, cmd: Command, view: View, other: Chat)
    requires other in subs
    ensures var subs' := SubsAfter(subs, chat, cmd, view);
      && other in subs'
      && subs'[other] == SubAfter(subs[other], if other == chat then SubCommand(cmd, view) else SubSame, 0)
  {
  }

  lemma SubPrice(s: State, l: PriceStep)
    requires CanPrice(s, l)
    ensures NextPrice(s, l).db.subs == s.db.subs
  {
  }

  lemma SubWorld(s: State, l: WorldStep, chat: Chat)
    requires CanWorld(s, l)
    ensures SubTold(s, NextWorld(s, l), chat, SubCauseWorld(l, chat))
  {
  }

  /** A subscriber row never disappears and changes only through its cause. */
  lemma SubStory(s: State, l: Label, chat: Chat)
    requires Can(s, l)
    ensures SubTold(s, Next(s, l), chat, CauseOf(s, l, chat))
  {
    match l
    case Outbox(w, send) => SubSend(s, w, send, chat);
    case Inbox(w, handle) => SubHandle(s, w, handle, chat);
    case Prices(price) => SubPrice(s, price);
    case World(world) => SubWorld(s, world, chat);
  }

  /* ---- Outbox rows ---- */

  datatype RowCause = RowSame | RowClaim(token: Token, at: nat) | RowOutcome(v: Verdict) | RowCancel(at: nat) | RowDrop

  ghost function RowCauseSend(s: State, w: Worker, l: SendStep, r: RowId): RowCause
    requires CanSend(s, w, l)
  {
    if l.Claim? && l.r == r then RowClaim(l.token, l.at)
    else if OutcomeOf(s, w, l).Some? && s.pcs[w].claim.row == r then RowOutcome(OutcomeOf(s, w, l).value)
    else RowSame
  }

  ghost function RowCauseHandle(s: State, w: Worker, l: HandleStep, r: RowId): RowCause
    requires CanHandle(s, w, l)
  {
    var rows' := NextHandle(s, w, l).db.rows;
    if Effective(s, w, l) && r in s.db.rows && r in rows' && rows'[r] != s.db.rows[r]
    then RowCancel(s.pcs[w].step.view.began) else RowSame
  }

  ghost function RowCauseWorld(l: WorldStep, r: RowId): RowCause { if l.DropRow? && l.r == r then RowDrop else RowSame }

  /** The transaction, if any, through which a step touches a row. */
  ghost function RowCauseOf(s: State, l: Label, r: RowId): RowCause
    requires Can(s, l)
  {
    match l
    case Outbox(w, send) => RowCauseSend(s, w, send, r)
    case Inbox(w, handle) => RowCauseHandle(s, w, handle, r)
    case Prices(_) => RowSame
    case World(world) => RowCauseWorld(world, r)
  }

  /** What the cause makes of the row; a dropped row was closed. */
  ghost predicate RowBecomes(row: Row, rows': map<RowId, Row>, r: RowId, cause: RowCause, now: nat) {
    match cause
    case RowSame => r in rows' && rows'[r] == row
    case RowClaim(token, at) =>
      && r in rows' && row.status.Open() && row.nextAttempt <= at <= now
      && (row.status.Pending? || row.claimedUntil.None? || row.claimedUntil.value < at)
      && rows'[r] == row.(status := Sending, attempts := row.attempts + 1, token := Some(token),
          claimedUntil := Some(at + LEASE))
    case RowOutcome(v) => r in rows' && row.status.Sending? && rows'[r] == Settled(row, v, now)
    case RowCancel(at) => r in rows' && row.status.Open() && rows'[r] == CancelRow(row, at)
    case RowDrop => r !in rows' && !row.status.Open()
  }

  ghost predicate RowTold(s: State, t: State, r: RowId, cause: RowCause) {
    r in s.db.rows ==> RowBecomes(s.db.rows[r], t.db.rows, r, cause, s.db.now)
  }

  lemma RowSend(s: State, w: Worker, l: SendStep, r: RowId)
    requires CanSend(s, w, l)
    ensures RowTold(s, NextSend(s, w, l), r, RowCauseSend(s, w, l, r))
  {
    SendShape(s, w, l);
  }

  lemma RowHandle(s: State, w: Worker, l: HandleStep, r: RowId)
    requires DrawInv(s) && CanHandle(s, w, l)
    ensures RowTold(s, NextHandle(s, w, l), r, RowCauseHandle(s, w, l, r))
  {
    HandleShape(s, w, l);
    if Effective(s, w, l) { CommitDrawn(s, w, l.ctx); }
  }

  lemma RowPrice(s: State, l: PriceStep, r: RowId)
    requires RowsInv(s.db) && CanPrice(s, l)
    ensures RowTold(s, NextPrice(s, l), r, RowSame)
  {
  }

  lemma RowWorld(s: State, l: WorldStep, r: RowId)
    requires RowsInv(s.db) && CanWorld(s, l)
    ensures RowTold(s, NextWorld(s, l), r, RowCauseWorld(l, r))
  {
  }

  /** A row changes only through its cause. */
  lemma RowStory(s: State, l: Label, r: RowId)
    requires RowsInv(s.db) && DrawInv(s) && Can(s, l)
    ensures RowTold(s, Next(s, l), r, RowCauseOf(s, l, r))
  {
    match l
    case Outbox(w, send) => RowSend(s, w, send, r);
    case Inbox(w, handle) => RowHandle(s, w, handle, r);
    case Prices(price) => RowPrice(s, price, r);
    case World(world) => RowWorld(s, world, r);
  }

  /** A scheduled job appears only with a cron step. */
  ghost predicate ScheduledBy(s: State, t: State, l: Label, r: RowId) {
    r in t.db.rows && r !in s.db.rows && t.db.rows[r].kind.Scheduled? ==>
      l.World? && l.world.Cron? && r == Job(l.world.id)
  }

  lemma ScheduledHandle(s: State, w: Worker, l: HandleStep, r: RowId)
    requires DrawInv(s) && CanHandle(s, w, l)
    ensures ScheduledBy(s, NextHandle(s, w, l), Inbox(w, l), r)
  {
    HandleShape(s, w, l);
    if Effective(s, w, l) { CommitDrawn(s, w, l.ctx); }
  }

  lemma ScheduledPrice(s: State, l: PriceStep, r: RowId)
    requires CanPrice(s, l)
    ensures ScheduledBy(s, NextPrice(s, l), Prices(l), r)
  {
  }

  lemma ScheduledWorld(s: State, l: WorldStep, r: RowId)
    requires CanWorld(s, l)
    ensures ScheduledBy(s, NextWorld(s, l), World(l), r)
  {
  }

  lemma ScheduledStory(s: State, l: Label, r: RowId)
    requires DrawInv(s) && Can(s, l)
    ensures ScheduledBy(s, Next(s, l), l, r)
  {
    match l
    case Outbox(w, send) => SendTables(s, w, send);
    case Inbox(w, handle) => ScheduledHandle(s, w, handle, r);
    case Prices(price) => ScheduledPrice(s, price, r);
    case World(world) => ScheduledWorld(s, world, r);
  }

  /* ---- Inbox rows ---- */

  ghost predicate OpenUpdate(db: Db, u: int) { u in db.updates && db.updates[u].status.Open() }

  ghost predicate InProgress(db: Db, u: int, attempts: nat) {
    u in db.updates && db.updates[u].status.Processing? && db.updates[u].attempts == attempts
  }

  /** An open update was open before, or has just been saved. */
  ghost predicate OpenedBy(s: State, t: State, l: Label, u: int) {
    OpenUpdate(t.db, u) ==>
      || (OpenUpdate(s.db, u) && s.db.updates[u].chat == t.db.updates[u].chat
          && s.db.updates[u].epoch == t.db.updates[u].epoch)
      || (u !in s.db.updates && l.World? && l.world.Save? && l.world.u == u)
  }

  /** An update in progress was in progress under the same claim, or has just been claimed. */
  ghost predicate TakenBy(s: State, t: State, l: Label, u: int) {
    forall n | InProgress(t.db, u, n) ::
      || InProgress(s.db, u, n)
      || (l.Inbox? && l.handle.Take? && l.handle.u == u && UpdateClaimable(s.db.updates, u, l.handle.at))
  }

  lemma UpdateHandle(s: State, w: Worker, l: HandleStep, u: int)
    requires CanHandle(s, w, l)
    ensures var t := NextHandle(s, w, l); OpenedBy(s, t, Inbox(w, l), u) && TakenBy(s, t, Inbox(w, l), u)
  {
    HandleShape(s, w, l);
    match l
    case Take(_, _, _) =>
    case Commit(ctx, _, _) =>
      if Effective(s, w, l) { CommitCloses(s.db, s.pcs[w].update, s.pcs[w].step.ids, s.pcs[w].step.view, ctx); }
    case Close(_) =>
    case _ => assert NextHandle(s, w, l).db.updates == s.db.updates;
  }

  lemma UpdateStory(s: State, l: Label, u: int)
    requires Can(s, l)
    ensures OpenedBy(s, Next(s, l), l, u) && TakenBy(s, Next(s, l), l, u)
  {
    match l
    case Outbox(w, send) => UpdateSend(s, w, send);
    case Inbox(w, handle) => UpdateHandle(s, w, handle, u);
    case Prices(price) => UpdatePrice(s, price);
    case World(world) => UpdateWorld(s, world, u);
  }

  lemma UpdatePrice(s: State, l: PriceStep)
    requires CanPrice(s, l)
    ensures NextPrice(s, l).db.updates == s.db.updates
  {
  }

  lemma UpdateWorld(s: State, l: WorldStep, u: int)
    requires CanWorld(s, l)
    ensures OpenedBy(s, NextWorld(s, l), World(l), u) && TakenBy(s, NextWorld(s, l), World(l), u)
  {
  }

  lemma UpdateSend(s: State, w: Worker, l: SendStep)
    requires CanSend(s, w, l)
    ensures NextSend(s, w, l).db.updates == s.db.updates
  {
    SendShape(s, w, l);
  }

  datatype UpdateCause =
    | UpdateSame | UpdateTake(at: nat) | UpdateDone(at: nat) | UpdateRetry | UpdateReject | UpdateDrop

  ghost function UpdateCauseHandle(s: State, w: Worker, l: HandleStep, u: int): UpdateCause
    requires CanHandle(s, w, l)
  {
    if l.Take? then (if l.u == u then UpdateTake(l.at) else UpdateSame)
    else if s.pcs[w].update.id != u || !OwnsUpdate(s.db.updates, s.pcs[w].update) then UpdateSame
    else if Effective(s, w, l) then UpdateDone(s.pcs[w].step.view.began)
    else if l.Close? && l.committed then (if s.pcs[w].step.reject then UpdateReject else UpdateRetry)
    else UpdateSame
  }

  /** The transaction, if any, through which a step touches an update. */
  ghost function UpdateCauseOf(s: State, l: Label, u: int): UpdateCause
    requires Can(s, l)
  {
    match l
    case Inbox(w, handle) => UpdateCauseHandle(s, w, handle, u)
    case World(world) => if world.DropUpdate? && world.u == u then UpdateDrop else UpdateSame
    case _ => UpdateSame
  }

  /** What the cause makes of the update; a dropped update was closed. */
  ghost predicate UpdateBecomes(was: Update, updates': map<int, Update>, u: int, cause: UpdateCause, now: nat) {
    match cause
    case UpdateSame => u in updates' && updates'[u] == was
    case UpdateTake(at) =>
      && u in updates' && was.status.Open() && was.nextAttempt <= at <= now
      && (was.status.Waiting? || was.claimedUntil.None? || was.claimedUntil.value < at)
      && updates'[u] == was.(status := Processing, attempts := was.attempts + 1, claimedUntil := Some(at + 45))
    case UpdateDone(at) =>
      && u in updates' && was.status.Processing?
      && updates'[u] == was.(status := Processed, claimedUntil := None, closedAt := at)
    case UpdateRetry =>
      && u in updates' && was.status.Processing?
      && updates'[u] == was.(status := Waiting, claimedUntil := None, nextAttempt := now + RetryDelay(was.attempts))
    case UpdateReject =>
      && u in updates' && was.status.Processing?
      && updates'[u] == was.(status := Rejected, claimedUntil := None, closedAt := now)
    case UpdateDrop => u !in updates' && !was.status.Open()
  }

  ghost predicate UpdateTold(s: State, t: State, u: int, cause: UpdateCause) {
    u in s.db.updates ==> UpdateBecomes(s.db.updates[u], t.db.updates, u, cause, s.db.now)
  }

  lemma UpdateToldHandle(s: State, w: Worker, l: HandleStep, u: int)
    requires CanHandle(s, w, l)
    ensures UpdateTold(s, NextHandle(s, w, l), u, UpdateCauseHandle(s, w, l, u))
  {
    HandleShape(s, w, l);
    match l
    case Take(_, _, _) =>
    case Commit(ctx, _, _) => if Effective(s, w, l) { UpdateToldCommit(s, NextHandle(s, w, l), w, ctx, u); }
    case Close(_) =>
    case _ => assert NextHandle(s, w, l).db.updates == s.db.updates;
  }

  lemma UpdateToldCommit(s: State, t: State, w: Worker, ctx: Context, u: int)
    requires CommittedStep(s, t, w, ctx)
    ensures UpdateTold(s, t, u, if s.pcs[w].update.id == u then UpdateDone(s.pcs[w].step.view.began) else UpdateSame)
  {
    CommitCloses(s.db, s.pcs[w].update, s.pcs[w].step.ids, s.pcs[w].step.view, ctx);
  }

  lemma UpdateToldWorld(s: State, l: WorldStep, u: int)
    requires CanWorld(s, l)
    ensures UpdateTold(s, NextWorld(s, l), u, UpdateCauseOf(s, World(l), u))
  {
  }

  /** An update changes only through its cause. */
  lemma UpdateHistory(s: State, l: Label, u: int)
    requires Can(s, l)
    ensures UpdateTold(s, Next(s, l), u, UpdateCauseOf(s, l, u))
  {
    match l
    case Outbox(w, send) => UpdateSend(s, w, send);
    case Inbox(w, handle) => UpdateToldHandle(s, w, handle, u);
    case Prices(price) => UpdatePrice(s, price);
    case World(world) => UpdateToldWorld(s, world, u);
  }
}
