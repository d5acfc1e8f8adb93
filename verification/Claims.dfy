/** Locks, claims, leases and fences: who may act on an outbox row, in every reachable state. */
module Claims {
  import opened Policy
  import opened Tables
  import opened Machine

  /* ---- Locks ---- */

  /** Each lock belongs to a worker that is inside its locked section for that key; while the chat is not
      tainted, every locked section really has its lock. */
  ghost predicate LockInv(s: State) {
    && (forall k | k in s.locks ::
          s.locks[k] in s.pcs && s.pcs[s.locks[k]].Holding() && s.keyOf(s.pcs[s.locks[k]].Chat()) == k)
    && (forall w | w in s.pcs && s.pcs[w].Holding() && s.pcs[w].Chat() !in s.h.tainted ::
          s.keyOf(s.pcs[w].Chat()) in s.locks && s.locks[s.keyOf(s.pcs[w].Chat())] == w)
    && (forall w | HandlerAt(s, w) && (s.pcs[w].step.Begun? || s.pcs[w].step.Prepared?) :: s.pcs[w].secured)
  }

  /** A chat with a worker inside its locked section does not lose its taint. */
  ghost predicate TaintKept(s: State, t: State) {
    forall v | v in t.pcs && t.pcs[v].Holding() && t.pcs[v].Chat() in s.h.tainted :: t.pcs[v].Chat() in t.h.tainted
  }

  lemma LockSend(s: State, w: Worker, l: SendStep)
    requires LockInv(s) && CanSend(s, w, l)
    ensures LockInv(NextSend(s, w, l))
  {
    match l
    case Claim(r, token, at, heard) => LockEnter(s, ClaimStep(s, w, r, token, at, heard), w);
    case Release => LockLeave(s, w);
    case Finalize(committed, heard) => LockMove(s, FinalizeStep(s, w, committed, heard), w);
    case Conclude(committed) => LockMove(s, ConcludeStep(s, w, committed), w);
    case Lock => LockTaken(s, NextSend(s, w, l), w);
    case _ => LockMoves(s, w, l);
  }

  lemma LockMoves(s: State, w: Worker, l: SendStep)
    requires LockInv(s) && CanSend(s, w, l)
    requires !l.Claim? && !l.Release? && !l.Lock? && !l.Conclude? && !l.Finalize?
    ensures LockInv(NextSend(s, w, l))
  {
    LockMove(s, NextSend(s, w, l), w);
  }

  /** A worker enters without a lock, or does not hear of its claim. */
  lemma LockEnter(s: State, t: State, w: Worker)
    requires LockInv(s) && w !in s.pcs && t.locks == s.locks && t.keyOf == s.keyOf && t.h.tainted == s.h.tainted
    requires forall v | v != w :: (v in t.pcs <==> v in s.pcs) && (v in s.pcs ==> t.pcs[v] == s.pcs[v])
    requires w in t.pcs ==> !t.pcs[w].Holding() && (t.pcs[w].Handler? ==> t.pcs[w].step.Taken?)
    ensures LockInv(t)
  {
  }

  /** A free chat lock is taken by a worker that held none. */
  lemma LockTaken(s: State, t: State, w: Worker)
    requires LockInv(s) && w in s.pcs && w in t.pcs && !s.pcs[w].Holding() && t.pcs[w].Holding()
    requires t.keyOf == s.keyOf && t.h == s.h && t.pcs == s.pcs[w := t.pcs[w]]
    requires s.keyOf(t.pcs[w].Chat()) !in s.locks && t.locks == s.locks[s.keyOf(t.pcs[w].Chat()) := w]
    ensures LockInv(t)
  {
  }

  /** A step that keeps the locks and one worker's locked section keeps the lock invariant. */
  lemma LockMove(s: State, t: State, w: Worker)
    requires LockInv(s) && w in s.pcs && w in t.pcs
    requires t.locks == s.locks && t.keyOf == s.keyOf && t.h.tainted == s.h.tainted && t.pcs == s.pcs[w := t.pcs[w]]
    requires s.pcs[w].Holding() == t.pcs[w].Holding() && (s.pcs[w].Holding() ==> s.pcs[w].Chat() == t.pcs[w].Chat())
    requires t.pcs[w].Handler? && (t.pcs[w].step.Begun? || t.pcs[w].step.Prepared?) ==> t.pcs[w].secured
    ensures LockInv(t)
  {
  }

  lemma LockHandle(s: State, w: Worker, l: HandleStep)
    requires LockInv(s) && CanHandle(s, w, l)
    ensures LockInv(NextHandle(s, w, l))
  {
    match l
    case Take(_, _, _) => LockEnter(s, NextHandle(s, w, l), w);
    case Secure => LockTaken(s, NextHandle(s, w, l), w);
    case Depart => LockLeave(s, w);
    case Commit(_, _, _) => LockMove(s, NextHandle(s, w, l), w);
    case Close(_) => LockMove(s, NextHandle(s, w, l), w);
    case _ => LockMove(s, NextHandle(s, w, l), w);
  }

  lemma LockLeave(s: State, w: Worker)
    requires LockInv(s) && w in s.pcs
    ensures LockInv(Leave(s, w))
  {
  }

  /** Two workers inside locked sections of one chat are the same worker, unless the chat is tainted. */
  lemma OneHolder(s: State, v: Worker, w: Worker)
    requires LockInv(s)
    requires v in s.pcs && w in s.pcs && s.pcs[v].Holding() && s.pcs[w].Holding() && s.pcs[v].Chat() == s.pcs[w].Chat()
    requires s.pcs[v].Chat() !in s.h.tainted
    ensures v == w
  {
  }

  /* ---- Rows ---- */

  ghost function Bound(db: Db, r: RowId): nat { if r.Job? then db.nextJob else db.nextAnswer }

  ghost predicate RowOk(db: Db, r: RowId)
    requires r in db.rows
  {
    var row := db.rows[r];
    && (r.Answer? <==> row.kind.Reply?)
    && r.n < Bound(db, r)
    && (if row.status.Sending? then row.token.Some? && row.claimedUntil.Some? && row.attempts >= 1
        else row.token.None? && row.claimedUntil.None?)
  }

  ghost predicate RowsInv(db: Db) { forall r | r in db.rows :: RowOk(db, r) }

  /** Ids a handler has drawn for its replies are its own until it commits. */
  ghost predicate Drawn(s: State, w: Worker, r: RowId) {
    HandlerAt(s, w) && s.pcs[w].step.Prepared? && r.Answer? && r.n in s.pcs[w].step.ids
  }

  ghost predicate DrawInv(s: State) {
    && (forall w, r | Drawn(s, w, r) :: r.n < s.db.nextAnswer && r !in s.db.rows && r !in s.h.fate)
    && (forall v, w, r | Drawn(s, v, r) && Drawn(s, w, r) :: v == w)
    && (forall v, w | SenderAt(s, v) && Drawn(s, w, s.pcs[v].claim.row) :: false)
  }

  ghost predicate FreshReply(row: Row, c: UpdateClaim) {
    && row.chat == c.chat && row.kind.Reply? && row.kind.source == c.id
    && row.status.Pending? && row.attempts == 0 && row.token.None? && row.claimedUntil.None?
  }

  /** What a committed inbox transaction may do to outbox rows: cancel open notification rows of its
      chat, and add pending replies under its drawn ids. */
  ghost predicate CommitDelta(rows: map<RowId, Row>, rows': map<RowId, Row>, c: UpdateClaim, ids: seq<nat>, at: nat) {
    && (forall r | r in rows :: r in rows' && (rows'[r] == rows[r] || Withdrawn(rows[r], rows'[r], c.chat, at)))
    && (forall r | r in rows' && r !in rows :: r.Answer? && r.n in ids && FreshReply(rows'[r], c))
  }

  ghost predicate Withdrawn(row: Row, row': Row, chat: Chat, at: nat) {
    row.status.Open() && row.chat == chat && !row.kind.Reply? && row' == CancelRow(row, at)
  }

  ghost predicate CancelsOnly(rows: map<RowId, Row>, rows': map<RowId, Row>, chat: Chat, at: nat) {
    && rows'.Keys == rows.Keys
    && forall r | r in rows :: rows'[r] == rows[r] || Withdrawn(rows[r], rows'[r], chat, at)
  }

  lemma MutateRows(db: Db, c: UpdateClaim, view: View, ctx: Context)
    ensures var db' := Mutate(db, c, view, ctx);
      && CancelsOnly(db.rows, db'.rows, c.chat, view.began)
      && SameElsewhere(db, db')
  {
    match c.command
    case CancelAlert(a) => WithdrawRows(db, c.chat, a, view);
    case AddAlert(symbol, pct) => CreateRows(db, c, symbol, pct, view, ctx);
    case cmd => CancelledRows(db.rows, view.began, c.chat, cmd);
  }

  lemma CancelledRows(rows: map<RowId, Row>, at: nat, chat: Chat, cmd: Command)
    ensures CancelsOnly(rows, RowsAfter(rows, at, chat, cmd), chat, at)
  {
    assert RowsAfter(rows, at, chat, cmd).Keys == rows.Keys;
  }

  ghost predicate SameElsewhere(db: Db, db': Db) {
    && db'.nextJob == db.nextJob && db'.nextAnswer == db.nextAnswer && db'.now == db.now
    && db'.updates == db.updates && db'.versions == db.versions && db'.epoch == db.epoch
  }

  lemma WithdrawRows(db: Db, chat: Chat, a: nat, view: View)
    ensures var db' := WithdrawAlert(db, chat, a, view);
      CancelsOnly(db.rows, db'.rows, chat, view.began) && SameElsewhere(db, db')
  {
  }

  lemma CreateRows(db: Db, c: UpdateClaim, symbol: string, pct: int, view: View, ctx: Context)
    ensures var db' := CreateAlert(db, c, symbol, pct, view, ctx); db'.rows == db.rows && SameElsewhere(db, db')
  {
  }

  lemma {:induction false} NewReplyRows(rows: map<RowId, Row>, c: UpdateClaim, ids: seq<nat>, at: nat)
    ensures var added := NewReplies(rows, c, ids, at);
      forall r | r in added :: r.Answer? && r.n in ids && FreshReply(added[r], c)
  {
    if ids != [] {
      NewReplyRows(rows, c, ids[..|ids| - 1], at);
      assert ids[|ids| - 1] in ids;
    }
  }

  lemma CommitRows(db: Db, c: UpdateClaim, ids: seq<nat>, view: View, ctx: Context)
    requires forall r | r in db.rows && r.Answer? :: r.n !in ids
    ensures var db' := CommitUpdate(db, c, ids, view, ctx);
      && CommitDelta(db.rows, db'.rows, c, ids, view.began)
      && db'.nextJob == db.nextJob && db'.nextAnswer == db.nextAnswer && db'.now == db.now
  {
    if OwnsUpdate(db.updates, c) && Admits(db.versions, c, view) {
      var recorded := db.(versions := Record(db.versions, c, view));
      var mutated := Mutate(recorded, c, view, ctx);
      MutateRows(recorded, c, view, ctx);
      NewReplyRows(mutated.rows, c, ids, view.began);
      var added := NewReplies(mutated.rows, c, ids, view.began);
      assert forall r | r in added :: r !in db.rows;
      assert CommitUpdate(db, c, ids, view, ctx).rows == mutated.rows + added;
    }
  }

  lemma RowsSend(s: State, w: Worker, l: SendStep)
    requires RowsInv(s.db) && CanSend(s, w, l)
    ensures RowsInv(NextSend(s, w, l).db)
  {
    SendShape(s, w, l);
    match OutcomeOf(s, w, l)
    case Some(v) => RowsSettle(s.db, s.pcs[w].claim, v);
    case None => if l.Claim? { RowsTake(s.db, l.r, l.token, l.at); }
  }

  lemma RowsSettle(db: Db, c: Claim, v: Verdict)
    requires RowsInv(db)
    ensures RowsInv(Settle(db, c, v))
  {
    forall r | r in Settle(db, c, v).rows ensures RowOk(Settle(db, c, v), r) { assert RowOk(db, r); }
  }

  lemma RowsTake(db: Db, r: RowId, token: Token, at: nat)
    requires RowsInv(db) && r in db.rows
    ensures RowsInv(TakeClaim(db, r, token, at))
  {
    forall q | q in db.rows ensures RowOk(TakeClaim(db, r, token, at), q) { assert RowOk(db, q); }
  }

  /** The handler step that actually changes the outbox: a commit that takes effect. */
  ghost predicate Effective(s: State, w: Worker, l: HandleStep)
    requires CanHandle(s, w, l)
  {
    l.Commit? && OwnsUpdate(s.db.updates, s.pcs[w].update) && l.committed
  }

  /** The reply ids a step has drawn: those from before, or beyond every id drawn so far. */
  ghost predicate DrawnAnew(s: State, t: State, w: Worker) {
    HandlerAt(t, w) && t.pcs[w].step.Prepared? ==>
      forall n | n in t.pcs[w].step.ids :: Drawn(s, w, Answer(n)) || s.db.nextAnswer <= n < t.db.nextAnswer
  }

  /** What a handler step leaves alone, and what its commit does. */
  lemma HandleShape(s: State, w: Worker, l: HandleStep)
    requires CanHandle(s, w, l)
    ensures var t := NextHandle(s, w, l);
      && (forall v | v != w :: (v in t.pcs <==> v in s.pcs) && (v in s.pcs ==> t.pcs[v] == s.pcs[v]))
      && (w in t.pcs ==> t.pcs[w].Handler?) && (w in s.pcs ==> s.pcs[w].Handler?)
      && DrawnAnew(s, t, w)
      && (!Effective(s, w, l) ==> QuietStep(s, t))
      && (Effective(s, w, l) ==> CommittedStep(s, t, w, l.ctx))
  {
    match l
    case Draw(id) => assert forall n | n in s.pcs[w].step.ids :: Drawn(s, w, Answer(n));
    case Take(u, at, heard) =>
    case Commit(ctx, committed, heard) =>
    case _ =>
  }

  ghost predicate QuietStep(s: State, t: State) {
    && t.h.(tainted := s.h.tainted) == s.h && t.db.(updates := s.db.updates, nextAnswer := s.db.nextAnswer) == s.db
    && s.db.nextAnswer <= t.db.nextAnswer
  }

  ghost predicate CommittedStep(s: State, t: State, w: Worker, ctx: Context) {
    && HandlerAt(s, w) && s.pcs[w].step.Prepared? && OwnsUpdate(s.db.updates, s.pcs[w].update)
    && var c := CommitStep(s, s.pcs[w].update, s.pcs[w].step.ids, s.pcs[w].step.view, ctx);
       t.h == c.h && t.db == c.db && HandlerAt(t, w) && !t.pcs[w].step.Prepared?
  }

  lemma HandleTaint(s: State, w: Worker, l: HandleStep)
    requires CanHandle(s, w, l)
    ensures TaintKept(s, NextHandle(s, w, l))
  {
  }

  lemma RowsHandle(s: State, w: Worker, l: HandleStep)
    requires RowsInv(s.db) && DrawInv(s) && CanHandle(s, w, l)
    ensures RowsInv(NextHandle(s, w, l).db)
  {
    HandleShape(s, w, l);
    if Effective(s, w, l) {
      CommitDrawn(s, w, l.ctx);
      RowsCommit(s, NextHandle(s, w, l).db, w, s.pcs[w].step.view.began);
    }
  }

  lemma RowsCommit(s: State, db': Db, w: Worker, at: nat)
    requires RowsInv(s.db) && DrawInv(s) && HandlerAt(s, w) && s.pcs[w].step.Prepared?
    requires CommitDelta(s.db.rows, db'.rows, s.pcs[w].update, s.pcs[w].step.ids, at)
    requires db'.nextJob == s.db.nextJob && db'.nextAnswer == s.db.nextAnswer
    ensures RowsInv(db')
  {
    forall r | r in db'.rows ensures RowOk(db', r) {
      if r !in s.db.rows { assert Drawn(s, w, r); }
    }
  }

  /** Committing under drawn ids only cancels and adds. */
  lemma CommitDrawn(s: State, w: Worker, ctx: Context)
    requires DrawInv(s) && HandlerAt(s, w) && s.pcs[w].step.Prepared?
    ensures var c, ids, view := s.pcs[w].update, s.pcs[w].step.ids, s.pcs[w].step.view;
      var db' := CommitUpdate(s.db, c, ids, view, ctx);
      && CommitDelta(s.db.rows, db'.rows, c, ids, view.began)
      && db'.nextJob == s.db.nextJob && db'.nextAnswer == s.db.nextAnswer && db'.now == s.db.now
  {
    var ids := s.pcs[w].step.ids;
    forall r | r in s.db.rows && r.Answer? ensures r.n !in ids {
      assert !Drawn(s, w, r);
    }
    CommitRows(s.db, s.pcs[w].update, ids, s.pcs[w].step.view, ctx);
  }

  lemma RowsPrice(s: State, l: PriceStep)
    requires RowsInv(s.db) && CanPrice(s, l)
    ensures RowsInv(NextPrice(s, l).db)
  {
  }

  lemma RowsWorld(s: State, l: WorldStep)
    requires RowsInv(s.db) && CanWorld(s, l)
    ensures RowsInv(NextWorld(s, l).db)
  {
  }

  /* ---- Claims ---- */

  /** What a claim in a worker's hands says about its row. Until the worker concludes, the row has
      either kept the claim's attempt number and lease, or was taken over after that lease ran out. */
  ghost predicate ClaimOk(db: Db, pc: Pc)
    requires pc.Sender?
  {
    var c := pc.claim;
    && c.at <= db.now && c.attempts >= 1
    && c.row.n < Bound(db, c.row)
    && (c.row.Answer? <==> c.kind.Reply?)
    && (pc.checkedAt.Some? ==>
          pc.locked && pc.checkedAt.value <= db.now && pc.checkedAt.value + SEND_MARGIN < c.at + LEASE)
    && (pc.phase.Checked? || pc.phase.InFlight? || pc.phase.Confirmed? ==> pc.checkedAt.Some?)
    && (pc.phase.Concluding? ==> !pc.phase.verdict.Delivered?)
    && (c.row in db.rows ==> Faithful(db.rows[c.row], c))
    && (!pc.phase.Done? ==> if c.row in db.rows then Leased(db.rows[c.row], c, db.now) else db.now > c.at + LEASE)
  }

  ghost predicate Faithful(row: Row, c: Claim) {
    row.chat == c.chat && row.kind == c.kind && row.scheduledAt == c.scheduledAt && c.attempts <= row.attempts
  }

  ghost predicate Leased(row: Row, c: Claim, now: nat) {
    if row.attempts == c.attempts
    then if row.status.Sending? then row.token == Some(c.token) && row.claimedUntil == Some(c.at + LEASE)
         else !row.status.Pending? && row.closedAt + DAY >= c.at
    else now > c.at + LEASE
  }

  ghost predicate ClaimInv(s: State) { forall w | SenderAt(s, w) :: ClaimOk(s.db, s.pcs[w]) }

  /** One claim, one worker. */
  ghost predicate UniqueInv(s: State) {
    forall v, w | SenderAt(s, v) && SenderAt(s, w) && s.pcs[v].claim.row == s.pcs[w].claim.row
                  && s.pcs[v].claim.attempts == s.pcs[w].claim.attempts :: v == w
  }

  lemma ClaimTaken(s: State, w: Worker, r: RowId, token: Token, at: nat, heard: bool)
    requires RowsInv(s.db) && ClaimInv(s) && UniqueInv(s)
    requires w !in s.pcs && at <= s.db.now && Claimable(s.db.rows, r, at)
    ensures var t := ClaimStep(s, w, r, token, at, heard); ClaimInv(t) && UniqueInv(t)
  {
    var t := ClaimStep(s, w, r, token, at, heard);
    forall v | SenderAt(t, v) ensures ClaimOk(t.db, t.pcs[v]) {
      if v != w { assert SenderAt(s, v) && ClaimOk(s.db, s.pcs[v]); }
    }
    forall v | SenderAt(s, v) && s.pcs[v].claim.row == r ensures s.pcs[v].claim.attempts <= s.db.rows[r].attempts {
      assert ClaimOk(s.db, s.pcs[v]);
    }
  }

  /** An outcome transaction moves only the owner's own row and claim. */
  lemma ClaimSettled(s: State, t: State, w: Worker, v: Verdict)
    requires ClaimInv(s) && UniqueInv(s) && SenderAt(s, w) && SenderAt(t, w) && Owns(s.db.rows, s.pcs[w].claim)
    requires t.pcs == s.pcs[w := s.pcs[w].(phase := t.pcs[w].phase, since := t.pcs[w].since)]
    requires t.pcs[w].phase.Done? || (v.Delivered? && t.pcs[w].phase.Confirmed? && s.pcs[w].phase.Confirmed?)
    requires t.db.now == s.db.now && t.db.nextJob == s.db.nextJob && t.db.nextAnswer == s.db.nextAnswer
    requires t.db.rows == s.db.rows[s.pcs[w].claim.row := Settled(s.db.rows[s.pcs[w].claim.row], v, s.db.now)]
    ensures ClaimInv(t) && UniqueInv(t)
  {
  }

  /** A program step of one sender that leaves the tables alone. */
  lemma ClaimMoved(s: State, t: State, w: Worker)
    requires ClaimInv(s) && UniqueInv(s) && SenderAt(s, w) && SenderAt(t, w)
    requires t.db == s.db && t.pcs == s.pcs[w := t.pcs[w]] && t.pcs[w].claim == s.pcs[w].claim
    requires ClaimOk(t.db, t.pcs[w])
    ensures ClaimInv(t) && UniqueInv(t)
  {
  }

  lemma ClaimSend(s: State, w: Worker, l: SendStep)
    requires RowsInv(s.db) && ClaimInv(s) && UniqueInv(s) && CanSend(s, w, l)
    ensures var t := NextSend(s, w, l); ClaimInv(t) && UniqueInv(t)
  {
    match l
    case Claim(r, token, at, heard) => ClaimTaken(s, w, r, token, at, heard);
    case Release => ClaimFrame(s, NextSend(s, w, l));
    case Conclude(committed) => ClaimConcluded(s, w, committed);
    case Finalize(committed, heard) => ClaimFinalized(s, w, committed, heard);
    case _ => ClaimMoves(s, w, l);
  }

  lemma ClaimConcluded(s: State, w: Worker, committed: bool)
    requires ClaimInv(s) && UniqueInv(s) && SenderAt(s, w) && s.pcs[w].phase.Concluding?
    ensures var t := ConcludeStep(s, w, committed); ClaimInv(t) && UniqueInv(t)
  {
    assert ClaimOk(s.db, s.pcs[w]);
    var t := ConcludeStep(s, w, committed);
    if committed && Owns(s.db.rows, s.pcs[w].claim) {
      ClaimSettled(s, t, w, s.pcs[w].phase.verdict);
    } else {
      ClaimMoved(s, t, w);
    }
  }

  lemma ClaimFinalized(s: State, w: Worker, committed: bool, heard: bool)
    requires ClaimInv(s) && UniqueInv(s) && SenderAt(s, w) && s.pcs[w].phase.Confirmed?
    ensures var t := FinalizeStep(s, w, committed, heard); ClaimInv(t) && UniqueInv(t)
  {
    assert ClaimOk(s.db, s.pcs[w]);
    var t := FinalizeStep(s, w, committed, heard);
    if committed && Owns(s.db.rows, s.pcs[w].claim) { ClaimSettled(s, t, w, Delivered); } else { ClaimMoved(s, t, w); }
  }

  lemma ClaimMoves(s: State, w: Worker, l: SendStep)
    requires ClaimInv(s) && UniqueInv(s) && CanSend(s, w, l) && !l.Claim? && !l.Release? && !l.Conclude? && !l.Finalize?
    ensures var t := NextSend(s, w, l); ClaimInv(t) && UniqueInv(t)
  {
    assert ClaimOk(s.db, s.pcs[w]);
    ClaimMoved(s, NextSend(s, w, l), w);
  }

  /** Anything that happens to a row other than through its owner: nothing, a cancellation by a recent
      transaction, or its deletion long after it was closed. */
  ghost predicate Untouched(db: Db, db': Db, r: RowId) {
    if r in db'.rows then
      && r in db.rows
      && (db'.rows[r] == db.rows[r] || (db.rows[r].status.Open() && CanceledLately(db.rows[r], db'.rows[r], db.now)))
    else
      r in db.rows ==> !db.rows[r].status.Open() && db.rows[r].closedAt + 2 * DAY < db.now
  }

  ghost predicate CanceledLately(row: Row, row': Row, now: nat) {
    row' == CancelRow(row, row'.closedAt) && now <= row'.closedAt + DAY
  }

  lemma ClaimFrame(s: State, t: State)
    requires ClaimInv(s) && UniqueInv(s)
    requires s.db.now <= t.db.now && s.db.nextJob <= t.db.nextJob && s.db.nextAnswer <= t.db.nextAnswer
    requires forall w | SenderAt(t, w) ::
      SenderAt(s, w) && t.pcs[w] == s.pcs[w] && Untouched(s.db, t.db, s.pcs[w].claim.row)
    ensures ClaimInv(t) && UniqueInv(t)
  {
  }

  lemma ClaimHandle(s: State, w: Worker, l: HandleStep)
    requires DrawInv(s) && ClaimInv(s) && UniqueInv(s) && CanHandle(s, w, l)
    ensures var t := NextHandle(s, w, l); ClaimInv(t) && UniqueInv(t)
  {
    HandleShape(s, w, l);
    if Effective(s, w, l) {
      CommitDrawn(s, w, l.ctx);
      ClaimCommit(s, NextHandle(s, w, l), w, s.pcs[w].step.view.began);
    }
    else { ClaimQuiet(s, NextHandle(s, w, l), w); }
  }

  lemma ClaimQuiet(s: State, t: State, w: Worker)
    requires ClaimInv(s) && UniqueInv(s)
    requires t.db.rows == s.db.rows && t.db.now == s.db.now && t.db.nextJob == s.db.nextJob
    requires s.db.nextAnswer <= t.db.nextAnswer
    requires forall v | v != w :: (v in t.pcs <==> v in s.pcs) && (v in s.pcs ==> t.pcs[v] == s.pcs[v])
    requires w in t.pcs ==> t.pcs[w].Handler?
    ensures ClaimInv(t) && UniqueInv(t)
  {
  }

  lemma ClaimCommit(s: State, t: State, w: Worker, at: nat)
    requires DrawInv(s) && ClaimInv(s) && UniqueInv(s) && HandlerAt(s, w) && s.pcs[w].step.Prepared?
    requires forall v | v != w :: (v in t.pcs <==> v in s.pcs) && (v in s.pcs ==> t.pcs[v] == s.pcs[v])
    requires w in t.pcs ==> t.pcs[w].Handler?
    requires t.db.now == s.db.now && t.db.nextJob == s.db.nextJob && s.db.nextAnswer == t.db.nextAnswer
    requires CommitDelta(s.db.rows, t.db.rows, s.pcs[w].update, s.pcs[w].step.ids, at) && s.db.now <= at + DAY
    ensures ClaimInv(t) && UniqueInv(t)
  {
    forall v | SenderAt(t, v) ensures SenderAt(s, v) && Untouched(s.db, t.db, s.pcs[v].claim.row) {
      assert SenderAt(s, v) && ClaimOk(s.db, s.pcs[v]);
      if s.pcs[v].claim.row !in s.db.rows && s.pcs[v].claim.row in t.db.rows { assert Drawn(s, w, s.pcs[v].claim.row); }
    }
    ClaimFrame(s, t);
  }

  lemma ClaimPrice(s: State, l: PriceStep)
    requires ClaimInv(s) && UniqueInv(s) && CanPrice(s, l)
    ensures var t := NextPrice(s, l); ClaimInv(t) && UniqueInv(t)
  {
  }

  lemma ClaimWorld(s: State, l: WorldStep)
    requires ClaimInv(s) && UniqueInv(s) && CanWorld(s, l)
    ensures var t := NextWorld(s, l); ClaimInv(t) && UniqueInv(t)
  {
  }

  /* ---- Final statuses ---- */

  /** Closed rows have a recorded final status, and a recorded row is never open again. */
  ghost predicate FateInv(db: Db, fate: map<RowId, Status>) {
    && (forall r | r in db.rows && !db.rows[r].status.Open() :: r in fate && fate[r] == db.rows[r].status)
    && (forall r | r in fate :: !fate[r].Open() && r.n < Bound(db, r) && (r in db.rows ==> !db.rows[r].status.Open()))
  }

  lemma FateSettled(s: State, c: Claim, v: Verdict, overrun: bool)
    requires FateInv(s.db, s.h.fate) && RowsInv(s.db)
    ensures var t := SettleStep(s, c, v, overrun); FateInv(t.db, t.h.fate)
  {
    if Owns(s.db.rows, c) {
      SettlingFate(s.h, c, v, overrun);
      var row := Settled(s.db.rows[c.row], v, s.db.now);
      assert row.status == FateOf(v);
      FateOne(s.db, Settle(s.db, c, v), s.h.fate, c.row, row);
    }
  }

  /** The final status of one open row is recorded as soon as it has one. */
  lemma FateOne(db: Db, db': Db, fate: map<RowId, Status>, r: RowId, row: Row)
    requires FateInv(db, fate) && r in db.rows && db.rows[r].status.Open() && RowOk(db, r)
    requires db'.rows == db.rows[r := row] && db'.nextJob == db.nextJob && db'.nextAnswer == db.nextAnswer
    ensures FateInv(db', if row.status.Open() then fate else fate[r := row.status])
  {
  }

  lemma FateTaken(s: State, w: Worker, r: RowId, token: Token, at: nat, heard: bool)
    requires FateInv(s.db, s.h.fate) && r in s.db.rows && s.db.rows[r].status.Open()
    ensures var t := ClaimStep(s, w, r, token, at, heard); FateInv(t.db, t.h.fate)
  {
  }

  lemma FateSend(s: State, w: Worker, l: SendStep)
    requires FateInv(s.db, s.h.fate) && RowsInv(s.db) && CanSend(s, w, l)
    ensures var t := NextSend(s, w, l); FateInv(t.db, t.h.fate)
  {
    match l
    case Claim(r, token, at, heard) => FateTaken(s, w, r, token, at, heard);
    case Conclude(committed) =>
      FateSettled(s, s.pcs[w].claim, s.pcs[w].phase.verdict, s.pcs[w].claim.attempts >= MAX_ATTEMPTS);
    case Finalize(committed, heard) => FateSettled(s, s.pcs[w].claim, Delivered, false);
    case _ => assert NextSend(s, w, l).db == s.db && NextSend(s, w, l).h.fate == s.h.fate;
  }

  lemma FateCommit(db: Db, db': Db, fate: map<RowId, Status>, c: UpdateClaim, ids: seq<nat>, at: nat)
    requires FateInv(db, fate) && CommitDelta(db.rows, db'.rows, c, ids, at)
    requires db'.nextJob == db.nextJob && db'.nextAnswer == db.nextAnswer
    requires forall r | r in db.rows :: r.n < Bound(db, r)
    requires forall r | r in db'.rows && r !in db.rows :: r !in fate
    ensures FateInv(db', FateAfter(fate, db.rows, db'.rows))
  {
  }

  lemma FateHandle(s: State, w: Worker, l: HandleStep)
    requires FateInv(s.db, s.h.fate) && RowsInv(s.db) && DrawInv(s) && CanHandle(s, w, l)
    ensures var t := NextHandle(s, w, l); FateInv(t.db, t.h.fate)
  {
    HandleShape(s, w, l);
    if Effective(s, w, l) {
      var db' := NextHandle(s, w, l).db;
      CommitDrawn(s, w, l.ctx);
      forall r | r in db'.rows && r !in s.db.rows ensures r !in s.h.fate { assert Drawn(s, w, r); }
      FateCommit(s.db, db', s.h.fate, s.pcs[w].update, s.pcs[w].step.ids, s.pcs[w].step.view.began);
    }
  }

  lemma FatePrice(s: State, l: PriceStep)
    requires FateInv(s.db, s.h.fate) && CanPrice(s, l)
    ensures var t := NextPrice(s, l); FateInv(t.db, t.h.fate)
  {
  }

  lemma FateWorld(s: State, l: WorldStep)
    requires FateInv(s.db, s.h.fate) && CanWorld(s, l)
    ensures var t := NextWorld(s, l); FateInv(t.db, t.h.fate)
  {
  }

  /* ---- Drawn reply ids ---- */

  lemma DrawSend(s: State, w: Worker, l: SendStep)
    requires RowsInv(s.db) && DrawInv(s) && FateInv(s.db, s.h.fate) && CanSend(s, w, l)
    ensures DrawInv(NextSend(s, w, l))
  {
    var t := NextSend(s, w, l);
    SendTables(s, w, l);
    SendPrograms(s, w, l);
    forall v, r | Drawn(t, v, r) ensures Drawn(s, v, r) {}
  }

  /** What a sender step leaves alone in the tables. */
  lemma SendTables(s: State, w: Worker, l: SendStep)
    requires CanSend(s, w, l)
    ensures var t := NextSend(s, w, l);
      && t.db.rows.Keys == s.db.rows.Keys && t.h.fate.Keys <= s.h.fate.Keys + s.db.rows.Keys
      && t.db.nextAnswer == s.db.nextAnswer
  {
    SendShape(s, w, l);
    if OutcomeOf(s, w, l).Some? { SettlingFate(s.h, s.pcs[w].claim, OutcomeOf(s, w, l).value, true); }
    if OutcomeOf(s, w, l).Some? { SettlingFate(s.h, s.pcs[w].claim, OutcomeOf(s, w, l).value, false); }
  }

  lemma SettlingFate(h: History, c: Claim, v: Verdict, overrun: bool)
    ensures Settling(h, c, v, overrun).fate == if v.Retry? then h.fate else h.fate[c.row := FateOf(v)]
  {
  }

  ghost function FateOf(v: Verdict): Status {
    match v
    case Delivered => Sent
    case Retry(_) => Pending
    case Fail(_) => Failed
    case Cancel => Status.Canceled
  }

  /** What a sender step leaves alone in the other workers' programs. */
  lemma SendPrograms(s: State, w: Worker, l: SendStep)
    requires CanSend(s, w, l)
    ensures var t := NextSend(s, w, l);
      && (forall v | v != w :: (v in t.pcs <==> v in s.pcs) && (v in s.pcs ==> t.pcs[v] == s.pcs[v]))
      && (w in t.pcs ==> t.pcs[w].Sender?)
      && (w in t.pcs && w in s.pcs ==> s.pcs[w].Sender? && t.pcs[w].claim == s.pcs[w].claim)
      && (w in t.pcs && w !in s.pcs ==> l.Claim? && t.pcs[w].claim.row in s.db.rows)
  {
  }

  /** The outcome a sender step records, if it is an outcome transaction that takes effect. */
  ghost function OutcomeOf(s: State, w: Worker, l: SendStep): Option<Verdict>
    requires CanSend(s, w, l)
  {
    if l.Finalize? && l.committed && Owns(s.db.rows, s.pcs[w].claim) then Some(Delivered)
    else if l.Conclude? && l.committed && Owns(s.db.rows, s.pcs[w].claim) then Some(s.pcs[w].phase.verdict)
    else None
  }

  /** What a sender step does to the tables and the history. */
  lemma SendShape(s: State, w: Worker, l: SendStep)
    requires CanSend(s, w, l)
    ensures var t := NextSend(s, w, l);
      match OutcomeOf(s, w, l)
      case Some(v) =>
        && t.db == Settle(s.db, s.pcs[w].claim, v)
        && t.h == Settling(s.h, s.pcs[w].claim, v, l.Conclude? && s.pcs[w].claim.attempts >= MAX_ATTEMPTS)
      case None =>
        && t.h.(tally := s.h.tally, tainted := s.h.tainted) == s.h
        && t.db == if l.Claim? then TakeClaim(s.db, l.r, l.token, l.at) else s.db
  {
    match l
    case Claim(_, _, _, _) =>
    case Conclude(_) =>
    case Finalize(_, _) =>
    case _ =>
  }

  lemma SendTaint(s: State, w: Worker, l: SendStep)
    requires CanSend(s, w, l)
    ensures TaintKept(s, NextSend(s, w, l))
  {
    match l
    case Claim(_, _, _, _) =>
    case Conclude(_) =>
    case Finalize(_, _) =>
    case Release =>
    case _ =>
  }

  lemma DrawHandle(s: State, w: Worker, l: HandleStep)
    requires RowsInv(s.db) && DrawInv(s) && ClaimInv(s) && FateInv(s.db, s.h.fate) && CanHandle(s, w, l)
    ensures DrawInv(NextHandle(s, w, l))
  {
    HandleShape(s, w, l);
    if Effective(s, w, l) {
      CommitDrawn(s, w, l.ctx);
      DrawCommit(s, NextHandle(s, w, l), w, s.pcs[w].step.view.began);
    } else {
      DrawQuiet(s, NextHandle(s, w, l), w);
    }
  }

  lemma DrawQuiet(s: State, t: State, w: Worker)
    requires RowsInv(s.db) && DrawInv(s) && ClaimInv(s) && FateInv(s.db, s.h.fate)
    requires t.h.fate == s.h.fate && t.db.rows == s.db.rows && s.db.nextAnswer <= t.db.nextAnswer
    requires forall v | v != w :: (v in t.pcs <==> v in s.pcs) && (v in s.pcs ==> t.pcs[v] == s.pcs[v])
    requires w in t.pcs ==> t.pcs[w].Handler?
    requires DrawnAnew(s, t, w)
    ensures DrawInv(t)
  {
    forall v, r | Drawn(t, v, r) ensures Drawn(s, v, r) || (v == w && s.db.nextAnswer <= r.n < t.db.nextAnswer) {
      if v == w { assert r == Answer(r.n); }
    }
    assert forall v | SenderAt(t, v) :: SenderAt(s, v) && ClaimOk(s.db, s.pcs[v]);
  }

  lemma DrawCommit(s: State, t: State, w: Worker, at: nat)
    requires DrawInv(s) && HandlerAt(s, w) && s.pcs[w].step.Prepared?
    requires forall v | v != w :: (v in t.pcs <==> v in s.pcs) && (v in s.pcs ==> t.pcs[v] == s.pcs[v])
    requires w in t.pcs ==> t.pcs[w].Handler? && !t.pcs[w].step.Prepared?
    requires t.db.nextAnswer == s.db.nextAnswer && t.h.fate == FateAfter(s.h.fate, s.db.rows, t.db.rows)
    requires CommitDelta(s.db.rows, t.db.rows, s.pcs[w].update, s.pcs[w].step.ids, at)
    ensures DrawInv(t)
  {
    assert forall r | r in t.db.rows && r !in s.db.rows :: Drawn(s, w, r);
    assert forall v, r | Drawn(t, v, r) :: v != w && Drawn(s, v, r);
  }

  lemma DrawPrice(s: State, l: PriceStep)
    requires DrawInv(s) && CanPrice(s, l)
    ensures DrawInv(NextPrice(s, l))
  {
    var t := NextPrice(s, l);
    assert forall v, r | Drawn(t, v, r) :: Drawn(s, v, r);
  }

  lemma DrawWorld(s: State, l: WorldStep)
    requires DrawInv(s) && CanWorld(s, l)
    ensures DrawInv(NextWorld(s, l))
  {
    var t := NextWorld(s, l);
    assert forall v, r | Drawn(t, v, r) :: Drawn(s, v, r);
  }

  /* ---- Guarded sends ---- */

  /** Past the claim check and still under its lock, a worker owns its row until it concludes; a
      finalizing worker that lost it has itself already made it sent. */
  ghost predicate Guarded(s: State, pc: Pc)
    requires pc.Sender?
  {
    pc.checkedAt.Some? && pc.claim.chat !in s.h.tainted ==>
      && (pc.claim.row in s.db.rows ==> s.db.rows[pc.claim.row].attempts == pc.claim.attempts)
      && match pc.phase {
           case Done => true
           case Confirmed(_) =>
             Owns(s.db.rows, pc.claim) || (pc.claim.row in s.h.fate && s.h.fate[pc.claim.row] == Sent)
           case _ => Owns(s.db.rows, pc.claim)
         }
  }

  ghost predicate GuardInv(s: State) { forall w | SenderAt(s, w) :: Guarded(s, s.pcs[w]) }

  /** A worker past its claim check, in a chat that is not tainted, until it lets go. */
  ghost predicate Exclusive(s: State, v: Worker) {
    SenderAt(s, v) && s.pcs[v].checkedAt.Some? && s.pcs[v].claim.chat !in s.h.tainted
  }

  /** The row is exactly as before, or it was already closed and retention removed it. */
  ghost predicate Kept(rows: map<RowId, Row>, rows': map<RowId, Row>, r: RowId) {
    if r in rows then (if r in rows' then rows'[r] == rows[r] else !rows[r].status.Open()) else r !in rows'
  }

  /** No step of anyone else takes a guarded row away: it would need the chat lock or the same claim. */
  lemma GuardFrame(s: State, t: State, v: Worker)
    requires SenderAt(s, v) && SenderAt(t, v) && t.pcs[v] == s.pcs[v] && Guarded(s, s.pcs[v])
    requires TaintKept(s, t) && FateInv(s.db, s.h.fate) && ClaimOk(s.db, s.pcs[v])
    requires var r := s.pcs[v].claim.row;
      && (Exclusive(s, v) && s.pcs[v].claim.chat !in t.h.tainted ==> Kept(s.db.rows, t.db.rows, r))
      && (r in s.h.fate ==> r in t.h.fate && t.h.fate[r] == s.h.fate[r])
    ensures Guarded(t, t.pcs[v])
  {
  }

  ghost predicate BaseInv(s: State) {
    LockInv(s) && RowsInv(s.db) && ClaimInv(s) && UniqueInv(s) && FateInv(s.db, s.h.fate) && DrawInv(s) && GuardInv(s)
  }

  /** While a worker is exclusive its chat is locked, so nobody can claim its row. */
  lemma NoRivalClaim(s: State, v: Worker)
    requires LockInv(s) && ClaimInv(s) && Exclusive(s, v)
    ensures !ChatFree(s, s.pcs[v].claim.chat)
    ensures s.pcs[v].claim.row in s.db.rows ==> s.db.rows[s.pcs[v].claim.row].chat == s.pcs[v].claim.chat
  {
  }

  lemma GuardSend(s: State, w: Worker, l: SendStep)
    requires BaseInv(s) && CanSend(s, w, l)
    ensures GuardInv(NextSend(s, w, l))
  {
    var t := NextSend(s, w, l);
    SendPrograms(s, w, l);
    forall v | SenderAt(t, v) ensures Guarded(t, t.pcs[v]) {
      if v == w { GuardOwn(s, w, l); }
      else { SendTaint(s, w, l); SparesRivals(s, w, l, v); GuardFrame(s, t, v); }
    }
  }

  lemma GuardOwn(s: State, w: Worker, l: SendStep)
    requires BaseInv(s) && CanSend(s, w, l) && SenderAt(NextSend(s, w, l), w)
    ensures var t := NextSend(s, w, l); Guarded(t, t.pcs[w])
  {
    if !l.Claim? { assert Guarded(s, s.pcs[w]) && ClaimOk(s.db, s.pcs[w]); }
    match l
    case Claim(_, _, _, _) =>
    case Conclude(committed) => GuardConcluded(s, w, committed);
    case Finalize(committed, heard) => GuardFinalized(s, w, committed, heard);
    case _ =>
  }

  lemma GuardConcluded(s: State, w: Worker, committed: bool)
    requires SenderAt(s, w) && s.pcs[w].phase.Concluding? && Guarded(s, s.pcs[w])
    ensures var t := ConcludeStep(s, w, committed); Guarded(t, t.pcs[w])
  {
  }

  lemma GuardFinalized(s: State, w: Worker, committed: bool, heard: bool)
    requires SenderAt(s, w) && s.pcs[w].phase.Confirmed? && Guarded(s, s.pcs[w])
    ensures var t := FinalizeStep(s, w, committed, heard); Guarded(t, t.pcs[w])
  {
  }

  /** A sender step of one worker leaves every other exclusive worker's row and recorded fate alone. */
  lemma SparesRivals(s: State, w: Worker, l: SendStep, v: Worker)
    requires BaseInv(s) && CanSend(s, w, l) && SenderAt(s, v) && v != w
    ensures var t, r := NextSend(s, w, l), s.pcs[v].claim.row;
      && (r in s.h.fate ==> r in t.h.fate && t.h.fate[r] == s.h.fate[r])
      && (Exclusive(s, v) ==> Kept(s.db.rows, t.db.rows, r))
  {
    var r := s.pcs[v].claim.row;
    match l
    case Claim(q, token, at, heard) => if Exclusive(s, v) { NoRivalClaim(s, v); }
    case Conclude(_) => SettleSpares(s, w, v, s.pcs[w].phase.verdict, s.pcs[w].claim.attempts >= MAX_ATTEMPTS);
    case Finalize(_, _) => SettleSpares(s, w, v, Delivered, false);
    case _ => assert NextSend(s, w, l).db == s.db;
  }

  lemma SettleSpares(s: State, w: Worker, v: Worker, verdict: Verdict, overrun: bool)
    requires BaseInv(s) && SenderAt(s, w) && SenderAt(s, v) && v != w
    ensures var t, r := SettleStep(s, s.pcs[w].claim, verdict, overrun), s.pcs[v].claim.row;
      && (r in s.h.fate ==> r in t.h.fate && t.h.fate[r] == s.h.fate[r])
      && (Exclusive(s, v) ==> Kept(s.db.rows, t.db.rows, r))
  {
    assert Guarded(s, s.pcs[v]);
    if s.pcs[w].claim.row == s.pcs[v].claim.row { assert s.pcs[v].claim.attempts != s.pcs[w].claim.attempts; }
  }

  lemma GuardHandle(s: State, w: Worker, l: HandleStep)
    requires BaseInv(s) && CanHandle(s, w, l)
    ensures GuardInv(NextHandle(s, w, l))
  {
    var t := NextHandle(s, w, l);
    forall v | SenderAt(t, v) ensures Guarded(t, t.pcs[v]) {
      HandleShape(s, w, l);
      HandleTaint(s, w, l);
      assert SenderAt(s, v) && t.pcs[v] == s.pcs[v] && Guarded(s, s.pcs[v]);
      SparedByCommit(s, w, l, v);
      GuardFrame(s, t, v);
    }
  }

  lemma SparedByCommit(s: State, w: Worker, l: HandleStep, v: Worker)
    requires BaseInv(s) && CanHandle(s, w, l) && SenderAt(s, v)
    ensures var t, r := NextHandle(s, w, l), s.pcs[v].claim.row;
      && (r in s.h.fate ==> r in t.h.fate && t.h.fate[r] == s.h.fate[r])
      && (Exclusive(s, v) ==> Kept(s.db.rows, t.db.rows, r))
  {
    HandleShape(s, w, l);
    if Effective(s, w, l) {
      CommitDrawn(s, w, l.ctx);
      CommitSpares(s, NextHandle(s, w, l), w, v, s.pcs[w].step.view.began);
    }
  }

  lemma CommitSpares(s: State, t: State, w: Worker, v: Worker, at: nat)
    requires LockInv(s) && DrawInv(s) && ClaimInv(s) && FateInv(s.db, s.h.fate)
    requires SenderAt(s, v) && HandlerAt(s, w) && s.pcs[w].step.Prepared?
    requires CommitDelta(s.db.rows, t.db.rows, s.pcs[w].update, s.pcs[w].step.ids, at)
    requires t.h.fate == FateAfter(s.h.fate, s.db.rows, t.db.rows)
    ensures var r := s.pcs[v].claim.row;
      && (r in s.h.fate ==> r in t.h.fate && t.h.fate[r] == s.h.fate[r])
      && (Exclusive(s, v) ==> Kept(s.db.rows, t.db.rows, r))
  {
    var r := s.pcs[v].claim.row;
    assert ClaimOk(s.db, s.pcs[v]);
    if r !in s.db.rows && r in t.db.rows { assert Drawn(s, w, r); }
    if r in s.db.rows && Exclusive(s, v) && s.db.rows[r].chat == s.pcs[w].update.chat { OneHolder(s, v, w); }
  }

  lemma GuardPrice(s: State, l: PriceStep)
    requires BaseInv(s) && CanPrice(s, l)
    ensures GuardInv(NextPrice(s, l))
  {
    var t := NextPrice(s, l);
    forall v | SenderAt(t, v) ensures Guarded(t, t.pcs[v]) {
      assert SenderAt(s, v) && Guarded(s, s.pcs[v]) && ClaimOk(s.db, s.pcs[v]);
    }
  }

  lemma GuardWorld(s: State, l: WorldStep)
    requires BaseInv(s) && CanWorld(s, l)
    ensures GuardInv(NextWorld(s, l))
  {
    var t := NextWorld(s, l);
    forall v | SenderAt(t, v) ensures Guarded(t, t.pcs[v]) {
      assert SenderAt(s, v) && Guarded(s, s.pcs[v]) && ClaimOk(s.db, s.pcs[v]);
    }
  }

  lemma LockPrice(s: State, l: PriceStep)
    requires LockInv(s) && CanPrice(s, l)
    ensures LockInv(NextPrice(s, l))
  {
  }

  lemma LockWorld(s: State, l: WorldStep)
    requires LockInv(s) && CanWorld(s, l)
    ensures LockInv(NextWorld(s, l))
  {
    if l.Crash? { LockLeave(s, l.w); }
  }

  /** Every step keeps all of it. */
  lemma BaseStep(s: State, l: Label)
    requires BaseInv(s) && Can(s, l)
    ensures BaseInv(Next(s, l))
  {
    match l
    case Outbox(w, send) =>
      LockSend(s, w, send);
      RowsSend(s, w, send);
      ClaimSend(s, w, send);
      FateSend(s, w, send);
      DrawSend(s, w, send);
      GuardSend(s, w, send);
    case Inbox(w, handle) =>
      LockHandle(s, w, handle); RowsHandle(s, w, handle); ClaimHandle(s, w, handle); FateHandle(s, w, handle);
      DrawHandle(s, w, handle); GuardHandle(s, w, handle);
    case Prices(price) =>
      LockPrice(s, price);
      RowsPrice(s, price);
      ClaimPrice(s, price);
      FatePrice(s, price);
      DrawPrice(s, price);
      GuardPrice(s, price);
    case World(world) =>
      LockWorld(s, world);
      RowsWorld(s, world);
      ClaimWorld(s, world);
      FateWorld(s, world);
      DrawWorld(s, world);
      GuardWorld(s, world);
  }
}
