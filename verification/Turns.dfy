/** When the turn of a row or an update comes: the exact times from which it can be claimed, over whole runs. */
module Turns {
  import opened Policy
  import opened Tables
  import opened Machine
  import opened Claims
  import opened Views
  import opened Safety
  import opened Stories
  import opened Sends

  /* ---- Outbox rows ---- */

  ghost predicate Over(status: Status) { status.Sent? || status.Failed? || status == Status.Canceled }

  /** Everything a claim needs besides the row's own times: an idle worker, a new token, a free chat and, for a
      reply, no open reply of the chat with a smaller id. */
  ghost predicate MayClaim(s: State, w: Worker, r: RowId, token: Token) {
    && r in s.db.rows && w !in s.pcs && ChatFree(s, s.db.rows[r].chat) && FreshToken(s, token)
    && (r.Answer? ==> forall n: nat | n < r.n && Answer(n) in s.db.rows
                        && s.db.rows[Answer(n)].chat == s.db.rows[r].chat :: Over(s.db.rows[Answer(n)].status))
  }

  /** Then a pending row can be claimed from its next attempt on, a claimed one after its lease besides, and no
      other. */
  lemma ClaimExactly(s: State, w: Worker, r: RowId, token: Token, at: nat, heard: bool)
    requires MayClaim(s, w, r, token) && at <= s.db.now
    ensures var row := s.db.rows[r];
      Can(s, Outbox(w, SendStep.Claim(r, token, at, heard))) <==>
        && row.nextAttempt <= at
        && (row.status == Pending
            || (row.status == Sending && (row.claimedUntil == None || row.claimedUntil.value < at)))
  {
    assert Blocked(s.db.rows, r) ==> r.Answer? && exists n: nat :: n < r.n && Answer(n) in s.db.rows;
  }

  /** No step from i to before j touches the row. */
  ghost predicate RowRests(states: seq<State>, labels: seq<Label>, i: nat, j: nat, r: RowId)
    requires Run(states, labels) && j < |states|
  {
    forall k | i <= k < j :: RowCauseOf(states[k], labels[k], r) == RowSame
  }

  ghost predicate SameRow(s: State, t: State, r: RowId) {
    r in s.db.rows ==> r in t.db.rows && t.db.rows[r] == s.db.rows[r]
  }

  lemma {:induction false} ChainRow(states: seq<State>, i: nat, j: nat, r: RowId)
    requires i <= j < |states| && r in states[i].db.rows
    requires forall k | i <= k < j :: SameRow(states[k], states[k + 1], r)
    ensures r in states[j].db.rows && states[j].db.rows[r] == states[i].db.rows[r]
  {
    if i < j { ChainRow(states, i, j - 1, r); assert SameRow(states[j - 1], states[j - 1 + 1], r); }
  }

  lemma RowKept(states: seq<State>, labels: seq<Label>, i: nat, j: nat, r: RowId)
    requires Run(states, labels) && i <= j < |states| && r in states[i].db.rows && RowRests(states, labels, i, j, r)
    ensures r in states[j].db.rows && states[j].db.rows[r] == states[i].db.rows[r]
  {
    forall k | i <= k < j ensures SameRow(states[k], states[k + 1], r) {
      assert RowCauseOf(states[k], labels[k], r) == RowSame;
      RunBase(states, labels, k);
      RowStory(states[k], labels[k], r);
    }
    ChainRow(states, i, j, r);
  }

  lemma RowChanged(states: seq<State>, labels: seq<Label>, i: nat, r: RowId)
    requires Run(states, labels) && i < |labels|
    ensures RowTold(states[i], states[i + 1], r, RowCauseOf(states[i], labels[i], r))
  {
    RunBase(states, labels, i);
    RowStory(states[i], labels[i], r);
  }

  lemma GivenBack(s: State, t: State, r: RowId, delay: nat)
    requires RowTold(s, t, r, RowOutcome(Retry(delay)))
    ensures r in s.db.rows ==>
      r in t.db.rows && t.db.rows[r].status == Pending && t.db.rows[r].nextAttempt == s.db.now + delay
  {
  }

  /** A row given back with a delay can be claimed exactly from then on: not a second earlier, and at any later
      moment at which nothing but its own times could stand in the way. */
  lemma RetryExactly(states: seq<State>, labels: seq<Label>, i: nat, j: nat, r: RowId, delay: nat, w: Worker,
      token: Token, at: nat, heard: bool)
    requires Run(states, labels) && i < j < |states| && RowCauseOf(states[i], labels[i], r) == RowOutcome(Retry(delay))
    requires RowRests(states, labels, i + 1, j, r) && MayClaim(states[j], w, r, token) && at <= states[j].db.now
    ensures Can(states[j], Outbox(w, SendStep.Claim(r, token, at, heard))) <==> at >= states[i].db.now + delay
  {
    RowChanged(states, labels, i, r);
    GivenBack(states[i], states[i + 1], r, delay);
    RowKept(states, labels, i + 1, j, r);
    ClaimExactly(states[j], w, r, token, at, heard);
  }

  /** A claimed row that nobody touches can be claimed again exactly when more than forty-five seconds have
      passed. */
  lemma LeaseExactly(states: seq<State>, labels: seq<Label>, i: nat, j: nat, v: Worker, r: RowId, own: Token,
      from: nat, known: bool, w: Worker, token: Token, at: nat, heard: bool)
    requires Run(states, labels) && i < j < |states| && labels[i] == Outbox(v, SendStep.Claim(r, own, from, known))
    requires RowRests(states, labels, i + 1, j, r) && MayClaim(states[j], w, r, token) && at <= states[j].db.now
    ensures Can(states[j], Outbox(w, SendStep.Claim(r, token, at, heard))) <==> at > from + 45
  {
    RowChanged(states, labels, i, r);
    RowKept(states, labels, i + 1, j, r);
    ClaimExactly(states[j], w, r, token, at, heard);
  }

  lemma {:induction false} RepliesDue(rows: map<RowId, Row>, c: UpdateClaim, ids: seq<nat>, at: nat)
    ensures forall r | r in NewReplies(rows, c, ids, at) ::
      NewReplies(rows, c, ids, at)[r].status == Pending && NewReplies(rows, c, ids, at)[r].nextAttempt == at
  {
    if ids != [] { RepliesDue(rows, c, ids[..|ids| - 1], at); }
  }

  /** The moment a new row is due for the first time: that of its cron run, of its trigger, or of the transaction
      that answered. */
  ghost function FirstDue(s: State, l: Label): nat
    requires Can(s, l)
  {
    match l
    case World(world) => if world.Cron? then world.at else 0
    case Prices(price) => s.db.now
    case Inbox(w, handle) => if Effective(s, w, handle) then s.pcs[w].step.view.began else 0
    case Outbox(_, _) => 0
  }

  ghost predicate BornDue(s: State, t: State, l: Label, r: RowId)
    requires Can(s, l)
  {
    r !in s.db.rows && r in t.db.rows ==>
      t.db.rows[r].status == Pending && t.db.rows[r].nextAttempt == FirstDue(s, l)
  }

  lemma BornHandle(s: State, w: Worker, l: HandleStep, r: RowId)
    requires BaseInv(s) && CanHandle(s, w, l)
    ensures BornDue(s, NextHandle(s, w, l), Inbox(w, l), r)
  {
    HandleShape(s, w, l);
    if Effective(s, w, l) {
      var c, view := s.pcs[w].update, s.pcs[w].step.view;
      var recorded := s.db.(versions := Record(s.db.versions, c, view));
      MutateRows(recorded, c, view, l.ctx);
      RepliesDue(Mutate(recorded, c, view, l.ctx).rows, c, s.pcs[w].step.ids, view.began);
    }
  }

  lemma BornPrice(s: State, l: PriceStep, r: RowId)
    requires CanPrice(s, l)
    ensures BornDue(s, NextPrice(s, l), Prices(l), r)
  {
  }

  lemma BornWorld(s: State, l: WorldStep, r: RowId)
    requires CanWorld(s, l)
    ensures BornDue(s, NextWorld(s, l), World(l), r)
  {
  }

  /** A new row is pending and due at that moment. */
  lemma BornPending(s: State, l: Label, r: RowId)
    requires BaseInv(s) && Can(s, l)
    ensures BornDue(s, Next(s, l), l, r)
  {
    match l
    case Outbox(w, send) => SendTables(s, w, send);
    case Inbox(w, handle) => BornHandle(s, w, handle, r);
    case Prices(price) => BornPrice(s, price, r);
    case World(world) => BornWorld(s, world, r);
  }

  /** A new row can be claimed exactly from the moment it is due. */
  lemma FirstTurnExactly(states: seq<State>, labels: seq<Label>, i: nat, j: nat, r: RowId, w: Worker, token: Token,
      at: nat, heard: bool)
    requires Run(states, labels) && i < j < |states| && r !in states[i].db.rows && r in states[i + 1].db.rows
    requires RowRests(states, labels, i + 1, j, r) && MayClaim(states[j], w, r, token) && at <= states[j].db.now
    ensures Can(states[j], Outbox(w, SendStep.Claim(r, token, at, heard))) <==> at >= FirstDue(states[i], labels[i])
  {
    RunBase(states, labels, i);
    BornPending(states[i], labels[i], r);
    RowKept(states, labels, i + 1, j, r);
    ClaimExactly(states[j], w, r, token, at, heard);
  }

  /* ---- What an error leads to ---- */

  /** The lock, the subscription check, the claim check or the request failed with an error. */
  ghost predicate Errs(l: SendStep, delay: nat) { l == Stumble(delay) || l == EndSend(Transient(delay)) }

  lemma ErrPlans(s: State, w: Worker, l: SendStep, delay: nat)
    requires CanSend(s, w, l) && Errs(l, delay)
    ensures var t := NextSend(s, w, l);
      && SenderAt(t, w) && t.pcs[w].claim == s.pcs[w].claim
      && t.pcs[w].phase == Concluding(if s.pcs[w].claim.attempts < 3 then Retry(delay) else Fail(false))
    ensures delay >= 60 && (l.Stumble? && 1 <= s.pcs[w].claim.attempts <= 10 ==> delay == 60 * s.pcs[w].claim.attempts)
  {
  }

  /** A worker that nobody else moves keeps its program until its own next step. */
  lemma ProgramKept(states: seq<State>, labels: seq<Label>, i: nat, j: nat, w: Worker)
    requires Run(states, labels) && i <= j < |states| && SenderAt(states[i], w)
    requires forall m | i <= m < j :: !StepOf(labels[m], w)
    ensures SenderAt(states[j], w) && states[j].pcs[w] == states[i].pcs[w]
  {
    forall m | i <= m < j ensures Stays(states[m], states[m + 1], w) { StepStays(states[m], labels[m], w); }
    ChainStays(states, i, j, w);
  }

  /** An error at the first or second attempt gives the row back for a retry after the delay. At the third or a
      later one the row has failed for good and a scheduled job suspends its chat. */
  lemma ErrorDecides(states: seq<State>, labels: seq<Label>, k: nat, j: nat, w: Worker, l: SendStep, delay: nat)
    requires Run(states, labels) && k < j < |labels| && labels[k] == Outbox(w, l) && Errs(l, delay)
    requires (forall m | k < m < j :: !StepOf(labels[m], w)) && labels[j] == Outbox(w, Conclude(true))
    requires Owns(states[j].db.rows, states[k].pcs[w].claim)
    ensures var c, rows := states[k].pcs[w].claim, states[j + 1].db.rows;
      && c.row in rows
      && if c.attempts < 3
         then rows[c.row].status == Pending && rows[c.row].nextAttempt == states[j].db.now + delay
         else rows[c.row].status == Failed && rows[c.row].closedAt == states[j].db.now
              && (c.kind.Scheduled? ==> CauseOf(states[j], labels[j], c.chat) == SubOutcome(Fail(false), c.scheduledAt))
  {
    ErrPlans(states[k], w, l, delay);
    ProgramKept(states, labels, k + 1, j, w);
    RowChanged(states, labels, j, states[k].pcs[w].claim.row);
  }

  /** Telegram's answer decides for good: an accepted message makes the row sent, a permanent refusal makes it
      failed, from the moment that is recorded; with a scheduled job the subscriber is delivered to or unsubscribed. */
  lemma AnswerDecides(states: seq<State>, labels: seq<Label>, k: nat, j: nat, w: Worker, accepted: bool, heard: bool)
    requires Run(states, labels) && k < j < |labels|
    requires labels[k] == Outbox(w, EndSend(if accepted then Accepted else Permanent))
    requires forall m | k < m < j :: !StepOf(labels[m], w)
    requires labels[j] == Outbox(w, if accepted then Finalize(true, heard) else Conclude(true))
    requires Owns(states[j].db.rows, states[k].pcs[w].claim)
    ensures var c, rows := states[k].pcs[w].claim, states[j + 1].db.rows;
      && c.row in rows && rows[c.row].status == (if accepted then Sent else Failed)
      && rows[c.row].closedAt == states[j].db.now
      && (c.kind.Scheduled? ==>
            CauseOf(states[j], labels[j], c.chat) ==
              SubOutcome(if accepted then Delivered else Fail(true), c.scheduledAt))
  {
    ProgramKept(states, labels, k + 1, j, w);
    RowChanged(states, labels, j, states[k].pcs[w].claim.row);
  }

  /** The claim check lets a worker send if and only if the row is still its own and more than fifteen seconds of
      its lease are left. */
  lemma CheckExactly(states: seq<State>, labels: seq<Label>, k: nat, w: Worker, at: nat)
    requires Run(states, labels) && k < |labels| && labels[k] == Outbox(w, Check(at))
    ensures var c, rows := states[k].pcs[w].claim, states[k].db.rows;
      SenderAt(states[k + 1], w) && (states[k + 1].pcs[w].phase.Checked? <==>
        && c.row in rows && rows[c.row].status == Sending && rows[c.row].token == Some(c.token)
        && rows[c.row].attempts == c.attempts && at + 15 < c.at + 45)
  {
    RunBase(states, labels, k);
    assert ClaimOk(states[k].db, states[k].pcs[w]);
  }

  /* ---- Updates ---- */

  /** Everything a claim of an update needs besides its own times: an idle worker, and no open update of the
      chat with a smaller version. */
  ghost predicate MayTake(s: State, w: Worker, u: int) {
    && u in s.db.updates && w !in s.pcs
    && forall e | e in s.db.updates && s.db.updates[e].chat == s.db.updates[u].chat
                  && (s.db.updates[e].epoch < s.db.updates[u].epoch
                      || (s.db.updates[e].epoch == s.db.updates[u].epoch && e < u)) ::
         s.db.updates[e].status.Processed? || s.db.updates[e].status.Rejected?
  }

  lemma TakeExactly(s: State, w: Worker, u: int, at: nat, heard: bool)
    requires MayTake(s, w, u) && at <= s.db.now
    ensures var update := s.db.updates[u];
      Can(s, Inbox(w, Take(u, at, heard))) <==>
        && update.nextAttempt <= at
        && (update.status == Waiting
            || (update.status == Processing && (update.claimedUntil == None || update.claimedUntil.value < at)))
  {
  }

  ghost predicate UpdateRests(states: seq<State>, labels: seq<Label>, i: nat, j: nat, u: int)
    requires Run(states, labels) && j < |states|
  {
    forall k | i <= k < j :: UpdateCauseOf(states[k], labels[k], u) == UpdateSame
  }

  ghost predicate SameUpdate(s: State, t: State, u: int) {
    u in s.db.updates ==> u in t.db.updates && t.db.updates[u] == s.db.updates[u]
  }

  lemma {:induction false} ChainUpdate(states: seq<State>, i: nat, j: nat, u: int)
    requires i <= j < |states| && u in states[i].db.updates
    requires forall k | i <= k < j :: SameUpdate(states[k], states[k + 1], u)
    ensures u in states[j].db.updates && states[j].db.updates[u] == states[i].db.updates[u]
  {
    if i < j { ChainUpdate(states, i, j - 1, u); assert SameUpdate(states[j - 1], states[j - 1 + 1], u); }
  }

  lemma UpdateKept(states: seq<State>, labels: seq<Label>, i: nat, j: nat, u: int)
    requires Run(states, labels) && i <= j < |states| && u in states[i].db.updates
    requires UpdateRests(states, labels, i, j, u)
    ensures u in states[j].db.updates && states[j].db.updates[u] == states[i].db.updates[u]
  {
    forall k | i <= k < j ensures SameUpdate(states[k], states[k + 1], u) {
      assert UpdateCauseOf(states[k], labels[k], u) == UpdateSame;
      UpdateHistory(states[k], labels[k], u);
    }
    ChainUpdate(states, i, j, u);
  }

  /** An update given back after an error can be claimed exactly from sixty seconds per attempt on, at most ten
      minutes later. */
  lemma UpdateRetryExactly(states: seq<State>, labels: seq<Label>, i: nat, j: nat, u: int, w: Worker, at: nat,
      heard: bool)
    requires Run(states, labels) && i < j < |states| && UpdateCauseOf(states[i], labels[i], u) == UpdateRetry
    requires UpdateRests(states, labels, i + 1, j, u) && MayTake(states[j], w, u) && at <= states[j].db.now
    ensures u in states[i].db.updates
    ensures var n := states[i].db.updates[u].attempts;
      Can(states[j], Inbox(w, Take(u, at, heard))) <==>
        at >= states[i].db.now + if n == 0 then 60 else if n > 10 then 600 else 60 * n
  {
    UpdateHistory(states[i], labels[i], u);
    UpdateKept(states, labels, i + 1, j, u);
    TakeExactly(states[j], w, u, at, heard);
  }

  /** An update in progress that nobody touches can be claimed again exactly when more than forty-five seconds
      have passed. */
  lemma UpdateLeaseExactly(states: seq<State>, labels: seq<Label>, i: nat, j: nat, v: Worker, u: int, from: nat,
      known: bool, w: Worker, at: nat, heard: bool)
    requires Run(states, labels) && i < j < |states| && labels[i] == Inbox(v, Take(u, from, known))
    requires UpdateRests(states, labels, i + 1, j, u) && MayTake(states[j], w, u) && at <= states[j].db.now
    ensures Can(states[j], Inbox(w, Take(u, at, heard))) <==> at > from + 45
  {
    UpdateHistory(states[i], labels[i], u);
    UpdateKept(states, labels, i + 1, j, u);
    TakeExactly(states[j], w, u, at, heard);
  }

  /** A saved update can be claimed exactly from the moment it was saved. */
  lemma UpdateFirstExactly(states: seq<State>, labels: seq<Label>, i: nat, j: nat, u: int, from: Chat,
      command: Command, w: Worker, at: nat, heard: bool)
    requires Run(states, labels) && i < j < |states| && labels[i] == World(Save(u, from, command))
    requires u !in states[i].db.updates
    requires UpdateRests(states, labels, i + 1, j, u) && MayTake(states[j], w, u) && at <= states[j].db.now
    ensures Can(states[j], Inbox(w, Take(u, at, heard))) <==> at >= states[i].db.now
  {
    UpdateKept(states, labels, i + 1, j, u);
    TakeExactly(states[j], w, u, at, heard);
  }

  /** In progress under a lease that runs at least up to this time. */
  ghost predicate Leased(s: State, u: int, until: nat) {
    && u in s.db.updates && s.db.updates[u].status.Processing?
    && s.db.updates[u].claimedUntil.Some? && s.db.updates[u].claimedUntil.value >= until
  }

  /** Whoever concludes an update: its commit, its rejection, or giving it back. */
  ghost predicate Concludes(cause: UpdateCause) { cause.UpdateDone? || cause.UpdateRetry? || cause.UpdateReject? }

  lemma LeasedStep(s: State, l: Label, u: int, until: nat)
    requires Can(s, l) && Leased(s, u, until) && !Concludes(UpdateCauseOf(s, l, u))
    ensures Leased(Next(s, l), u, until)
  {
    UpdateHistory(s, l, u);
  }

  lemma {:induction false} ChainLeased(states: seq<State>, i: nat, j: nat, u: int, until: nat)
    requires i <= j < |states| && Leased(states[i], u, until)
    requires forall k | i <= k < j :: Leased(states[k], u, until) ==> Leased(states[k + 1], u, until)
    ensures Leased(states[j], u, until)
  {
    if i < j { ChainLeased(states, i, j - 1, u, until); assert Leased(states[j - 1 + 1], u, until); }
  }

  /** Two claims of one update are more than forty-five seconds apart, unless the update was committed, rejected
      or given back in between, no matter what the claiming workers heard or whether they crashed. */
  lemma UpdateLeaseHolds(states: seq<State>, labels: seq<Label>, i: nat, j: nat, v: Worker, w: Worker, u: int,
      at: nat, later: nat, known: bool, heard: bool)
    requires Run(states, labels) && i < j < |labels|
    requires labels[i] == Inbox(v, Take(u, at, known)) && labels[j] == Inbox(w, Take(u, later, heard))
    requires forall k | i < k < j :: !Concludes(UpdateCauseOf(states[k], labels[k], u))
    ensures later > at + 45
  {
    UpdateHistory(states[i], labels[i], u);
    forall k | i + 1 <= k < j && Leased(states[k], u, at + 45) ensures Leased(states[k + 1], u, at + 45) {
      LeasedStep(states[k], labels[k], u, at + 45);
    }
    ChainLeased(states, i + 1, j, u, at + 45);
    UpdateHistory(states[j], labels[j], u);
  }

  /* ---- What a processing error leads to ---- */

  ghost predicate ActOf(l: Label, w: Worker) { (l.Inbox? && l.w == w) || l == World(Crash(w)) }

  ghost predicate HandlerStays(s: State, t: State, v: Worker) {
    HandlerAt(s, v) ==> HandlerAt(t, v) && t.pcs[v] == s.pcs[v]
  }

  lemma HandlerSpared(s: State, l: Label, v: Worker)
    requires Can(s, l) && !ActOf(l, v)
    ensures HandlerStays(s, Next(s, l), v)
  {
    match l
    case Outbox(w, send) => SendPrograms(s, w, send);
    case Inbox(w, handle) => HandleShape(s, w, handle);
    case Prices(price) =>
    case World(world) =>
  }

  lemma {:induction false} ChainHandler(states: seq<State>, i: nat, j: nat, v: Worker)
    requires i <= j < |states| && HandlerAt(states[i], v)
    requires forall k | i <= k < j :: HandlerStays(states[k], states[k + 1], v)
    ensures HandlerAt(states[j], v) && states[j].pcs[v] == states[i].pcs[v]
  {
    if i < j { ChainHandler(states, i, j - 1, v); assert HandlerStays(states[j - 1], states[j - 1 + 1], v); }
  }

  /** An error on the way, or a commit that failed or was not answered. */
  ghost predicate Fails(s: State, w: Worker, l: HandleStep)
    requires CanHandle(s, w, l)
  {
    l.Garbled? || l.Err? || (l.Commit? && !(l.committed && l.heard) && OwnsUpdate(s.db.updates, s.pcs[w].update))
  }

  lemma FailPlans(s: State, w: Worker, l: HandleStep)
    requires CanHandle(s, w, l) && Fails(s, w, l)
    ensures var t := NextHandle(s, w, l);
      && HandlerAt(t, w) && t.pcs[w].update == s.pcs[w].update
      && t.pcs[w].step == Erring(l.Garbled? || s.pcs[w].update.attempts >= 3)
  {
  }

  /** A payload that cannot be decoded is rejected at once. Any other error rejects the update at the third attempt
      and, before that, gives it back for sixty seconds per attempt; the table then is the one the deferring
      statement leaves. */
  lemma FailureDecides(states: seq<State>, labels: seq<Label>, k: nat, j: nat, w: Worker, l: HandleStep)
    requires Run(states, labels) && k < j < |labels| && labels[k] == Inbox(w, l) && Fails(states[k], w, l)
    requires (forall m | k < m < j :: !ActOf(labels[m], w)) && labels[j] == Inbox(w, Close(true))
    requires OwnsUpdate(states[j].db.updates, states[k].pcs[w].update)
    ensures var c, now, updates := states[k].pcs[w].update, states[j].db.now, states[j + 1].db.updates;
      && c.id in updates
      && if l.Garbled? || c.attempts >= 3
         then updates[c.id].status == Rejected && updates[c.id].closedAt == now
         else updates[c.id].status == Waiting
              && updates[c.id].nextAttempt == now + if c.attempts == 2 then 120 else 60
    ensures !l.Garbled? ==> states[j + 1].db == DeferUpdate(states[j].db, states[k].pcs[w].update)
  {
    FailPlans(states[k], w, l);
    forall m | k + 1 <= m < j ensures HandlerStays(states[m], states[m + 1], w) {
      HandlerSpared(states[m], labels[m], w);
    }
    ChainHandler(states, k + 1, j, w);
    UpdateHistory(states[j], labels[j], states[k].pcs[w].update.id);
  }
}
