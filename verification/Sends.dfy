/** Deliveries over whole runs: who is sending, under which claim, and what everybody else may do. */
module Sends {
  import opened Policy
  import opened Tables
  import opened Machine
  import opened Claims
  import opened Delivery
  import opened Attempts
  import opened Safety

  /* ---- At most one sender ---- */

  ghost predicate Sending(s: State, w: Worker) { SenderAt(s, w) && s.pcs[w].phase.InFlight? }

  /** The chat is not tainted, or the request is still within the margin its claim check demanded. */
  ghost predicate Protected(s: State, w: Worker)
    requires SenderAt(s, w)
  {
    || s.pcs[w].claim.chat !in s.h.tainted
    || (s.pcs[w].checkedAt.Some? && s.db.now <= s.pcs[w].checkedAt.value + SEND_MARGIN)
  }

  /** In every reachable state at most one worker is sending a given row. Even a worker whose lock
      session died is alone for as long as its request keeps to the time limits. */
  lemma OneSender(states: seq<State>, labels: seq<Label>, i: nat, v: Worker, w: Worker)
    requires Run(states, labels) && i < |states|
    requires Sending(states[i], v) && Protected(states[i], v) && Sending(states[i], w) && Protected(states[i], w)
    requires states[i].pcs[v].claim.row == states[i].pcs[w].claim.row
    ensures v == w
  {
    RunBase(states, labels, i);
    var s := states[i];
    InFlightOwns(s, v);
    InFlightOwns(s, w);
    if s.pcs[v].claim.chat !in s.h.tainted { OneHolder(s, v, w); }
  }

  /** A protected request belongs to the current claim of its row, or to one closed but not taken over. */
  lemma InFlightOwns(s: State, w: Worker)
    requires BaseInv(s) && Sending(s, w) && Protected(s, w)
    ensures var c := s.pcs[w].claim;
      && s.pcs[w].locked && c.row in s.db.rows && s.db.rows[c.row].attempts == c.attempts
      && s.db.rows[c.row].chat == c.chat
  {
  }

  /* ---- Between the claim check and the release ---- */

  ghost predicate StepOf(l: Label, w: Worker) {
    (l.Outbox? && l.w == w) || l == World(Crash(w))
  }

  /** The worker stays where it is and its row is as before, or was closed and is gone. */
  ghost predicate Spared(s: State, t: State, v: Worker)
    requires SenderAt(s, v)
  {
    SenderAt(t, v) && t.pcs[v] == s.pcs[v] && Kept(s.db.rows, t.db.rows, s.pcs[v].claim.row)
  }

  lemma PricesSpare(s: State, l: PriceStep, v: Worker)
    requires ClaimInv(s) && CanPrice(s, l) && SenderAt(s, v)
    ensures Spared(s, NextPrice(s, l), v)
  {
  }

  lemma WorldSpares(s: State, l: WorldStep, v: Worker)
    requires ClaimInv(s) && CanWorld(s, l) && SenderAt(s, v) && l != Crash(v)
    ensures Spared(s, NextWorld(s, l), v)
  {
  }

  lemma SendSpares(s: State, w: Worker, l: SendStep, v: Worker)
    requires BaseInv(s) && CanSend(s, w, l) && Exclusive(s, v) && w != v
    ensures Spared(s, NextSend(s, w, l), v)
  {
    SendPrograms(s, w, l);
    SparesRivals(s, w, l, v);
  }

  lemma HandleSpares(s: State, w: Worker, l: HandleStep, v: Worker)
    requires BaseInv(s) && CanHandle(s, w, l) && Exclusive(s, v)
    ensures Spared(s, NextHandle(s, w, l), v)
  {
    HandleShape(s, w, l);
    SparedByCommit(s, w, l, v);
  }

  /** Nobody else's step claims, cancels, finalizes or deletes an exclusive worker's open row. */
  lemma OthersSpare(s: State, l: Label, v: Worker)
    requires BaseInv(s) && Can(s, l) && Exclusive(s, v) && !StepOf(l, v)
    ensures Spared(s, Next(s, l), v)
  {
    match l
    case Outbox(w, send) => SendSpares(s, w, send, v);
    case Inbox(w, handle) => HandleSpares(s, w, handle, v);
    case Prices(price) => PricesSpare(s, price, v);
    case World(world) => WorldSpares(s, world, v);
  }

  /** Nobody else moves this worker. */
  ghost predicate Stays(s: State, t: State, v: Worker) {
    SenderAt(s, v) ==> SenderAt(t, v) && t.pcs[v] == s.pcs[v]
  }

  lemma StepStays(s: State, l: Label, v: Worker)
    requires Can(s, l) && !StepOf(l, v)
    ensures Stays(s, Next(s, l), v)
  {
    match l
    case Outbox(w, send) => SendPrograms(s, w, send);
    case Inbox(w, handle) => HandleShape(s, w, handle);
    case Prices(price) =>
    case World(world) =>
  }

  lemma StepTaint(s: State, l: Label)
    requires Can(s, l)
    ensures TaintKept(s, Next(s, l))
  {
    match l
    case Outbox(w, send) => SendTaint(s, w, send);
    case Inbox(w, handle) => HandleTaint(s, w, handle);
    case Prices(price) =>
    case World(world) =>
  }

  lemma {:induction false} ChainStays(states: seq<State>, i: nat, j: nat, v: Worker)
    requires i <= j < |states| && SenderAt(states[i], v) && forall k | i <= k < j :: Stays(states[k], states[k + 1], v)
    ensures SenderAt(states[j], v) && states[j].pcs[v] == states[i].pcs[v]
  {
    if i < j { ChainStays(states, i, j - 1, v); assert Stays(states[j - 1], states[j - 1 + 1], v); }
  }

  lemma {:induction false} ChainSpares(states: seq<State>, i: nat, j: nat, v: Worker)
    requires i <= j < |states|
    requires Exclusive(states[i], v) && Owns(states[i].db.rows, states[i].pcs[v].claim) && states[i].pcs[v].locked
    requires forall k | i <= k < j :: Stays(states[k], states[k + 1], v)
    requires forall k | i <= k < j :: TaintKept(states[k], states[k + 1])
    requires forall k | i <= k < j :: Exclusive(states[k], v) ==> Spared(states[k], states[k + 1], v)
    requires states[i].pcs[v].claim.chat !in states[j].h.tainted
    ensures var r := states[i].pcs[v].claim.row; r in states[j].db.rows && states[j].db.rows[r] == states[i].db.rows[r]
  {
    if i < j {
      ChainStays(states, i, j, v);
      ChainStays(states, i, j - 1, v);
      assert TaintKept(states[j - 1], states[j - 1 + 1]);
      ChainSpares(states, i, j - 1, v);
      assert Exclusive(states[j - 1], v);
      assert Spared(states[j - 1], states[j - 1 + 1], v);
    }
  }

  /** From the passed claim check until its own next step, however far apart, an exclusive worker finds its
      row exactly as it left it, unless its own lock session dies in between. */
  lemma ExclusiveSpan(states: seq<State>, labels: seq<Label>, i: nat, j: nat, v: Worker)
    requires Run(states, labels) && i <= j < |states|
    requires Exclusive(states[i], v) && Owns(states[i].db.rows, states[i].pcs[v].claim)
    requires states[i].pcs[v].claim.chat !in states[j].h.tainted
    requires forall k | i <= k < j :: !StepOf(labels[k], v)
    ensures SenderAt(states[j], v) && states[j].pcs[v] == states[i].pcs[v]
    ensures var r := states[i].pcs[v].claim.row; r in states[j].db.rows && states[j].db.rows[r] == states[i].db.rows[r]
  {
    forall k | i <= k < j ensures Stays(states[k], states[k + 1], v) && TaintKept(states[k], states[k + 1]) {
      StepStays(states[k], labels[k], v);
      StepTaint(states[k], labels[k]);
    }
    forall k | i <= k < j && Exclusive(states[k], v) ensures Spared(states[k], states[k + 1], v) {
      RunBase(states, labels, k);
      OthersSpare(states[k], labels[k], v);
    }
    RunBase(states, labels, i);
    assert ClaimOk(states[i].db, states[i].pcs[v]);
    ChainStays(states, i, j, v);
    ChainSpares(states, i, j, v);
  }

  /* ---- Ownership lost while finalizing ---- */

  ghost predicate OwnCommit(s: State, l: Label, w: Worker, c: Claim) {
    SenderAt(s, w) && s.pcs[w].claim == c && Owns(s.db.rows, c) && l == Outbox(w, Finalize(true, false))
  }

  /** A finalizing worker that no longer owns its row lost it to its own earlier commit, the one whose
      answer it never heard; so the row is sent. */
  lemma {:induction false} LostMeansSent(states: seq<State>, labels: seq<Label>, i: nat, w: Worker) returns (k: nat)
    requires Run(states, labels) && i < |states| && Stranded(states[i], w)
    ensures k < i && OwnCommit(states[k], labels[k], w, states[i].pcs[w].claim)
    ensures var r := states[i].pcs[w].claim.row; r in states[i].h.fate && states[i].h.fate[r] == Sent
  {
    RunBase(states, labels, i);
    assert Guarded(states[i], states[i].pcs[w]) && ClaimOk(states[i].db, states[i].pcs[w]);
    k := i - 1;
    RunBase(states, labels, k);
    StrandedBefore(states[k], labels[k], w);
    if !OwnCommit(states[k], labels[k], w, states[i].pcs[w].claim) { k := LostMeansSent(states, labels, k, w); }
  }

  /** Finalizing, in an untainted chat, without owning the row any more. */
  ghost predicate Stranded(s: State, w: Worker) {
    && SenderAt(s, w) && s.pcs[w].phase.Confirmed? && s.pcs[w].claim.chat !in s.h.tainted
    && !Owns(s.db.rows, s.pcs[w].claim)
  }

  lemma StrandedBefore(s: State, l: Label, w: Worker)
    requires BaseInv(s) && Can(s, l) && Stranded(Next(s, l), w)
    ensures OwnCommit(s, l, w, Next(s, l).pcs[w].claim) || (Stranded(s, w) && s.pcs[w].claim == Next(s, l).pcs[w].claim)
  {
    if StepOf(l, w) {
      FinalizingBefore(s, w, l.send);
      StepTaint(s, l);
    } else {
      FinalizingStays(s, l, w);
    }
  }

  lemma FinalizingBefore(s: State, w: Worker, l: SendStep)
    requires ClaimInv(s) && GuardInv(s) && CanSend(s, w, l) && Stranded(NextSend(s, w, l), w)
    ensures SenderAt(s, w) && s.pcs[w].phase.Confirmed? && s.pcs[w].claim == NextSend(s, w, l).pcs[w].claim
    ensures NextSend(s, w, l).pcs[w].locked
    ensures Owns(s.db.rows, s.pcs[w].claim) ==> l == Finalize(true, false)
  {
    if SenderAt(s, w) { assert Guarded(s, s.pcs[w]) && ClaimOk(s.db, s.pcs[w]); }
    match l
    case Finalize(_, _) =>
    case Conclude(_) =>
    case _ =>
  }

  lemma FinalizingStays(s: State, l: Label, w: Worker)
    requires BaseInv(s) && Can(s, l) && !StepOf(l, w) && Stranded(Next(s, l), w)
    ensures Stranded(s, w) && s.pcs[w].claim == Next(s, l).pcs[w].claim
  {
    StepTaint(s, l);
    SameProgram(s, l, w);
    assert ClaimOk(s.db, s.pcs[w]);
    OthersSpare(s, l, w);
  }

  lemma SameProgram(s: State, l: Label, w: Worker)
    requires Can(s, l) && !StepOf(l, w) && SenderAt(Next(s, l), w)
    ensures SenderAt(s, w) && s.pcs[w] == Next(s, l).pcs[w]
  {
    match l
    case Outbox(v, send) => SendPrograms(s, v, send);
    case Inbox(v, handle) => HandleShape(s, v, handle);
    case Prices(price) =>
    case World(world) =>
  }

  /* ---- Only enabled notifications are sent ---- */

  /** While a notification is being sent its chat is subscribed, or its alert triggered and not
      canceled; in particular nothing is in flight once an unsubscribe or a cancellation committed. */
  lemma SendsEnabled(states: seq<State>, labels: seq<Label>, i: nat, w: Worker)
    requires Run(states, labels) && i < |states| && Sending(states[i], w)
    requires !states[i].pcs[w].claim.kind.Reply? && states[i].pcs[w].claim.chat !in states[i].h.tainted
    ensures NotificationEnabled(states[i].db, states[i].pcs[w].claim)
  {
    RunBase(states, labels, i);
    RunJobs(states, labels, i);
    OwnedEnabled(states[i], w);
    assert Guarded(states[i], states[i].pcs[w]) && ClaimOk(states[i].db, states[i].pcs[w]);
  }

  lemma OwnedEnabled(s: State, w: Worker)
    requires BaseInv(s) && EnabledInv(s.db) && SenderAt(s, w) && !s.pcs[w].claim.kind.Reply?
    requires Owns(s.db.rows, s.pcs[w].claim)
    ensures NotificationEnabled(s.db, s.pcs[w].claim)
  {
  }

  /** The "not enabled" branch is taken only with a stale claim, so its cancellation changes nothing. */
  lemma RefusalIsStale(states: seq<State>, labels: seq<Label>, i: nat, w: Worker)
    requires Run(states, labels) && i < |labels| && labels[i] == Outbox(w, Vet)
    requires !NotificationEnabled(states[i].db, states[i].pcs[w].claim)
    ensures !Owns(states[i].db.rows, states[i].pcs[w].claim)
    ensures Settle(states[i].db, states[i].pcs[w].claim, Cancel) == states[i].db
  {
    RunBase(states, labels, i);
    RunJobs(states, labels, i);
    if Owns(states[i].db.rows, states[i].pcs[w].claim) { OwnedEnabled(states[i], w); }
  }

  /* ---- Terminal statuses, attempts ---- */

  /** Sent, failed and canceled are final: a closed row is never open again and never changes its
      status; at most retention removes it, and its id is not used again. */
  lemma TerminalForever(states: seq<State>, labels: seq<Label>, i: nat, j: nat, r: RowId)
    requires Run(states, labels) && i <= j < |states| && r in states[i].db.rows && !states[i].db.rows[r].status.Open()
    ensures r in states[j].db.rows ==> states[j].db.rows[r].status == states[i].db.rows[r].status
  {
    RunBase(states, labels, i);
    RunBase(states, labels, j);
    Forever(states, labels, i, j);
  }

  /** Sends never outnumber attempts; attempts exceed three only by takeovers and shutdown retries. */
  lemma AttemptsConserved(states: seq<State>, labels: seq<Label>, i: nat, r: RowId)
    requires Run(states, labels) && i < |states| && r in states[i].db.rows
    ensures var t := TallyOf(states[i].h, r);
      t.sends <= states[i].db.rows[r].attempts <= MAX_ATTEMPTS + t.reclaims + t.overruns
  {
    RunInv(states, labels, i);
    Conservation(states[i], r);
  }
}
