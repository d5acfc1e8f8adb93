/** How long closed history is kept, counted from the moment it was closed, over whole runs. */
module Expiry {
  import opened Tables
  import opened Machine
  import opened Claims
  import opened Views
  import opened Safety
  import opened Stories
  import Places

  /** For how many seconds a closed outbox row is kept; a canceled reply is never deleted. */
  ghost function KeptFor(r: RowId, status: Status): Option<nat> {
    match (r, status)
    case (Job(_), Sent) => Some(30 * 86400)
    case (Job(_), Failed) => Some(90 * 86400)
    case (Job(_), Canceled) => Some(30 * 86400)
    case (Answer(_), Sent) => Some(7 * 86400)
    case (Answer(_), Failed) => Some(30 * 86400)
    case _ => None
  }

  ghost predicate ClosedStays(s: State, t: State, r: RowId) {
    r in s.db.rows && !s.db.rows[r].status.Open() && r in t.db.rows ==> t.db.rows[r] == s.db.rows[r]
  }

  lemma {:induction false} ChainClosed(states: seq<State>, i: nat, j: nat, r: RowId)
    requires i <= j < |states| && (forall k | i <= k <= j :: r in states[k].db.rows)
    requires !states[i].db.rows[r].status.Open() && forall k | i <= k < j :: ClosedStays(states[k], states[k + 1], r)
    ensures states[j].db.rows[r] == states[i].db.rows[r]
  {
    if i < j { ChainClosed(states, i, j - 1, r); assert ClosedStays(states[j - 1], states[j - 1 + 1], r); }
  }

  lemma ClosedKept(states: seq<State>, labels: seq<Label>, i: nat, j: nat, r: RowId)
    requires Run(states, labels) && i <= j < |states| && (forall k | i <= k <= j :: r in states[k].db.rows)
    requires !states[i].db.rows[r].status.Open()
    ensures states[j].db.rows[r] == states[i].db.rows[r]
  {
    forall k | i <= k < j ensures ClosedStays(states[k], states[k + 1], r) {
      RunBase(states, labels, k);
      RowStory(states[k], labels[k], r);
    }
    ChainClosed(states, i, j, r);
  }

  /** The time at which a cause closes a row: that of the outcome transaction, or of the inbox transaction that
      cancels it. */
  ghost function ClosingTime(cause: RowCause, now: nat): nat { if cause.RowCancel? then cause.at else now }

  lemma RowDates(s: State, t: State, r: RowId, cause: RowCause)
    requires r in s.db.rows && s.db.rows[r].status.Open() && r in t.db.rows && !t.db.rows[r].status.Open()
    requires RowTold(s, t, r, cause)
    ensures t.db.rows[r].closedAt == ClosingTime(cause, s.db.now)
  {
  }

  lemma RowGoes(s: State, r: RowId)
    requires RowsInv(s.db) && r in s.db.rows
    ensures var period := KeptFor(r, s.db.rows[r].status);
      CanWorld(s, DropRow(r)) <==> period.Some? && s.db.rows[r].closedAt + period.value < s.db.now
  {
    assert RowOk(s.db, r);
  }

  /** While a closed row is stored, retention can delete it exactly when its status has been kept for longer than its
      period, counted from the moment the row was closed. */
  lemma RowGoesExactly(states: seq<State>, labels: seq<Label>, i: nat, j: nat, r: RowId)
    requires Run(states, labels) && i < j < |states| && forall k | i <= k <= j :: r in states[k].db.rows
    requires states[i].db.rows[r].status.Open() && !states[i + 1].db.rows[r].status.Open()
    ensures var period := KeptFor(r, states[i + 1].db.rows[r].status);
      Can(states[j], World(DropRow(r))) <==>
        && period.Some?
        && ClosingTime(RowCauseOf(states[i], labels[i], r), states[i].db.now) + period.value < states[j].db.now
  {
    RunBase(states, labels, i);
    RunBase(states, labels, j);
    RowStory(states[i], labels[i], r);
    RowDates(states[i], states[i + 1], r, RowCauseOf(states[i], labels[i], r));
    ClosedKept(states, labels, i + 1, j, r);
    RowGoes(states[j], r);
  }

  /* ---- Updates ---- */

  ghost predicate FinishedStays(s: State, t: State, u: int) {
    u in s.db.updates && !s.db.updates[u].status.Open() && u in t.db.updates ==> t.db.updates[u] == s.db.updates[u]
  }

  lemma {:induction false} ChainFinished(states: seq<State>, i: nat, j: nat, u: int)
    requires i <= j < |states| && (forall k | i <= k <= j :: u in states[k].db.updates)
    requires !states[i].db.updates[u].status.Open()
    requires forall k | i <= k < j :: FinishedStays(states[k], states[k + 1], u)
    ensures states[j].db.updates[u] == states[i].db.updates[u]
  {
    if i < j { ChainFinished(states, i, j - 1, u); assert FinishedStays(states[j - 1], states[j - 1 + 1], u); }
  }

  lemma FinishedKept(states: seq<State>, labels: seq<Label>, i: nat, j: nat, u: int)
    requires Run(states, labels) && i <= j < |states| && (forall k | i <= k <= j :: u in states[k].db.updates)
    requires !states[i].db.updates[u].status.Open()
    ensures states[j].db.updates[u] == states[i].db.updates[u]
  {
    forall k | i <= k < j ensures FinishedStays(states[k], states[k + 1], u) { UpdateHistory(states[k], labels[k], u); }
    ChainFinished(states, i, j, u);
  }

  lemma UpdateDates(s: State, t: State, u: int, cause: UpdateCause)
    requires u in s.db.updates && u in t.db.updates && UpdateTold(s, t, u, cause)
    requires cause.UpdateDone? || cause.UpdateReject?
    ensures t.db.updates[u].status == (if cause.UpdateDone? then Processed else Rejected)
    ensures t.db.updates[u].closedAt == if cause.UpdateDone? then cause.at else s.db.now
  {
  }

  lemma UpdateGoes(s: State, u: int)
    requires u in s.db.updates && (s.db.updates[u].status.Processed? || s.db.updates[u].status.Rejected?)
    ensures CanWorld(s, DropUpdate(u)) <==>
      s.db.now > s.db.updates[u].closedAt + if s.db.updates[u].status.Processed? then 7 * 86400 else 30 * 86400
  {
  }

  /** A processed update can be deleted exactly after seven days from the start of its transaction, a rejected one
      after thirty days from its rejection. */
  lemma UpdateGoesExactly(states: seq<State>, labels: seq<Label>, i: nat, j: nat, u: int)
    requires Run(states, labels) && i < j < |states| && forall k | i <= k <= j :: u in states[k].db.updates
    requires var cause := UpdateCauseOf(states[i], labels[i], u); cause.UpdateDone? || cause.UpdateReject?
    ensures var cause := UpdateCauseOf(states[i], labels[i], u);
      Can(states[j], World(DropUpdate(u))) <==>
        states[j].db.now > if cause.UpdateDone? then cause.at + 7 * 86400 else states[i].db.now + 30 * 86400
  {
    UpdateHistory(states[i], labels[i], u);
    UpdateDates(states[i], states[i + 1], u, UpdateCauseOf(states[i], labels[i], u));
    FinishedKept(states, labels, i + 1, j, u);
    UpdateGoes(states[j], u);
  }

  /* ---- Alerts ---- */

  /** A step that triggers or cancels an alert, at this time. */
  ghost predicate Finishes(s: State, l: Label, a: nat, at: nat)
    requires Can(s, l)
  {
    match l
    case Prices(price) => price.Fire? && price.a == a && at == s.db.now
    case Inbox(w, handle) =>
      && Effective(s, w, handle) && Places.Cancels(s.db, s.pcs[w].update, s.pcs[w].step.view, a)
      && at == s.pcs[w].step.view.began
    case _ => false
  }

  lemma FinishDates(s: State, l: Label, a: nat, at: nat)
    requires Can(s, l) && Finishes(s, l, a, at)
    ensures var db' := Next(s, l).db;
      a in db'.alerts && db'.alerts[a].updatedAt == at && db'.alerts[a].status != Active
  {
  }

  /** As long as a finished alert stays as it is, it can be deleted exactly after ninety days without a stored job. */
  lemma AlertGoesExactly(states: seq<State>, labels: seq<Label>, i: nat, j: nat, a: nat, at: nat)
    requires Run(states, labels) && i < j < |states| && Finishes(states[i], labels[i], a, at)
    requires a in states[i + 1].db.alerts && a in states[j].db.alerts
    requires states[j].db.alerts[a] == states[i + 1].db.alerts[a]
    ensures Can(states[j], World(DropAlert(a))) <==>
      && at + 90 * 86400 < states[j].db.now
      && forall r | r in states[j].db.rows :: states[j].db.rows[r].kind != PriceAlert(a)
  {
    FinishDates(states[i], labels[i], a, at);
  }
}
