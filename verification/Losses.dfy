/** Exactly how a worker past its claim check can lose its row, with or without its lock session. */
module Losses {
  import opened Policy
  import opened Tables
  import opened Machine
  import opened Claims
  import opened Stories
  import opened Sends
  import opened Safety

  /** A step that claims the row of this claim again, or cancels it. */
  ghost predicate TakesAway(s: State, l: Label, c: Claim)
    requires Can(s, l)
  {
    var cause := RowCauseOf(s, l, c.row);
    cause.RowClaim? || cause.RowCancel?
  }

  lemma TakenTold(s: State, t: State, c: Claim, cause: RowCause)
    requires Owns(s.db.rows, c) && RowTold(s, t, c.row, cause) && !cause.RowOutcome?
    ensures !Owns(t.db.rows, c) <==> cause.RowClaim? || cause.RowCancel?
    ensures cause.RowClaim? && s.db.rows[c.row].claimedUntil.Some? ==> s.db.rows[c.row].claimedUntil.value < s.db.now
  {
  }

  /** Nobody else can record an outcome for it. */
  lemma NoRivalOutcome(s: State, l: Label, v: Worker)
    requires UniqueInv(s) && Can(s, l) && SenderAt(s, v) && Owns(s.db.rows, s.pcs[v].claim) && !StepOf(l, v)
    ensures !RowCauseOf(s, l, s.pcs[v].claim.row).RowOutcome?
  {
  }

  lemma TakenStep(s: State, l: Label, v: Worker)
    requires BaseInv(s) && Can(s, l) && SenderAt(s, v) && Owns(s.db.rows, s.pcs[v].claim) && !StepOf(l, v)
    ensures !Owns(Next(s, l).db.rows, s.pcs[v].claim) <==> TakesAway(s, l, s.pcs[v].claim)
    ensures TakesAway(s, l, s.pcs[v].claim) && s.pcs[v].checkedAt.Some? ==> s.pcs[v].claim.chat in s.h.tainted
  {
    var c := s.pcs[v].claim;
    RowStory(s, l, c.row);
    NoRivalOutcome(s, l, v);
    TakenTold(s, Next(s, l), c, RowCauseOf(s, l, c.row));
    if Exclusive(s, v) { OthersSpare(s, l, v); }
  }

  /** In every step of every run that somebody else takes: a worker that owns its row loses it if and only if the
      step claims it again, which takes its lease to be over, or cancels it; past the claim check either needs a
      tainted chat. */
  lemma TakenAway(states: seq<State>, labels: seq<Label>, k: nat, v: Worker)
    requires Run(states, labels) && k < |labels| && SenderAt(states[k], v) && !StepOf(labels[k], v)
    requires Owns(states[k].db.rows, states[k].pcs[v].claim) && !states[k].pcs[v].phase.Done?
    ensures var s, c := states[k], states[k].pcs[v].claim;
      && (!Owns(states[k + 1].db.rows, c) <==> TakesAway(s, labels[k], c))
      && (TakesAway(s, labels[k], c) && s.pcs[v].checkedAt.Some? ==> c.chat in s.h.tainted)
      && (RowCauseOf(s, labels[k], c.row).RowClaim? ==> s.db.now > c.at + LEASE)
  {
    RunBase(states, labels, k);
    var s, c := states[k], states[k].pcs[v].claim;
    TakenStep(s, labels[k], v);
    assert ClaimOk(s.db, s.pcs[v]);
    RowStory(s, labels[k], c.row);
    NoRivalOutcome(s, labels[k], v);
    TakenTold(s, states[k + 1], c, RowCauseOf(s, labels[k], c.row));
  }

  /* ---- Losses over a run ---- */

  /** The claim check has passed and the outcome is not settled yet. */
  ghost predicate PastCheck(s: State, w: Worker) {
    SenderAt(s, w) && (s.pcs[w].phase.Checked? || s.pcs[w].phase.InFlight? || s.pcs[w].phase.Confirmed?)
  }

  /** The worker was past its check with the same claim, in no later phase. */
  ghost predicate SameErrand(s: State, t: State, w: Worker) {
    && PastCheck(s, w) && PastCheck(t, w) && s.pcs[w].claim == t.pcs[w].claim
    && (s.pcs[w].phase.Confirmed? ==> t.pcs[w].phase.Confirmed?)
  }

  lemma OwnLoss(s: State, w: Worker, l: SendStep)
    requires CanSend(s, w, l) && PastCheck(NextSend(s, w, l), w)
    requires !Owns(NextSend(s, w, l).db.rows, NextSend(s, w, l).pcs[w].claim)
    ensures SameErrand(s, NextSend(s, w, l), w)
    ensures Owns(s.db.rows, s.pcs[w].claim) ==>
      OwnCommit(s, Outbox(w, l), w, s.pcs[w].claim) && NextSend(s, w, l).pcs[w].phase.Confirmed?
  {
    match l
    case Claim(_, _, _, _) =>
    case Finalize(_, _) =>
    case Conclude(_) =>
    case _ =>
  }

  lemma LossBefore(s: State, l: Label, w: Worker)
    requires BaseInv(s) && Can(s, l) && PastCheck(Next(s, l), w)
    requires !Owns(Next(s, l).db.rows, Next(s, l).pcs[w].claim)
    ensures SameErrand(s, Next(s, l), w)
    ensures Owns(s.db.rows, s.pcs[w].claim) ==>
      || TakesAway(s, l, s.pcs[w].claim)
      || (OwnCommit(s, l, w, s.pcs[w].claim) && Next(s, l).pcs[w].phase.Confirmed?)
  {
    if StepOf(l, w) {
      OwnLoss(s, w, l.send);
    } else {
      SameProgram(s, l, w);
      if Owns(s.db.rows, s.pcs[w].claim) { TakenStep(s, l, w); }
    }
  }

  /** Whoever has passed its claim check and no longer owns its row has either made it sent itself, by a
      finalization it never heard of, or has lost it to a new claim or a cancellation. Before the request is
      confirmed only the latter is possible. */
  lemma {:induction false} LostBecause(states: seq<State>, labels: seq<Label>, i: nat, w: Worker) returns (k: nat)
    requires Run(states, labels) && i < |states| && PastCheck(states[i], w)
    requires !Owns(states[i].db.rows, states[i].pcs[w].claim)
    ensures k < i && SameErrand(states[k], states[i], w) && Owns(states[k].db.rows, states[i].pcs[w].claim)
    ensures var c := states[i].pcs[w].claim;
      || TakesAway(states[k], labels[k], c)
      || (OwnCommit(states[k], labels[k], w, c) && states[i].pcs[w].phase.Confirmed?)
    ensures forall m | k < m <= i :: !Owns(states[m].db.rows, states[i].pcs[w].claim)
  {
    k := i - 1;
    RunBase(states, labels, k);
    LossBefore(states[k], labels[k], w);
    if !Owns(states[k].db.rows, states[k].pcs[w].claim) { k := LostBecause(states, labels, k, w); }
  }

  /** A notification in flight is disabled only if its row was taken away from its worker before, in a tainted
      chat. */
  lemma DisabledBecause(states: seq<State>, labels: seq<Label>, i: nat, w: Worker) returns (k: nat)
    requires Run(states, labels) && i < |states| && Sends.Sending(states[i], w)
    requires !states[i].pcs[w].claim.kind.Reply? && !NotificationEnabled(states[i].db, states[i].pcs[w].claim)
    ensures k < i && SameErrand(states[k], states[i], w) && TakesAway(states[k], labels[k], states[i].pcs[w].claim)
    ensures states[i].pcs[w].claim.chat in states[k].h.tainted
  {
    RunBase(states, labels, i);
    RunJobs(states, labels, i);
    if Owns(states[i].db.rows, states[i].pcs[w].claim) { OwnedEnabled(states[i], w); }
    k := LostBecause(states, labels, i, w);
    RunBase(states, labels, k);
    TakenTainted(states[k], labels[k], w);
  }

  lemma TakenTainted(s: State, l: Label, w: Worker)
    requires BaseInv(s) && Can(s, l) && PastCheck(s, w) && Owns(s.db.rows, s.pcs[w].claim)
    requires TakesAway(s, l, s.pcs[w].claim)
    ensures s.pcs[w].claim.chat in s.h.tainted
  {
    assert ClaimOk(s.db, s.pcs[w]) && !StepOf(l, w);
    TakenStep(s, l, w);
  }
}
