/** Timeouts against leases, over whole runs. */
module Timing {
  import opened Policy
  import opened Tables
  import opened Machine
  import opened Claims
  import opened Safety
  import opened Sends

  /** How long a worker may stay in its phase: the timeout of the statement or request it is waiting for.
      Between a passed claim check and the send there is nothing to wait for but the processor: `slack`. */
  ghost function Allowed(pc: Pc, slack: nat): nat
    requires pc.Sender?
  {
    match pc.phase
    case Claimed =>
      if !pc.locked then LOCK_TIMEOUT
      else if pc.claim.kind.Reply? then CLAIM_CHECK_TIMEOUT else SUBSCRIPTION_CHECK_TIMEOUT
    case Vetted => CLAIM_CHECK_TIMEOUT
    case Checked => slack
    case InFlight => CLIENT_TIMEOUT
    case Confirmed(_) => FINALIZATION_BUDGET
    case Concluding(_) => FINALIZATION_BUDGET
    case Done => 0
  }

  /** The worker is within the timeout of its current phase, and its claim committed within its own. */
  ghost predicate OnTime(s: State, w: Worker, slack: nat) {
    SenderAt(s, w) && !s.pcs[w].phase.Done? ==>
      && s.db.now <= s.pcs[w].since + Allowed(s.pcs[w], slack)
      && (s.pcs[w].phase.Claimed? && !s.pcs[w].locked ==> s.pcs[w].since <= s.pcs[w].claim.at + CLAIM_TIMEOUT)
  }

  /** The most that has passed between the claim and the current phase. */
  ghost function Elapsed(pc: Pc, slack: nat): nat
    requires pc.Sender?
  {
    match pc.phase
    case Claimed => if pc.locked then 15 else 5
    case Vetted => 20
    case Checked => 25
    case InFlight => 25 + slack
    case _ => 35 + slack
  }

  ghost predicate Timed(s: State, w: Worker, slack: nat) {
    SenderAt(s, w) && !s.pcs[w].phase.Done? ==> s.pcs[w].since <= s.pcs[w].claim.at + Elapsed(s.pcs[w], slack)
  }

  lemma TimedOwn(s: State, w: Worker, l: SendStep, slack: nat)
    requires Timed(s, w, slack) && OnTime(s, w, slack) && CanSend(s, w, l) && OnTime(NextSend(s, w, l), w, slack)
    ensures Timed(NextSend(s, w, l), w, slack)
  {
    match l
    case Claim(_, _, _, _) =>
    case Conclude(_) =>
    case Finalize(_, _) =>
    case _ =>
  }

  lemma TimedStep(s: State, l: Label, w: Worker, slack: nat)
    requires Timed(s, w, slack) && OnTime(s, w, slack) && Can(s, l) && OnTime(Next(s, l), w, slack)
    ensures Timed(Next(s, l), w, slack)
  {
    if l.Outbox? && l.w == w {
      TimedOwn(s, w, l.send, slack);
    } else if SenderAt(Next(s, l), w) {
      SameProgram(s, l, w);
    }
  }

  lemma {:induction false} ChainTimed(states: seq<State>, j: nat, i: nat, w: Worker, slack: nat)
    requires j <= i < |states| && Timed(states[j], w, slack) && forall k | j <= k <= i :: OnTime(states[k], w, slack)
    requires forall k | j <= k < i ::
      Timed(states[k], w, slack) && OnTime(states[k], w, slack) && OnTime(states[k + 1], w, slack) ==>
        Timed(states[k + 1], w, slack)
    ensures Timed(states[i], w, slack)
  {
    if j < i { ChainTimed(states, j, i - 1, w, slack); assert Timed(states[i - 1 + 1], w, slack); }
  }

  /** A worker that keeps every timeout of its program since its claim, and takes up to five seconds more from its
      claim check to its send, is done within the forty-five seconds of its lease: when it writes its outcome
      the row is still its own or closed, never taken over and never gone, whatever happened to its lock
      session. */
  lemma NeverReclaimed(states: seq<State>, labels: seq<Label>, j: nat, i: nat, w: Worker, r: RowId, token: Token,
      at: nat, slack: nat)
    requires Run(states, labels) && j < i < |states| && labels[j] == Outbox(w, SendStep.Claim(r, token, at, true))
    requires slack <= 5 && SenderAt(states[i], w) && !states[i].pcs[w].phase.Done?
    requires forall k | j < k <= i :: OnTime(states[k], w, slack)
    ensures var s, c := states[i], states[i].pcs[w].claim;
      && s.db.now <= c.at + 40 + slack <= c.at + LEASE
      && c.row in s.db.rows && s.db.rows[c.row].attempts == c.attempts
      && (Owns(s.db.rows, c) || !s.db.rows[c.row].status.Open())
  {
    TimedSince(states, labels, j, i, w, r, token, at, slack);
    RunBase(states, labels, i);
    TimedOwns(states[i], w, slack);
  }

  lemma TimedSince(states: seq<State>, labels: seq<Label>, j: nat, i: nat, w: Worker, r: RowId, token: Token,
      at: nat, slack: nat)
    requires Run(states, labels) && j < i < |states| && labels[j] == Outbox(w, SendStep.Claim(r, token, at, true))
    requires forall k | j < k <= i :: OnTime(states[k], w, slack)
    ensures Timed(states[i], w, slack)
  {
    Enters(states[j], w, r, token, at);
    forall k | j + 1 <= k < i && Timed(states[k], w, slack) && OnTime(states[k], w, slack)
            && OnTime(states[k + 1], w, slack)
      ensures Timed(states[k + 1], w, slack)
    {
      TimedStep(states[k], labels[k], w, slack);
    }
    ChainTimed(states, j + 1, i, w, slack);
  }

  lemma TimedOwns(s: State, w: Worker, slack: nat)
    requires slack <= 5 && ClaimInv(s) && SenderAt(s, w) && !s.pcs[w].phase.Done?
    requires Timed(s, w, slack) && OnTime(s, w, slack)
    ensures var c := s.pcs[w].claim;
      && s.db.now <= c.at + 40 + slack <= c.at + LEASE
      && c.row in s.db.rows && s.db.rows[c.row].attempts == c.attempts
      && (Owns(s.db.rows, c) || !s.db.rows[c.row].status.Open())
  {
    assert ClaimOk(s.db, s.pcs[w]);
  }

  lemma Enters(s: State, w: Worker, r: RowId, token: Token, at: nat)
    requires CanSend(s, w, SendStep.Claim(r, token, at, true))
    ensures var t := NextSend(s, w, SendStep.Claim(r, token, at, true));
      SenderAt(t, w) && t.pcs[w].phase.Claimed? && !t.pcs[w].locked
  {
  }

  ghost predicate Trying(s: State, w: Worker) {
    SenderAt(s, w) && s.pcs[w].phase.Confirmed? ==> s.pcs[w].phase.tries <= 4
  }

  lemma TryingStep(s: State, l: Label, w: Worker)
    requires Can(s, l) && Trying(s, w)
    ensures Trying(Next(s, l), w)
  {
    if l.Outbox? && l.w == w {
      TryingOwn(s, w, l.send);
    } else if SenderAt(Next(s, l), w) {
      SameProgram(s, l, w);
    }
  }

  lemma TryingOwn(s: State, w: Worker, l: SendStep)
    requires CanSend(s, w, l) && Trying(s, w)
    ensures Trying(NextSend(s, w, l), w)
  {
  }

  lemma {:induction false} ChainTrying(states: seq<State>, i: nat, w: Worker)
    requires i < |states| && states[0].pcs == map[]
    requires forall k | 0 <= k < i :: Trying(states[k], w) ==> Trying(states[k + 1], w)
    ensures Trying(states[i], w)
  {
    if i > 0 { ChainTrying(states, i - 1, w); assert Trying(states[i - 1 + 1], w); }
  }

  /** After an accepted message a worker makes at most five attempts to record it: whoever is about to make one
      has made at most four. */
  lemma FiveTries(states: seq<State>, labels: seq<Label>, i: nat, w: Worker)
    requires Run(states, labels) && i < |states| && SenderAt(states[i], w) && states[i].pcs[w].phase.Confirmed?
    ensures states[i].pcs[w].phase.tries <= 4
  {
    forall k | 0 <= k < i && Trying(states[k], w) ensures Trying(states[k + 1], w) {
      TryingStep(states[k], labels[k], w);
    }
    ChainTrying(states, i, w);
  }

  /** The margin of the claim check alone: a send that starts within the check's timeout of its NOW() and
      lasts no longer than the client timeout is over before the lease ends, however long the worker waited
      before and whatever happened to its lock session; nobody has taken the row over by then. */
  lemma SendEndsBeforeLease(states: seq<State>, labels: seq<Label>, k: nat, i: nat, w: Worker, checked: nat)
    requires Run(states, labels) && k < i < |states| && labels[k] == Outbox(w, BeginSend)
    requires states[k].pcs[w].checkedAt == Some(checked)
    requires forall m | k < m < i :: !StepOf(labels[m], w)
    requires states[k].db.now <= checked + CLAIM_CHECK_TIMEOUT && states[i].db.now <= states[k].db.now + CLIENT_TIMEOUT
    ensures SenderAt(states[k], w) && Sends.Sending(states[i], w) && states[i].pcs[w].claim == states[k].pcs[w].claim
    ensures var s, c := states[i], states[i].pcs[w].claim;
      s.db.now < c.at + LEASE && c.row in s.db.rows && s.db.rows[c.row].attempts == c.attempts
  {
    BeginsSending(states[k], w);
    forall m | k + 1 <= m < i ensures Stays(states[m], states[m + 1], w) { StepStays(states[m], labels[m], w); }
    ChainStays(states, k + 1, i, w);
    RunBase(states, labels, i);
    assert ClaimOk(states[i].db, states[i].pcs[w]);
    InFlightOwns(states[i], w);
  }

  lemma BeginsSending(s: State, w: Worker)
    requires CanSend(s, w, BeginSend)
    ensures var t := NextSend(s, w, BeginSend);
      Sends.Sending(t, w) && t.pcs[w].claim == s.pcs[w].claim && t.pcs[w].checkedAt == s.pcs[w].checkedAt
  {
  }
}
