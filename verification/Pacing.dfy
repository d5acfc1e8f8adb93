/** When the next claim, the next attempt and the next scheduled job become possible, over whole runs. */
module Pacing {
  import opened Policy
  import opened Tables
  import opened Machine
  import opened Claims
  import opened Views
  import opened Delivery
  import opened Safety
  import opened Stories

  /* ---- Rows ---- */

  /** The row was stored once, so its id is not used again. */
  ghost predicate Known(s: State, r: RowId) { r in s.db.rows || r in s.h.fate }

  /** Open, but not claimable at any time before this. */
  ghost predicate HeldBack(s: State, r: RowId, until: nat) {
    && Known(s, r)
    && (r in s.db.rows && s.db.rows[r].status.Open() ==>
          s.db.rows[r].nextAttempt >= until || UnderLease(s.db.rows[r], until))
  }

  ghost predicate UnderLease(row: Row, until: nat) {
    row.status.Sending? && row.claimedUntil.Some? && row.claimedUntil.value + 1 >= until
  }

  /** Nothing but an outcome transaction of its owner makes a held-back row claimable sooner. */
  lemma HeldStep(s: State, l: Label, r: RowId, until: nat)
    requires Inv(s) && Can(s, l) && HeldBack(s, r, until) && !RowCauseOf(s, l, r).RowOutcome?
    ensures HeldBack(Next(s, l), r, until)
  {
    RowStory(s, l, r);
    StepGrows(s, l);
    InvStep(s, l);
    HeldTold(s, Next(s, l), r, until, RowCauseOf(s, l, r));
  }

  lemma HeldTold(s: State, t: State, r: RowId, until: nat, cause: RowCause)
    requires FateInv(s.db, s.h.fate) && FateInv(t.db, t.h.fate) && Grows(s, t) && RowTold(s, t, r, cause)
    requires !cause.RowOutcome?
    requires HeldBack(s, r, until)
    ensures HeldBack(t, r, until)
  {
  }

  lemma {:induction false} ChainHeld(states: seq<State>, i: nat, j: nat, r: RowId, until: nat)
    requires i <= j < |states| && HeldBack(states[i], r, until)
    requires forall k | i <= k < j :: HeldBack(states[k], r, until) ==> HeldBack(states[k + 1], r, until)
    ensures HeldBack(states[j], r, until)
  {
    if i < j { ChainHeld(states, i, j - 1, r, until); assert HeldBack(states[j - 1 + 1], r, until); }
  }

  lemma StaysHeld(states: seq<State>, labels: seq<Label>, i: nat, j: nat, r: RowId, until: nat)
    requires Run(states, labels) && i <= j < |states| && HeldBack(states[i], r, until)
    requires forall k | i <= k < j :: !RowCauseOf(states[k], labels[k], r).RowOutcome?
    ensures HeldBack(states[j], r, until)
  {
    forall k | i <= k < j && HeldBack(states[k], r, until) ensures HeldBack(states[k + 1], r, until) {
      RunInv(states, labels, k);
      HeldStep(states[k], labels[k], r, until);
    }
    ChainHeld(states, i, j, r, until);
  }

  ghost predicate ClaimAt(l: Label, r: RowId, at: nat) {
    l.Outbox? && l.send.Claim? && l.send.r == r && l.send.at == at
  }

  lemma ClaimHolds(s: State, w: Worker, l: SendStep)
    requires CanSend(s, w, l) && l.Claim?
    ensures HeldBack(NextSend(s, w, l), l.r, l.at + LEASE + 1)
  {
  }

  lemma ClaimLate(s: State, w: Worker, l: SendStep, until: nat)
    requires CanSend(s, w, l) && l.Claim? && HeldBack(s, l.r, until)
    ensures l.at >= until
  {
  }

  /** Two claims of one row are more than a lease apart, unless an outcome was recorded in between. */
  lemma LeaseHolds(states: seq<State>, labels: seq<Label>, i: nat, j: nat, r: RowId, at: nat, later: nat)
    requires Run(states, labels) && i < j < |labels| && ClaimAt(labels[i], r, at) && ClaimAt(labels[j], r, later)
    requires forall k | i < k < j :: !RowCauseOf(states[k], labels[k], r).RowOutcome?
    ensures later > at + LEASE
  {
    ClaimHolds(states[i], labels[i].w, labels[i].send);
    StaysHeld(states, labels, i + 1, j, r, at + LEASE + 1);
    ClaimLate(states[j], labels[j].w, labels[j].send, at + LEASE + 1);
  }

  lemma RetryHolds(s: State, w: Worker, l: SendStep)
    requires CanSend(s, w, l) && OutcomeOf(s, w, l).Some? && OutcomeOf(s, w, l).value.Retry?
    ensures HeldBack(NextSend(s, w, l), s.pcs[w].claim.row, s.db.now + OutcomeOf(s, w, l).value.delay)
  {
    SendShape(s, w, l);
  }

  /** A row put back for a retry is not claimed again before its delay is over. */
  lemma RetryWaits(states: seq<State>, labels: seq<Label>, i: nat, j: nat, r: RowId, delay: nat, later: nat)
    requires Run(states, labels) && i < j < |labels| && labels[i].Outbox? && ClaimAt(labels[j], r, later)
    requires RowCauseOf(states[i], labels[i], r) == RowOutcome(Retry(delay))
    requires forall k | i < k < j :: !RowCauseOf(states[k], labels[k], r).RowOutcome?
    ensures later >= states[i].db.now + delay
  {
    RetryHolds(states[i], labels[i].w, labels[i].send);
    StaysHeld(states, labels, i + 1, j, r, states[i].db.now + delay);
    ClaimLate(states[j], labels[j].w, labels[j].send, states[i].db.now + delay);
  }

  /* ---- Scheduled jobs ---- */

  /** What a chat may not get before this time: cleared by the causes listed with each result below. */
  datatype Hold = CronHold | Cooldown | Silence

  ghost predicate Held(db: Db, chat: Chat, hold: Hold, until: nat) {
    && chat in db.subs
    && match hold {
         case CronHold => db.subs[chat].cronClaimedUntil.Some? && db.subs[chat].cronClaimedUntil.value + 1 >= until
         case Cooldown => db.subs[chat].suspendedUntil.Some? && db.subs[chat].suspendedUntil.value >= until
         case Silence => !db.subs[chat].subscribed
       }
  }

  /** The causes that end a hold. */
  ghost predicate Ends(cause: SubCause, hold: Hold) {
    match hold
    case CronHold => cause.SubOutcome? || (cause.SubCommand? && cause.cmd.Unsubscribe?)
    case Cooldown =>
      || (cause.SubOutcome? && (cause.v.Delivered? || cause.v == Fail(true)))
      || (cause.SubCommand? && (cause.cmd.Subscribe? || cause.cmd.Unsubscribe?))
    case Silence => cause.SubCommand? && cause.cmd.Subscribe?
  }

  lemma HoldTold(s: State, t: State, chat: Chat, cause: SubCause, hold: Hold, until: nat)
    requires SubTold(s, t, chat, cause) && Held(s.db, chat, hold, until) && !Ends(cause, hold)
    requires cause.SubCron? ==> cause.at + CRON_CLAIM + 1 >= until
    requires hold.Cooldown? && cause.SubOutcome? && cause.v == Fail(false) ==> s.db.now + FAILURE_COOLDOWN >= until
    ensures Held(t.db, chat, hold, until)
  {
  }

  /** A cron run respects every hold. */
  lemma CronLate(s: State, chat: Chat, id: nat, at: nat, hold: Hold, until: nat)
    requires CanWorld(s, Cron(chat, id, at)) && Held(s.db, chat, hold, until)
    ensures !hold.Silence? && at >= until
  {
  }

  lemma HoldStep(s: State, l: Label, chat: Chat, hold: Hold, until: nat, from: nat)
    requires Can(s, l) && Held(s.db, chat, hold, until) && !Ends(CauseOf(s, l, chat), hold)
    requires from <= s.db.now && (hold.Cooldown? ==> until <= from + FAILURE_COOLDOWN)
    ensures Held(Next(s, l).db, chat, hold, until)
  {
    SubStory(s, l, chat);
    if CauseOf(s, l, chat).SubCron? { CronLate(s, chat, l.world.id, l.world.at, hold, until); }
    HoldTold(s, Next(s, l), chat, CauseOf(s, l, chat), hold, until);
  }

  lemma {:induction false} ChainHold(states: seq<State>, i: nat, j: nat, chat: Chat, hold: Hold, until: nat)
    requires i <= j < |states| && Held(states[i].db, chat, hold, until)
    requires forall k | i <= k < j ::
      Held(states[k].db, chat, hold, until) ==> Held(states[k + 1].db, chat, hold, until)
    ensures Held(states[j].db, chat, hold, until)
  {
    if i < j { ChainHold(states, i, j - 1, chat, hold, until); assert Held(states[j - 1 + 1].db, chat, hold, until); }
  }

  lemma StaysOnHold(states: seq<State>, labels: seq<Label>, i: nat, j: nat, chat: Chat, hold: Hold, until: nat)
    requires Run(states, labels) && i <= j < |states| && Held(states[i].db, chat, hold, until)
    requires hold.Cooldown? ==> until <= states[i].db.now + FAILURE_COOLDOWN
    requires forall k | i <= k < j :: !Ends(CauseOf(states[k], labels[k], chat), hold)
    ensures Held(states[j].db, chat, hold, until)
  {
    forall k | i <= k < j && Held(states[k].db, chat, hold, until) ensures Held(states[k + 1].db, chat, hold, until) {
      Forever(states, labels, i, k);
      HoldStep(states[k], labels[k], chat, hold, until, states[i].db.now);
    }
    ChainHold(states, i, j, chat, hold, until);
  }

  /** Two cron jobs of one chat are more than fifteen minutes apart, unless an outcome or an unsubscription
      of the chat was committed in between. */
  lemma CronSpacing(states: seq<State>, labels: seq<Label>, i: nat, j: nat, chat: Chat, id: nat, at: nat, id': nat,
      later: nat)
    requires Run(states, labels) && i < j < |labels|
    requires labels[i] == World(Cron(chat, id, at)) && labels[j] == World(Cron(chat, id', later))
    requires forall k | i < k < j :: !Ends(CauseOf(states[k], labels[k], chat), CronHold)
    ensures later > at + 900
  {
    CronClaims(states[i], chat, id, at);
    StaysOnHold(states, labels, i + 1, j, chat, CronHold, at + CRON_CLAIM + 1);
    CronLate(states[j], chat, id', later, CronHold, at + CRON_CLAIM + 1);
  }

  lemma CronClaims(s: State, chat: Chat, id: nat, at: nat)
    requires CanWorld(s, Cron(chat, id, at))
    ensures Held(NextWorld(s, Cron(chat, id, at)).db, chat, CronHold, at + CRON_CLAIM + 1)
  {
  }

  /** After a delivery that failed for the last time a chat gets no scheduled job for fifteen minutes, unless
      it is delivered to, unsubscribed or subscribed in between. */
  lemma FailureSuspends(states: seq<State>, labels: seq<Label>, i: nat, j: nat, chat: Chat, slot: nat, id: nat, at: nat)
    requires Run(states, labels) && i < j < |labels| && labels[j] == World(Cron(chat, id, at))
    requires chat in states[i].db.subs
    requires CauseOf(states[i], labels[i], chat) == SubOutcome(Fail(false), slot)
    requires forall k | i < k < j :: !Ends(CauseOf(states[k], labels[k], chat), Cooldown)
    ensures at >= states[i].db.now + 900
  {
    SubStory(states[i], labels[i], chat);
    Forever(states, labels, i, i + 1);
    StaysOnHold(states, labels, i + 1, j, chat, Cooldown, states[i].db.now + FAILURE_COOLDOWN);
    CronLate(states[j], chat, id, at, Cooldown, states[i].db.now + FAILURE_COOLDOWN);
  }

  /** A chat that was unsubscribed, by its own command or by a permanent failure, gets no scheduled job until
      a /subscribe of it takes effect. */
  lemma SilentUntilSubscribed(states: seq<State>, labels: seq<Label>, i: nat, j: nat, chat: Chat, id: nat, at: nat)
    requires Run(states, labels) && i < j < |labels| && chat in states[i].db.subs
    requires var cause := CauseOf(states[i], labels[i], chat);
      (cause.SubOutcome? && cause.v == Fail(true)) || (cause.SubCommand? && cause.cmd.Unsubscribe?)
    requires forall k | i < k < j :: !Ends(CauseOf(states[k], labels[k], chat), Silence)
    ensures labels[j] != World(Cron(chat, id, at))
  {
    SubStory(states[i], labels[i], chat);
    StaysOnHold(states, labels, i + 1, j, chat, Silence, 0);
    if labels[j] == World(Cron(chat, id, at)) { CronLate(states[j], chat, id, at, Silence, 0); }
  }

  /* ---- Cancellation ---- */

  /** Canceling an alert that is open closes it for good: its slot is free and no open job of it is left. */
  lemma WithdrawCloses(db: Db, chat: Chat, a: nat, view: View)
    requires EnabledInv(db) && a in OpenAlerts(db, chat) && a in view.open
    ensures var db' := WithdrawAlert(db, chat, a, view);
      && OpenAlerts(db', chat) == OpenAlerts(db, chat) - {a}
      && forall r | r in db'.rows && db'.rows[r].kind == PriceAlert(a) :: !db'.rows[r].status.Open()
  {
    var db' := WithdrawAlert(db, chat, a, view);
    forall r | r in db'.rows && db'.rows[r].kind == PriceAlert(a) ensures !db'.rows[r].status.Open() {
      assert AlertJobOk(db, r);
    }
    forall b | b in db.alerts && b != a ensures OpenAlert(db', b) <==> OpenAlert(db, b) {
      if exists r | r in db.rows :: db.rows[r].kind == PriceAlert(b) && db.rows[r].status.Open() {
        var r :| r in db.rows && db.rows[r].kind == PriceAlert(b) && db.rows[r].status.Open();
        assert db'.rows[r] == db.rows[r];
      }
    }
  }
}
