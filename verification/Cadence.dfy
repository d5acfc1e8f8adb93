/** Scheduled notifications keep their distance: what last_sent, the open job and the next cron job of a chat
    have to do with a job that was delivered before. */
module Cadence {
  import opened Policy
  import opened Tables
  import opened Machine
  import opened Claims
  import opened Views
  import opened Delivery
  import opened Safety
  import opened Stories

  /** The slot of a delivered job lies behind: last_sent is not before it, and every open scheduled job of its
      chat belongs to a later minute. */
  ghost predicate Passed(db: Db, chat: Chat, at: int) {
    && chat in db.subs && Minute(at) <= Minute(db.subs[chat].lastSent)
    && forall r | OpenScheduled(db, r) && db.rows[r].chat == chat :: Minute(at) < Minute(db.rows[r].scheduledAt)
  }

  /** An interval change that takes effect. */
  ghost predicate Rescheduled(cause: SubCause, sub: Sub) {
    cause.SubCommand? && cause.cmd.SetInterval? && 1 <= cause.cmd.minutes <= 1440 && sub.subscribed
  }

  /** An interval change that takes effect although it began before this minute. */
  ghost predicate SetsBack(s: State, l: Label, chat: Chat, at: int)
    requires Can(s, l)
  {
    var cause := CauseOf(s, l, chat);
    chat in s.db.subs && Rescheduled(cause, s.db.subs[chat]) && Minute(cause.view.began) < Minute(at)
  }

  /** In an untainted chat nothing was sent behind the start of a transaction. */
  lemma ChangeIsCurrent(s: State, l: Label, chat: Chat)
    requires ViewInv(s) && Can(s, l) && chat in s.db.subs
    ensures var cause := CauseOf(s, l, chat);
      chat !in s.h.tainted && cause.SubCommand? ==> s.db.subs[chat].lastSent <= cause.view.began
  {
    if l.Inbox? && HandlerAt(s, l.w) && s.pcs[l.w].update.chat !in s.h.tainted { assert Current(s, l.w); }
  }

  /** An outcome reaches a subscriber through an open scheduled job of the chat. */
  lemma OutcomeIsOpen(s: State, l: Label, chat: Chat)
    requires ClaimInv(s) && Can(s, l)
    ensures var cause := CauseOf(s, l, chat); cause.SubOutcome? ==>
      && l.Outbox? && SenderAt(s, l.w) && OpenScheduled(s.db, s.pcs[l.w].claim.row)
      && s.db.rows[s.pcs[l.w].claim.row].chat == chat && s.db.rows[s.pcs[l.w].claim.row].scheduledAt == cause.at
  {
    if l.Outbox? && OutcomeOf(s, l.w, l.send).Some? {
      SendShape(s, l.w, l.send);
      assert ClaimOk(s.db, s.pcs[l.w]);
    }
  }

  /** last_sent moves past a passed slot, to the minute of an open job or to the start of a transaction, unless
      that began before it. */
  lemma PassedSub(s: State, l: Label, chat: Chat, at: int)
    requires ClaimInv(s) && Can(s, l) && Passed(s.db, chat, at)
    ensures chat in Next(s, l).db.subs
    ensures Minute(at) <= Minute(Next(s, l).db.subs[chat].lastSent) <==> !SetsBack(s, l, chat, at)
  {
    SubStory(s, l, chat);
    OutcomeIsOpen(s, l, chat);
    PassedTold(s.db.subs[chat], CauseOf(s, l, chat), s.db.now, at);
  }

  lemma PassedTold(sub: Sub, cause: SubCause, now: nat, at: int)
    requires Minute(at) <= Minute(sub.lastSent) && (cause.SubOutcome? ==> Minute(at) < Minute(cause.at))
    ensures Minute(at) <= Minute(SubAfter(sub, cause, now).lastSent) <==>
      !(Rescheduled(cause, sub) && Minute(cause.view.began) < Minute(at))
  {
  }

  /** A scheduled job that stays open keeps its chat and its slot. */
  lemma StillScheduled(s: State, t: State, r: RowId, cause: RowCause)
    requires EnabledInv(s.db) && r in s.db.rows && RowTold(s, t, r, cause) && OpenScheduled(t.db, r)
    ensures OpenScheduled(s.db, r) && s.db.rows[r].chat in s.db.subs
    ensures s.db.rows[r].chat == t.db.rows[r].chat && s.db.rows[r].scheduledAt == t.db.rows[r].scheduledAt
  {
    assert OpenScheduled(s.db, r);
  }

  /** A scheduled job appears only when its chat is due: at least the interval after last_sent. */
  lemma CronIsLater(s: State, chat: Chat, id: nat, at: nat)
    requires TimeInv(s.db) && CanWorld(s, Cron(chat, id, at))
    ensures var db' := NextWorld(s, Cron(chat, id, at)).db;
      && Job(id) in db'.rows && db'.rows[Job(id)].chat == chat && db'.rows[Job(id)].scheduledAt == at
      && chat in s.db.subs && Minute(s.db.subs[chat].lastSent) + s.db.subs[chat].interval <= Minute(at)
      && s.db.subs[chat].interval >= 1
  {
  }

  lemma PassedRow(s: State, l: Label, chat: Chat, at: int, r: RowId)
    requires RowsInv(s.db) && DrawInv(s) && EnabledInv(s.db) && TimeInv(s.db) && Can(s, l) && Passed(s.db, chat, at)
    requires OpenScheduled(Next(s, l).db, r) && Next(s, l).db.rows[r].chat == chat
    ensures Minute(at) < Minute(Next(s, l).db.rows[r].scheduledAt)
  {
    if r in s.db.rows {
      RowStory(s, l, r);
      StillScheduled(s, Next(s, l), r, RowCauseOf(s, l, r));
    } else {
      ScheduledStory(s, l, r);
      CronIsLater(s, l.world.chat, l.world.id, l.world.at);
    }
  }

  /** Every step leaves a passed slot passed, if and only if it does not set the chat back behind it. */
  lemma PassedStep(s: State, l: Label, chat: Chat, at: int)
    requires Inv(s) && Can(s, l) && Passed(s.db, chat, at)
    ensures Passed(Next(s, l).db, chat, at) <==> !SetsBack(s, l, chat, at)
  {
    PassedSub(s, l, chat, at);
    forall r | OpenScheduled(Next(s, l).db, r) && Next(s, l).db.rows[r].chat == chat
      ensures Minute(at) < Minute(Next(s, l).db.rows[r].scheduledAt)
    {
      PassedRow(s, l, chat, at, r);
    }
  }

  /** That needs a tainted chat. */
  lemma SetBackIsTorn(s: State, l: Label, chat: Chat, at: int)
    requires ViewInv(s) && Can(s, l) && Passed(s.db, chat, at) && SetsBack(s, l, chat, at)
    ensures chat in s.h.tainted
  {
    ChangeIsCurrent(s, l, chat);
  }

  /** And it costs the distance: with nothing else in its way, the chat is now due less than the interval after
      the slot. */
  lemma DueTooSoon(s: State, l: Label, chat: Chat, slot: nat) returns (at: nat)
    requires RowsInv(s.db) && DrawInv(s) && Can(s, l) && SetsBack(s, l, chat, slot)
    requires s.db.subs[chat].cronClaimedUntil.None? && s.db.subs[chat].suspendedUntil.None?
    requires forall r | OpenScheduled(s.db, r) :: s.db.rows[r].chat != chat
    ensures var db := Next(s, l).db; Due(db, chat, at) && Minute(at) < Minute(slot) + db.subs[chat].interval
  {
    SubStory(s, l, chat);
    var db := Next(s, l).db;
    at := 60 * (Minute(db.subs[chat].lastSent) + db.subs[chat].interval);
    forall r | OpenScheduled(db, r) ensures db.rows[r].chat != chat { OpensNone(s, l, chat, r); }
  }

  /** Whoever changes an interval opens no job. */
  lemma OpensNone(s: State, l: Label, chat: Chat, r: RowId)
    requires RowsInv(s.db) && DrawInv(s) && Can(s, l) && l.Inbox? && OpenScheduled(Next(s, l).db, r)
    requires forall q | OpenScheduled(s.db, q) :: s.db.rows[q].chat != chat
    ensures Next(s, l).db.rows[r].chat != chat
  {
    ScheduledStory(s, l, r);
    RowStory(s, l, r);
    if Next(s, l).db.rows[r].chat == chat { OpenBefore(s, Next(s, l), r, RowCauseOf(s, l, r)); }
  }

  lemma OpenBefore(s: State, t: State, r: RowId, cause: RowCause)
    requires r in s.db.rows && RowTold(s, t, r, cause) && OpenScheduled(t.db, r)
    ensures OpenScheduled(s.db, r) && s.db.rows[r].chat == t.db.rows[r].chat
  {
  }

  /** A step that records the delivery of a scheduled job of this slot. */
  ghost predicate DeliversSlot(s: State, l: Label, chat: Chat, at: nat)
    requires Can(s, l)
  {
    CauseOf(s, l, chat) == SubOutcome(Delivered, at)
  }

  /** A delivery moves last_sent to its own slot, perhaps back, and leaves no scheduled job open. */
  lemma DeliveryPasses(s: State, l: Label, chat: Chat, at: nat)
    requires ClaimInv(s) && EnabledInv(s.db) && Can(s, l) && DeliversSlot(s, l, chat, at)
    ensures Passed(Next(s, l).db, chat, at)
  {
    OutcomeIsOpen(s, l, chat);
    SendShape(s, l.w, l.send);
    PassesOwn(s.db, s.pcs[l.w].claim);
  }

  lemma PassesOwn(db: Db, c: Claim)
    requires EnabledInv(db) && Owns(db.rows, c) && c.kind.Scheduled? && OpenScheduled(db, c.row)
    requires db.rows[c.row].chat == c.chat && db.rows[c.row].scheduledAt == c.scheduledAt
    ensures Passed(Settle(db, c, Delivered), c.chat, c.scheduledAt)
  {
    var db' := Settle(db, c, Delivered);
    forall r | OpenScheduled(db', r) ensures OpenScheduled(db, r) && db'.rows[r] == db.rows[r] && r != c.row {}
  }

  /** In every step of every run: a passed slot stops being passed if and only if the step lets an interval change
      take effect that began before it. That needs a tainted chat. */
  lemma SlotLost(states: seq<State>, labels: seq<Label>, k: nat, chat: Chat, slot: nat)
    requires Run(states, labels) && k < |labels| && Passed(states[k].db, chat, slot)
    ensures !Passed(states[k + 1].db, chat, slot) <==> SetsBack(states[k], labels[k], chat, slot)
    ensures SetsBack(states[k], labels[k], chat, slot) ==> chat in states[k].h.tainted
  {
    RunInv(states, labels, k);
    PassedStep(states[k], labels[k], chat, slot);
    if SetsBack(states[k], labels[k], chat, slot) { SetBackIsTorn(states[k], labels[k], chat, slot); }
  }

  lemma DeliveredAt(states: seq<State>, labels: seq<Label>, k: nat, chat: Chat, slot: nat)
    requires Run(states, labels) && k < |labels| && DeliversSlot(states[k], labels[k], chat, slot)
    ensures Passed(states[k + 1].db, chat, slot)
  {
    RunBase(states, labels, k);
    RunJobs(states, labels, k);
    DeliveryPasses(states[k], labels[k], chat, slot);
  }

  lemma {:induction false} StaysPassed(states: seq<State>, labels: seq<Label>, i: nat, j: nat, chat: Chat, slot: nat)
    requires Run(states, labels) && i < j < |states| && DeliversSlot(states[i], labels[i], chat, slot)
    requires forall k | i < k < j :: !SetsBack(states[k], labels[k], chat, slot)
    ensures Passed(states[j].db, chat, slot)
  {
    if j == i + 1 {
      DeliveredAt(states, labels, i, chat, slot);
    } else {
      StaysPassed(states, labels, i, j - 1, chat, slot);
      SlotLost(states, labels, j - 1, chat, slot);
    }
  }

  /** From a delivery on, its slot stays passed exactly as long as no interval change that began before it
      takes effect. */
  lemma PassedUntilSetBack(states: seq<State>, labels: seq<Label>, i: nat, j: nat, chat: Chat, slot: nat)
    requires Run(states, labels) && i < j < |states| && DeliversSlot(states[i], labels[i], chat, slot)
    ensures (forall m | i < m <= j :: Passed(states[m].db, chat, slot)) <==>
      (forall k | i < k < j :: !SetsBack(states[k], labels[k], chat, slot))
  {
    if forall k | i < k < j :: !SetsBack(states[k], labels[k], chat, slot) {
      forall m | i < m <= j ensures Passed(states[m].db, chat, slot) { StaysPassed(states, labels, i, m, chat, slot); }
    }
    if forall m | i < m <= j :: Passed(states[m].db, chat, slot) {
      forall k | i < k < j ensures !SetsBack(states[k], labels[k], chat, slot) {
        SlotLost(states, labels, k, chat, slot);
      }
    }
  }

  /** A scheduled job created after another one of its chat was delivered lies at least the interval then in
      force later, however last_sent moved in between, unless an interval change that began before the
      delivered minute took effect in between. */
  lemma KeepsDistance(states: seq<State>, labels: seq<Label>, i: nat, j: nat, chat: Chat, slot: nat, id: nat, at: nat)
    requires Run(states, labels) && i < j < |labels| && labels[j] == World(Cron(chat, id, at))
    requires DeliversSlot(states[i], labels[i], chat, slot)
    requires forall k | i < k < j :: !SetsBack(states[k], labels[k], chat, slot)
    ensures chat in states[j].db.subs && Minute(slot) + states[j].db.subs[chat].interval <= Minute(at)
  {
    StaysPassed(states, labels, i, j, chat, slot);
    RunJobs(states, labels, j);
    CronIsLater(states[j], chat, id, at);
  }

  /* ---- From the stored row ---- */

  ghost predicate SentSlot(db: Db, r: RowId, chat: Chat, slot: nat) {
    && r in db.rows && db.rows[r].kind.Scheduled? && db.rows[r].status.Sent?
    && db.rows[r].chat == chat && db.rows[r].scheduledAt == slot
  }

  /** Every scheduled job that is stored as sent was delivered by one of the steps before. */
  lemma {:induction false} SentWasDelivered(states: seq<State>, labels: seq<Label>, i: nat, r: RowId, chat: Chat,
      slot: nat)
      returns (k: nat)
    requires Run(states, labels) && i < |states| && SentSlot(states[i].db, r, chat, slot)
    ensures k < i && DeliversSlot(states[k], labels[k], chat, slot)
  {
    k := i - 1;
    RunInv(states, labels, k);
    SentBefore(states[k], labels[k], r, chat, slot);
    if SentSlot(states[k].db, r, chat, slot) { k := SentWasDelivered(states, labels, k, r, chat, slot); }
  }

  lemma SentBefore(s: State, l: Label, r: RowId, chat: Chat, slot: nat)
    requires RowsInv(s.db) && DrawInv(s) && ClaimInv(s) && Can(s, l) && SentSlot(Next(s, l).db, r, chat, slot)
    ensures SentSlot(s.db, r, chat, slot) || DeliversSlot(s, l, chat, slot)
  {
    ScheduledStory(s, l, r);
    RowStory(s, l, r);
    if r in s.db.rows { SentTold(s, Next(s, l), r, RowCauseOf(s, l, r)); }
    if r in s.db.rows && RowCauseOf(s, l, r).RowOutcome? { assert ClaimOk(s.db, s.pcs[l.w]); }
  }

  lemma SentTold(s: State, t: State, r: RowId, cause: RowCause)
    requires r in s.db.rows && RowTold(s, t, r, cause) && r in t.db.rows && t.db.rows[r].status.Sent?
    ensures s.db.rows[r].kind == t.db.rows[r].kind && s.db.rows[r].chat == t.db.rows[r].chat
    ensures s.db.rows[r].scheduledAt == t.db.rows[r].scheduledAt
    ensures s.db.rows[r].status.Sent? || (cause.RowOutcome? && cause.v.Delivered?)
  {
  }

  /** The same between a stored sent job and a new one; only changes after the delivery matter. */
  lemma Spacing(states: seq<State>, labels: seq<Label>, i: nat, j: nat, r: RowId, chat: Chat, slot: nat, id: nat,
      at: nat) returns (d: nat)
    requires Run(states, labels) && i <= j < |labels| && labels[j] == World(Cron(chat, id, at))
    requires SentSlot(states[i].db, r, chat, slot)
    ensures d < i && DeliversSlot(states[d], labels[d], chat, slot)
    ensures (forall k | d < k < j :: !SetsBack(states[k], labels[k], chat, slot)) ==>
      chat in states[j].db.subs && Minute(slot) + states[j].db.subs[chat].interval <= Minute(at)
  {
    d := SentWasDelivered(states, labels, i, r, chat, slot);
    if forall k | d < k < j :: !SetsBack(states[k], labels[k], chat, slot) {
      KeepsDistance(states, labels, d, j, chat, slot, id, at);
    }
  }
}
