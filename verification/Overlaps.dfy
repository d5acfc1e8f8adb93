/** What the protocol does not promise: the obvious bounds that some run breaks, and where. */
module Overlaps {
  import opened Policy
  import opened Tables
  import opened Machine
  import opened Claims
  import opened Views
  import opened Delivery
  import opened Safety
  import opened Stories
  import opened Cadence
  import Erasure
  import Sends

  /* ---- Attempts have no upper bound ---- */

  lemma {:induction false} Above(S: set<int>) returns (b: nat)
    ensures forall x | x in S :: x < b
  {
    b := 0;
    if x :| x in S {
      b := Above(S - {x});
      assert S == (S - {x}) + {x};
      if x >= b { b := x + 1; }
    }
  }

  lemma FreshNames(s: State) returns (w: Worker, token: Token)
    ensures w !in s.pcs && FreshToken(s, token)
  {
    w := Above(s.pcs.Keys);
    var used := set r | r in s.db.rows && s.db.rows[r].token.Some? :: s.db.rows[r].token.value;
    var held := set v | v in s.pcs && s.pcs[v].Sender? :: s.pcs[v].claim.token;
    token := Above(used + held);
    forall r | r in s.db.rows ensures s.db.rows[r].token != Some(token) {
      if s.db.rows[r].token.Some? { assert s.db.rows[r].token.value in used; }
    }
    forall v | SenderAt(s, v) ensures s.pcs[v].claim.token != token { assert s.pcs[v].claim.token in held; }
  }

  ghost predicate Idle(s: State, r: RowId) {
    r.Job? && r in s.db.rows && s.db.rows[r].status.Open() && ChatFree(s, s.db.rows[r].chat)
  }

  lemma ClaimNow(s: State, r: RowId, w: Worker, token: Token)
    requires Idle(s, r) && w !in s.pcs && FreshToken(s, token) && s.db.rows[r].nextAttempt <= s.db.now
    requires s.db.rows[r].claimedUntil.Some? ==> s.db.rows[r].claimedUntil.value < s.db.now
    ensures var l := SendStep.Claim(r, token, s.db.now, false);
      && CanSend(s, w, l)
      && Idle(NextSend(s, w, l), r) && NextSend(s, w, l).db.rows[r].attempts == s.db.rows[r].attempts + 1
  {
  }

  /** As late as it takes for the last claim to run out. */
  lemma ClaimAgain(s: State, r: RowId) returns (now: nat, w: Worker, claim: SendStep)
    requires Idle(s, r)
    ensures now > s.db.now
    ensures var later := s.(db := s.db.(now := now));
      && CanSend(later, w, claim)
      && Idle(NextSend(later, w, claim), r)
      && NextSend(later, w, claim).db.rows[r].attempts == s.db.rows[r].attempts + 1
  {
    var row := s.db.rows[r];
    now := s.db.now + row.nextAttempt + 1 + if row.claimedUntil.Some? then row.claimedUntil.value else 0;
    var token;
    w, token := FreshNames(s.(db := s.db.(now := now)));
    claim := SendStep.Claim(r, token, now, false);
    ClaimNow(s.(db := s.db.(now := now)), r, w, token);
  }

  lemma Waits(s: State, now: nat)
    requires now > s.db.now
    ensures CanWorld(s, Tick(now)) && NextWorld(s, Tick(now)) == s.(db := s.db.(now := now))
  {
  }

  /** From every state in which a notification job is open and its chat free, the attempts of that
      job can grow beyond any number: a claim never looks at the limit of three. */
  lemma {:induction false} AttemptsUnbounded(states: seq<State>, labels: seq<Label>, r: RowId, n: nat)
      returns (more: seq<State>, steps: seq<Label>)
    requires Run(states, labels) && Idle(states[|labels|], r)
    ensures Run(more, steps) && states <= more && labels <= steps
    ensures Idle(more[|steps|], r) && more[|steps|].db.rows[r].attempts >= n
  {
    more, steps := states, labels;
    if n > 0 {
      more, steps := AttemptsUnbounded(states, labels, r, n - 1);
      var last := more[|steps|];
      var now, w, claim := ClaimAgain(last, r);
      Waits(last, now);
      Erasure.RunExtends(more, steps, World(Tick(now)));
      more, steps := more + [last.(db := last.db.(now := now))], steps + [World(Tick(now))];
      Erasure.RunExtends(more, steps, Outbox(w, claim));
      more, steps := more + [NextSend(more[|steps|], w, claim)], steps + [Outbox(w, claim)];
    }
  }

  /* ---- Two updates of one chat in progress ---- */

  ghost predicate Earlier(db: Db, a: int, b: int) {
    && a in db.updates && b in db.updates && db.updates[a].chat == db.updates[b].chat
    && Version(db.updates[a].epoch, a).Before(Version(db.updates[b].epoch, b))
  }

  /** A save of update `a` while update `b` is in progress under this claim. */
  ghost predicate LateSave(s: State, l: Label, a: int, b: int, attempts: nat) {
    a !in s.db.updates && l.World? && l.world.Save? && l.world.u == a && InProgress(s.db, b, attempts)
  }

  /** Two updates of one chat overlap only if the earlier one arrived late: it was saved while the later one
      was already being processed under the claim it still has. */
  lemma {:induction false} OverlapsOnlyIfLate(states: seq<State>, labels: seq<Label>, i: nat, a: int, b: int,
      attempts: nat) returns (k: nat)
    requires Run(states, labels) && i < |states| && OpenUpdate(states[i].db, a)
    requires InProgress(states[i].db, b, attempts) && Earlier(states[i].db, a, b)
    ensures k < i && LateSave(states[k], labels[k], a, b, attempts)
    ensures forall m | k <= m <= i :: InProgress(states[m].db, b, attempts)
  {
    k := i - 1;
    OverlapBefore(states[k], labels[k], a, b, attempts);
    if !LateSave(states[k], labels[k], a, b, attempts) {
      k := OverlapsOnlyIfLate(states, labels, k, a, b, attempts);
    }
  }

  lemma OverlapBefore(s: State, l: Label, a: int, b: int, attempts: nat)
    requires Can(s, l) && OpenUpdate(Next(s, l).db, a) && InProgress(Next(s, l).db, b, attempts)
    requires Earlier(Next(s, l).db, a, b)
    ensures InProgress(s.db, b, attempts)
    ensures LateSave(s, l, a, b, attempts) || (OpenUpdate(s.db, a) && Earlier(s.db, a, b))
  {
    UpdateStory(s, l, a);
    UpdateStory(s, l, b);
    TakenNotLate(s, Next(s, l), l, a, b, attempts);
  }

  lemma TakenNotLate(s: State, t: State, l: Label, a: int, b: int, attempts: nat)
    requires OpenedBy(s, t, l, a) && TakenBy(s, t, l, b) && OpenedBy(s, t, l, b)
    requires OpenUpdate(t.db, a) && InProgress(t.db, b, attempts) && Earlier(t.db, a, b)
    ensures InProgress(s.db, b, attempts)
    ensures LateSave(s, l, a, b, attempts) || (OpenUpdate(s.db, a) && Earlier(s.db, a, b))
  {
    assert InProgress(t.db, b, attempts);
  }

  /** And it does happen: whenever an update in progress has no earlier open one, a smaller id saved now can
      be claimed at once, next to it. */
  lemma LateArrivalOverlaps(s: State, w: Worker, u: int, late: int, command: Command)
    requires u in s.db.updates && s.db.updates[u].status.Processing? && late < u && late !in s.db.updates && w !in s.pcs
    requires s.db.updates[u].epoch == s.db.epoch && s.db.lastReceived + EPOCH_GAP >= s.db.now
    requires forall e | OpenUpdate(s.db, e) && s.db.updates[e].chat == s.db.updates[u].chat && e != u ::
      Earlier(s.db, u, e)
    ensures var save, take := Save(late, s.db.updates[u].chat, command), Take(late, s.db.now, true);
      && CanWorld(s, save) && CanHandle(NextWorld(s, save), w, take)
      && var t := NextHandle(NextWorld(s, save), w, take);
         InProgress(t.db, u, s.db.updates[u].attempts) && InProgress(t.db, late, 1) && Earlier(t.db, late, u)
  {
    forall e | OpenUpdate(s.db, e) && s.db.updates[e].chat == s.db.updates[u].chat
      ensures !Version(s.db.updates[e].epoch, e).Before(Version(s.db.epoch, late))
    {
      if e != u { assert Earlier(s.db, u, e); }
    }
  }

  /* ---- last_sent can move back ---- */

  ghost predicate Delivers(cause: SubCause, before: int) {
    cause.SubOutcome? && cause.v.Delivered? && 60 * Minute(cause.at) < before
  }

  /** In every step of every run: last_sent of a chat falls if and only if the step records the delivery of
      a job from an earlier minute, or lets an interval change take effect that began before last_sent. The
      latter needs a tainted chat. */
  lemma LastSentFalls(states: seq<State>, labels: seq<Label>, i: nat, chat: Chat)
    requires Run(states, labels) && i < |labels| && chat in states[i].db.subs
    ensures chat in states[i + 1].db.subs
    ensures var sub, cause := states[i].db.subs[chat], CauseOf(states[i], labels[i], chat);
      && (states[i + 1].db.subs[chat].lastSent < sub.lastSent <==>
            Delivers(cause, sub.lastSent) || (Rescheduled(cause, sub) && cause.view.began < sub.lastSent))
      && (chat !in states[i].h.tainted && Rescheduled(cause, sub) ==> sub.lastSent <= cause.view.began)
  {
    RunJobs(states, labels, i);
    SubStory(states[i], labels[i], chat);
    LastSentTold(states[i].db.subs[chat], CauseOf(states[i], labels[i], chat), states[i].db.now);
    ChangeIsCurrent(states[i], labels[i], chat);
  }

  lemma LastSentTold(sub: Sub, cause: SubCause, now: nat)
    ensures SubAfter(sub, cause, now).lastSent < sub.lastSent <==>
      Delivers(cause, sub.lastSent) || (Rescheduled(cause, sub) && cause.view.began < sub.lastSent)
  {
  }

  /** As long as a scheduled job is open, last_sent lies before its minute, unless an interval change took
      effect while the job was open. */
  lemma {:induction false} ChangedMeanwhile(states: seq<State>, labels: seq<Label>, i: nat, r: RowId) returns (k: nat)
    requires Run(states, labels) && i < |states| && Overtaken(states[i].db, r)
    ensures k < i && OpenScheduled(states[k].db, r) && states[k].db.rows[r].chat in states[k].db.subs
    ensures var chat := states[k].db.rows[r].chat;
      states[i].db.rows[r].chat == chat && Rescheduled(CauseOf(states[k], labels[k], chat), states[k].db.subs[chat])
  {
    k := i - 1;
    RunInv(states, labels, k);
    RunInv(states, labels, i);
    OvertakenBefore(states[k], labels[k], r);
    if Overtaken(states[k].db, r) { k := ChangedMeanwhile(states, labels, k, r); }
  }

  ghost predicate Overtaken(db: Db, r: RowId) {
    && OpenScheduled(db, r) && db.rows[r].chat in db.subs
    && db.subs[db.rows[r].chat].lastSent >= 60 * Minute(db.rows[r].scheduledAt)
  }

  lemma OvertakenBefore(s: State, l: Label, r: RowId)
    requires Inv(s) && Can(s, l) && Overtaken(Next(s, l).db, r)
    ensures OpenScheduled(s.db, r) && s.db.rows[r].chat in s.db.subs && s.db.rows[r].chat == Next(s, l).db.rows[r].chat
    ensures Overtaken(s.db, r) || Rescheduled(CauseOf(s, l, s.db.rows[r].chat), s.db.subs[s.db.rows[r].chat])
  {
    ScheduledStory(s, l, r);
    if r !in s.db.rows { CronIsNew(s, l.world.chat, l.world.id, l.world.at); }
    RowStory(s, l, r);
    StillScheduled(s, Next(s, l), r, RowCauseOf(s, l, r));
    SubStory(s, l, s.db.rows[r].chat);
    DeliversOther(s, l, r);
    OvertakenTold(s, Next(s, l), r, CauseOf(s, l, s.db.rows[r].chat));
  }

  /** A scheduled job appears only when its chat is due, that is with last_sent before its minute. */
  lemma CronIsNew(s: State, chat: Chat, id: nat, at: nat)
    requires TimeInv(s.db) && CanWorld(s, Cron(chat, id, at))
    ensures !Overtaken(NextWorld(s, Cron(chat, id, at)).db, Job(id))
  {
  }

  lemma OvertakenTold(s: State, t: State, r: RowId, cause: SubCause)
    requires OpenScheduled(s.db, r) && s.db.rows[r].chat in s.db.subs && Overtaken(t.db, r)
    requires s.db.rows[r].chat == t.db.rows[r].chat && s.db.rows[r].scheduledAt == t.db.rows[r].scheduledAt
    requires SubTold(s, t, s.db.rows[r].chat, cause) && (cause.SubOutcome? ==> !cause.v.Delivered?)
    ensures Overtaken(s.db, r) || Rescheduled(cause, s.db.subs[s.db.rows[r].chat])
  {
  }

  /** No other scheduled job of the chat can be delivered while this one stays open. */
  lemma DeliversOther(s: State, l: Label, r: RowId)
    requires EnabledInv(s.db) && ClaimInv(s) && Can(s, l) && OpenScheduled(s.db, r) && OpenScheduled(Next(s, l).db, r)
    ensures var cause := CauseOf(s, l, s.db.rows[r].chat); cause.SubOutcome? ==> !cause.v.Delivered?
  {
    if l.Outbox? && OutcomeOf(s, l.w, l.send) == Some(Delivered) {
      SendShape(s, l.w, l.send);
      assert ClaimOk(s.db, s.pcs[l.w]);
      assert s.pcs[l.w].claim.kind.Scheduled? ==> OpenScheduled(s.db, s.pcs[l.w].claim.row);
    }
  }

  /** So a delivery moves last_sent back only if an interval change took effect while the job was open. */
  lemma FallsOnlyAfterChange(states: seq<State>, labels: seq<Label>, i: nat, w: Worker, send: SendStep) returns (k: nat)
    requires Run(states, labels) && i < |labels| && labels[i] == Outbox(w, send)
    requires OutcomeOf(states[i], w, send) == Some(Delivered)
    requires var c := states[i].pcs[w].claim;
      && c.kind.Scheduled? && c.chat in states[i].db.subs
      && 60 * Minute(c.scheduledAt) < states[i].db.subs[c.chat].lastSent
    ensures var c := states[i].pcs[w].claim;
      && k < i && OpenScheduled(states[k].db, c.row) && states[k].db.rows[c.row].chat == c.chat
      && c.chat in states[k].db.subs
      && Rescheduled(CauseOf(states[k], labels[k], c.chat), states[k].db.subs[c.chat])
  {
    RunBase(states, labels, i);
    assert ClaimOk(states[i].db, states[i].pcs[w]);
    k := ChangedMeanwhile(states, labels, i, states[i].pcs[w].claim.row);
  }

  /* ---- What a dead lock session costs ---- */

  lemma TwoSections(s: State, v: Worker, w: Worker)
    requires LockInv(s) && v in s.pcs && w in s.pcs && v != w && s.pcs[v].Holding() && s.pcs[w].Holding()
    requires s.pcs[v].Chat() == s.pcs[w].Chat()
    ensures s.pcs[w].Chat() in s.h.tainted
  {
  }

  lemma SendsAnyway(t: State, w: Worker)
    requires SenderAt(t, w) && t.pcs[w].phase.Checked? && t.pcs[w].claim.kind.Scheduled?
    requires t.pcs[w].claim.chat in t.db.subs ==> !t.db.subs[t.pcs[w].claim.chat].subscribed
    ensures CanSend(t, w, BeginSend)
    ensures Sends.Sending(NextSend(t, w, BeginSend), w)
    ensures !NotificationEnabled(NextSend(t, w, BeginSend).db, t.pcs[w].claim)
  {
  }

  lemma Unsubscribes(s: State, v: Worker, ctx: Context)
    requires HandlerAt(s, v) && s.pcs[v].step.Prepared? && s.pcs[v].update.command.Unsubscribe?
    requires OwnsUpdate(s.db.updates, s.pcs[v].update) && CanHandle(s, v, Commit(ctx, true, true))
    requires Admits(s.db.versions, s.pcs[v].update, s.pcs[v].step.view)
    ensures var subs := NextHandle(s, v, Commit(ctx, true, true)).db.subs;
      s.pcs[v].update.chat in subs ==> !subs[s.pcs[v].update.chat].subscribed
  {
    HandleShape(s, v, Commit(ctx, true, true));
    CommitCloses(s.db, s.pcs[v].update, s.pcs[v].step.ids, s.pcs[v].step.view, ctx);
  }

  /** Two locked sections of one chat exist only after a lock session died, and then an unsubscribe can
      commit between a claim check and its send: the send of a disabled notification. */
  lemma LostLockSends(s: State, w: Worker, v: Worker, ctx: Context)
    requires LockInv(s) && ClaimInv(s) && SenderAt(s, w) && s.pcs[w].phase.Checked? && s.pcs[w].claim.kind.Scheduled?
    requires HandlerAt(s, v) && s.pcs[v].step.Prepared? && s.pcs[v].update.command.Unsubscribe?
    requires s.pcs[v].update.chat == s.pcs[w].claim.chat
    requires OwnsUpdate(s.db.updates, s.pcs[v].update) && CanHandle(s, v, Commit(ctx, true, true))
    requires Admits(s.db.versions, s.pcs[v].update, s.pcs[v].step.view)
    ensures s.pcs[w].claim.chat in s.h.tainted
    ensures var t := NextHandle(s, v, Commit(ctx, true, true));
      && CanSend(t, w, BeginSend)
      && Sends.Sending(NextSend(t, w, BeginSend), w)
      && !NotificationEnabled(NextSend(t, w, BeginSend).db, t.pcs[w].claim)
  {
    assert ClaimOk(s.db, s.pcs[w]);
    TwoSections(s, v, w);
    Unsubscribes(s, v, ctx);
    HandleShape(s, v, Commit(ctx, true, true));
    SendsAnyway(NextHandle(s, v, Commit(ctx, true, true)), w);
  }
}
