/** Concrete runs from the empty tables, and what they reach. */
module Witnesses {
  import opened Policy
  import opened Tables
  import opened Machine
  import opened Claims
  import opened Safety
  import Erasure
  import Sends
  import Overlaps
  import opened Paths

  ghost function Advance(s: State, l: Label): State { if Can(s, l) then Next(s, l) else s }

  /** These steps, one after another, lead from s to t. */
  ghost predicate Leads(s: State, steps: seq<Label>, t: State) { Path(Can, Advance, s, steps, t) }

  lemma FirstStep(s: State, steps: seq<Label>, t: State)
    requires Leads(s, steps, t) && steps != []
    ensures Can(s, steps[0]) && Leads(Next(s, steps[0]), steps[1..], t)
  {
  }

  lemma {:induction false} RunOn(states: seq<State>, labels: seq<Label>, steps: seq<Label>, t: State)
      returns (more: seq<State>)
    requires Run(states, labels) && Leads(states[|labels|], steps, t)
    ensures Run(more, labels + steps) && more[|labels + steps|] == t && states <= more
    decreases |steps|
  {
    if steps == [] {
      more := states;
      assert labels + steps == labels;
    } else {
      FirstStep(states[|labels|], steps, t);
      Erasure.RunExtends(states, labels, steps[0]);
      more := RunOn(states + [Next(states[|labels|], steps[0])], labels + [steps[0]], steps[1..], t);
      assert labels + steps == labels + [steps[0]] + steps[1..];
    }
  }

  lemma FromStart(s: State, steps: seq<Label>, t: State) returns (states: seq<State>)
    requires Init(s) && Leads(s, steps, t)
    ensures Run(states, steps) && states[0] == s && states[|steps|] == t
  {
    states := RunOn([s], [], steps, t);
    assert [] + steps == steps;
  }

  lemma Joins(s: State, x: seq<Label>, t: State, y: seq<Label>, u: State)
    requires Leads(s, x, t) && Leads(t, y, u)
    ensures Leads(s, x + y, u)
  {
    JoinPaths(Can, Advance, s, x, t, y, u);
  }

  lemma One(s: State, l: Label)
    requires Can(s, l)
    ensures Leads(s, [l], Next(s, l))
  {
    OnePath(Can, Advance, s, l);
  }

  lemma Two(s: State, l: Label, m: Label)
    requires Can(s, l) && Can(Next(s, l), m)
    ensures Leads(s, [l, m], Next(Next(s, l), m))
  {
    One(s, l);
    One(Next(s, l), m);
    Joins(s, [l], Next(s, l), [m], Next(Next(s, l), m));
    assert [l] + [m] == [l, m];
  }

  /* ---- Inbox transactions ---- */

  /** A handler that has taken an update, secured its chat and done its reads, now. */
  ghost function ReadyPc(db: Db, u: int): Pc
    requires u in db.updates
  {
    var c := UpdateClaimOf(u, db.updates[u]);
    Handler(c, Prepared([], ViewOf(TakeUpdate(db, u, db.now), c, db.now)), true)
  }

  ghost function Ready(s: State, w: Worker, u: int): State
    requires u in s.db.updates
  {
    s.(db := TakeUpdate(s.db, u, s.db.now), pcs := s.pcs[w := ReadyPc(s.db, u)],
        locks := s.locks[s.keyOf(s.db.updates[u].chat) := w])
  }

  ghost function Opening(w: Worker, u: int, now: nat): seq<Label> {
    [Inbox(w, Take(u, now, true)), Inbox(w, Secure), Inbox(w, Begin), Inbox(w, Prepare)]
  }

  lemma TakesLock(s: State, w: Worker, u: int)
    requires w !in s.pcs && UpdateClaimable(s.db.updates, u, s.db.now) && ChatFree(s, s.db.updates[u].chat)
    ensures var c := UpdateClaimOf(u, s.db.updates[u]);
      Leads(s, [Inbox(w, Take(u, s.db.now, true)), Inbox(w, Secure)],
            s.(db := TakeUpdate(s.db, u, s.db.now), pcs := s.pcs[w := Handler(c, Taken, true)],
                locks := s.locks[s.keyOf(c.chat) := w]))
  {
    var c := UpdateClaimOf(u, s.db.updates[u]);
    var t := NextHandle(s, w, Take(u, s.db.now, true));
    assert t == s.(db := TakeUpdate(s.db, u, s.db.now), pcs := s.pcs[w := Handler(c, Taken, false)]);
    assert NextHandle(t, w, Secure).pcs == s.pcs[w := Handler(c, Taken, true)];
    Two(s, Inbox(w, Take(u, s.db.now, true)), Inbox(w, Secure));
  }

  lemma Reads(s: State, w: Worker)
    requires HandlerAt(s, w) && s.pcs[w].step.Taken? && s.pcs[w].secured
    ensures Leads(s, [Inbox(w, Begin), Inbox(w, Prepare)],
      s.(pcs := s.pcs[w := s.pcs[w].(step := Prepared([], ViewOf(s.db, s.pcs[w].update, s.db.now)))]))
  {
    var t := NextHandle(s, w, Begin);
    assert NextHandle(t, w, Prepare).pcs ==
      s.pcs[w := s.pcs[w].(step := Prepared([], ViewOf(s.db, s.pcs[w].update, s.db.now)))];
    Two(s, Inbox(w, Begin), Inbox(w, Prepare));
  }

  /** Any claimable update in a free chat can be brought to the point before its commit. */
  lemma Opens(s: State, w: Worker, u: int)
    requires w !in s.pcs && UpdateClaimable(s.db.updates, u, s.db.now) && ChatFree(s, s.db.updates[u].chat)
    ensures Leads(s, Opening(w, u, s.db.now), Ready(s, w, u))
  {
    var c := UpdateClaimOf(u, s.db.updates[u]);
    var t := s.(db := TakeUpdate(s.db, u, s.db.now), pcs := s.pcs[w := Handler(c, Taken, true)],
        locks := s.locks[s.keyOf(c.chat) := w]);
    TakesLock(s, w, u);
    Reads(t, w);
    assert t.pcs[w := ReadyPc(s.db, u)] == s.pcs[w := ReadyPc(s.db, u)];
    Joins(s, [Inbox(w, Take(u, s.db.now, true)), Inbox(w, Secure)], t, [Inbox(w, Begin), Inbox(w, Prepare)],
        Ready(s, w, u));
    assert [Inbox(w, Take(u, s.db.now, true)), Inbox(w, Secure)] + [Inbox(w, Begin), Inbox(w, Prepare)] ==
      Opening(w, u, s.db.now);
  }

  /** A handler commits, hears of it and leaves. */
  lemma Commits(s: State, w: Worker, ctx: Context) returns (t: State)
    requires HandlerAt(s, w) && s.pcs[w].secured && CanHandle(s, w, Commit(ctx, true, true))
    requires OwnsUpdate(s.db.updates, s.pcs[w].update)
    requires s.keyOf(s.pcs[w].update.chat) in s.locks && s.locks[s.keyOf(s.pcs[w].update.chat)] == w
    ensures Leads(s, [Inbox(w, Commit(ctx, true, true)), Inbox(w, Depart)], t) && t.keyOf == s.keyOf
    ensures t.db == CommitUpdate(s.db, s.pcs[w].update, s.pcs[w].step.ids, s.pcs[w].step.view, ctx)
    ensures t.pcs == s.pcs - {w} && t.locks == s.locks - {s.keyOf(s.pcs[w].update.chat)}
    ensures |t.h.effects| == |s.h.effects| + 1 && s.h.effects <= t.h.effects
    ensures t.h.effects[|s.h.effects|].claim == s.pcs[w].update
  {
    var m := NextHandle(s, w, Commit(ctx, true, true));
    t := NextHandle(m, w, Depart);
    Two(s, Inbox(w, Commit(ctx, true, true)), Inbox(w, Depart));
  }

  /* ---- A first subscriber with a first job ---- */

  /** One subscribed chat, whose one command is processed, and nothing else. */
  ghost predicate Enrolled(s: State, chat: Chat) {
    && s.pcs == map[] && s.locks == map[] && s.db.rows == map[]
    && chat in s.db.subs && s.db.subs[chat].subscribed && s.db.subs[chat].interval == 60
    && s.db.subs[chat].cronClaimedUntil.None? && s.db.subs[chat].suspendedUntil.None?
    && (forall u | u in s.db.updates :: u == 1 && !s.db.updates[u].status.Open())
    && s.db.versions == map[(chat, Subscription) := Version(s.db.epoch, 1)]
  }

  lemma Saves(s: State, chat: Chat)
    requires Init(s)
    ensures var t := NextWorld(s, Save(1, chat, Subscribe));
      && CanWorld(s, Save(1, chat, Subscribe))
      && t.pcs == map[] && t.locks == map[] && t.db.rows == map[] && t.db.subs == map[] && t.db.versions == map[]
      && t.db.alerts == map[]
      && t.db.updates == map[1 := Update(chat, t.db.epoch, Subscribe, Waiting, 0, None, s.db.now, 0)]
      && t.db.now == s.db.now && t.db.lastReceived == s.db.now && t.db.nextAlert == 1
  {
  }

  lemma Enrolls(s: State, chat: Chat) returns (steps: seq<Label>, t: State)
    requires Init(s)
    ensures Leads(s, steps, t) && Enrolled(t, chat) && t.db.now == s.db.now && t.db.lastReceived == s.db.now
    ensures t.db.subs[chat].lastSent == s.db.now - 120 && t.db.nextJob == 1
  {
    var save := World(Save(1, chat, Subscribe));
    Saves(s, chat);
    One(s, save);
    var a := Next(s, save);
    Opens(a, 0, 1);
    var b := Ready(a, 0, 1);
    var ctx := Context(None, 1, s.db.now);
    EnrollCommit(a, chat);
    t := Commits(b, 0, ctx);
    Joins(s, [save], a, Opening(0, 1, s.db.now), b);
    Joins(s, [save] + Opening(0, 1, s.db.now), b, [Inbox(0, Commit(ctx, true, true)), Inbox(0, Depart)], t);
    steps := [save] + Opening(0, 1, s.db.now) + [Inbox(0, Commit(ctx, true, true)), Inbox(0, Depart)];
  }

  lemma EnrollCommit(a: State, chat: Chat)
    requires a.pcs == map[] && a.locks == map[] && a.db.rows == map[] && a.db.subs == map[] && a.db.versions == map[]
    requires a.db.alerts == map[]
    requires a.db.updates == map[1 := Update(chat, a.db.epoch, Subscribe, Waiting, 0, None, a.db.now, 0)]
    requires a.db.nextAlert == 1
    ensures var b := Ready(a, 0, 1); var ctx := Context(None, 1, a.db.now);
      && CanHandle(b, 0, Commit(ctx, true, true)) && OwnsUpdate(b.db.updates, b.pcs[0].update)
      && var db := CommitUpdate(b.db, b.pcs[0].update, b.pcs[0].step.ids, b.pcs[0].step.view, ctx);
         && db.rows == map[] && db.now == a.db.now && db.lastReceived == a.db.lastReceived && db.epoch == a.db.epoch
         && db.nextJob == a.db.nextJob
         && db.subs == map[chat := Enroll(a.db.now, "ua", true)]
         && db.versions == map[(chat, Subscription) := Version(a.db.epoch, 1)]
         && db.updates.Keys == {1} && !db.updates[1].status.Open()
  {
  }

  /** A subscribed chat with one open job, nobody at work. */
  ghost predicate OneJob(s: State, chat: Chat) {
    && s.pcs == map[] && s.locks == map[] && chat in s.db.subs && s.db.subs[chat].subscribed
    && s.db.rows == map[Job(1) := NewJob(chat, Scheduled, s.db.now, s.db.now)]
    && (forall u | u in s.db.updates :: u == 1 && !s.db.updates[u].status.Open())
    && (chat, Subscription) in s.db.versions && s.db.versions[(chat, Subscription)] == Version(s.db.epoch, 1)
    && s.db.lastReceived + EPOCH_GAP >= s.db.now
  }

  lemma HourLater(s: State, chat: Chat)
    requires Enrolled(s, chat) && s.db.subs[chat].lastSent == s.db.now - 120 && s.db.lastReceived == s.db.now
    requires s.db.nextJob == 1
    ensures CanWorld(s, Tick(s.db.now + 3600))
    ensures var t := NextWorld(s, Tick(s.db.now + 3600));
      CanWorld(t, Cron(chat, 1, t.db.now)) && OneJob(NextWorld(t, Cron(chat, 1, t.db.now)), chat)
  {
    assert Minute(s.db.now + 3600) == Minute(s.db.now) + 60;
  }

  /** The shortest run to a first open job: /subscribe, an hour, cron. */
  lemma FirstJob(s: State, chat: Chat) returns (steps: seq<Label>, t: State)
    requires Init(s)
    ensures Leads(s, steps, t) && OneJob(t, chat)
  {
    var enroll, a := Enrolls(s, chat);
    HourLater(a, chat);
    var tick := World(Tick(a.db.now + 3600));
    var cron := World(Cron(chat, 1, a.db.now + 3600));
    Two(a, tick, cron);
    t := Next(Next(a, tick), cron);
    Joins(s, enroll, a, [tick, cron], t);
    steps := enroll + [tick, cron];
  }

  /** From the empty tables, for every number, a run in which a job is claimed that many times. */
  lemma ManyAttempts(s: State, chat: Chat, n: nat) returns (states: seq<State>, labels: seq<Label>)
    requires Init(s)
    ensures Run(states, labels) && states[0] == s && Job(1) in states[|labels|].db.rows
    ensures states[|labels|].db.rows[Job(1)].attempts >= n
  {
    var steps, t := FirstJob(s, chat);
    var first := FromStart(s, steps, t);
    states, labels := Overlaps.AttemptsUnbounded(first, steps, Job(1), n);
  }

  /* ---- A notification sent after its chat was unsubscribed ---- */

  lemma ClaimsJob(s: State, chat: Chat)
    requires OneJob(s, chat)
    ensures var claim := SendStep.Claim(Job(1), 0, s.db.now, true);
      && CanSend(s, 0, claim)
      && var t := NextSend(s, 0, claim);
         && t.pcs == map[0 := Sender(Claim.Claim(Job(1), chat, Scheduled, 1, 0, s.db.now, s.db.now), Claimed, false,
             None, s.db.now)]
         && t.locks == map[] && t.db == TakeClaim(s.db, Job(1), 0, s.db.now) && t.keyOf == s.keyOf
  {
  }

  ghost predicate AtJob(s: State, chat: Chat, db: Db, phase: Phase, locked: bool) {
    && Job(1) in db.rows && db.rows[Job(1)] == NewJob(chat, Scheduled, db.now, db.now)
    && s.db == TakeClaim(db, Job(1), 0, db.now) && s.pcs.Keys == {0} && s.pcs[0].Sender?
    && s.pcs[0].claim == Claim.Claim(Job(1), chat, Scheduled, 1, 0, db.now, db.now)
    && s.pcs[0].phase == phase && s.pcs[0].locked == locked
  }

  lemma LocksAndVets(s: State, chat: Chat, db: Db)
    requires chat in db.subs && db.subs[chat].subscribed && AtJob(s, chat, db, Claimed, false) && s.locks == map[]
    ensures CanSend(s, 0, Lock) && CanSend(NextSend(s, 0, Lock), 0, Vet)
    ensures var t := NextSend(NextSend(s, 0, Lock), 0, Vet);
      AtJob(t, chat, db, Vetted, true) && t.locks == map[s.keyOf(chat) := 0] && t.keyOf == s.keyOf
  {
  }

  lemma ChecksThenDies(s: State, chat: Chat, db: Db)
    requires AtJob(s, chat, db, Vetted, true) && s.locks == map[s.keyOf(chat) := 0]
    ensures CanSend(s, 0, Check(db.now)) && CanWorld(NextSend(s, 0, Check(db.now)), LoseSession(0))
    ensures var t := NextWorld(NextSend(s, 0, Check(db.now)), LoseSession(0));
      AtJob(t, chat, db, Checked, true) && t.locks == map[] && t.keyOf == s.keyOf
  {
  }

  /** From the first job to a worker that passed its claim check and then lost its lock session. */
  lemma LosesLock(s: State, chat: Chat) returns (steps: seq<Label>, t: State)
    requires OneJob(s, chat)
    ensures Leads(s, steps, t) && AtJob(t, chat, s.db, Checked, true) && t.locks == map[]
  {
    var claim := Outbox(0, SendStep.Claim(Job(1), 0, s.db.now, true));
    ClaimsJob(s, chat);
    One(s, claim);
    var a := Next(s, claim);
    LocksAndVets(a, chat, s.db);
    Two(a, Outbox(0, Lock), Outbox(0, Vet));
    var b := Next(Next(a, Outbox(0, Lock)), Outbox(0, Vet));
    ChecksThenDies(b, chat, s.db);
    Two(b, Outbox(0, Check(s.db.now)), World(LoseSession(0)));
    t := Next(Next(b, Outbox(0, Check(s.db.now))), World(LoseSession(0)));
    Joins(s, [claim], a, [Outbox(0, Lock), Outbox(0, Vet)], b);
    Joins(s, [claim] + [Outbox(0, Lock), Outbox(0, Vet)], b, [Outbox(0, Check(s.db.now)), World(LoseSession(0))], t);
    steps := [claim] + [Outbox(0, Lock), Outbox(0, Vet)] + [Outbox(0, Check(s.db.now)), World(LoseSession(0))];
  }

  lemma SavesUnsubscribe(s: State, chat: Chat, db: Db)
    requires AtJob(s, chat, db, Checked, true) && s.locks == map[] && db.lastReceived + EPOCH_GAP >= db.now
    requires forall u | u in db.updates :: u == 1 && !db.updates[u].status.Open()
    requires (chat, Subscription) in db.versions && db.versions[(chat, Subscription)] == Version(db.epoch, 1)
    ensures var save := Save(2, chat, Unsubscribe);
      && CanWorld(s, save)
      && var t := NextWorld(s, save);
         && UpdateClaimable(t.db.updates, 2, t.db.now) && t.db.updates[2].chat == chat && t.locks == map[]
         && 1 !in t.pcs
         && var r := Ready(t, 1, 2); var ctx := Context(None, r.db.nextAlert, r.db.now);
            && r.pcs[0] == s.pcs[0] && r.pcs[1].update.chat == chat && r.pcs[1].update.command.Unsubscribe?
            && CanHandle(r, 1, Commit(ctx, true, true)) && OwnsUpdate(r.db.updates, r.pcs[1].update)
            && Admits(r.db.versions, r.pcs[1].update, r.pcs[1].step.view)
  {
  }

  /** From the empty tables, a run in which a notification is in flight although its chat was unsubscribed
      before the send began. Its one failure is a lock session that dies under a running worker. */
  lemma SentAfterUnsubscribe(s: State, chat: Chat) returns (states: seq<State>, labels: seq<Label>)
    requires Init(s)
    ensures Run(states, labels) && states[0] == s
    ensures var t := states[|labels|];
      Sends.Sending(t, 0) && t.pcs[0].claim.chat == chat && !NotificationEnabled(t.db, t.pcs[0].claim)
  {
    var first, a := FirstJob(s, chat);
    var lose, b := LosesLock(a, chat);
    SavesUnsubscribe(b, chat, a.db);
    var save := World(Save(2, chat, Unsubscribe));
    One(b, save);
    var c := Next(b, save);
    Opens(c, 1, 2);
    var d := Ready(c, 1, 2);
    Joins(s, first, a, lose, b);
    Joins(s, first + lose, b, [save], c);
    Joins(s, first + lose + [save], c, Opening(1, 2, c.db.now), d);
    labels := first + lose + [save] + Opening(1, 2, c.db.now);
    states := FromStart(s, labels, d);
    RunBase(states, labels, |labels|);
    states, labels := SendsNow(states, labels, Context(None, d.db.nextAlert, d.db.now));
  }

  lemma SendsNow(states: seq<State>, labels: seq<Label>, ctx: Context) returns (more: seq<State>, steps: seq<Label>)
    requires Run(states, labels)
    requires var s := states[|labels|];
      && LockInv(s) && ClaimInv(s) && SenderAt(s, 0) && s.pcs[0].phase.Checked? && s.pcs[0].claim.kind.Scheduled?
      && HandlerAt(s, 1) && s.pcs[1].step.Prepared? && s.pcs[1].update.command.Unsubscribe?
      && s.pcs[1].update.chat == s.pcs[0].claim.chat
      && CanHandle(s, 1, Commit(ctx, true, true)) && OwnsUpdate(s.db.updates, s.pcs[1].update)
      && Admits(s.db.versions, s.pcs[1].update, s.pcs[1].step.view)
    ensures Run(more, steps) && states <= more
    ensures var s, t := states[|labels|], more[|steps|];
      Sends.Sending(t, 0) && t.pcs[0].claim == s.pcs[0].claim && !NotificationEnabled(t.db, t.pcs[0].claim)
  {
    var s, commit, send := states[|labels|], Inbox(1, Commit(ctx, true, true)), Outbox(0, BeginSend);
    Overlaps.LostLockSends(s, 0, 1, ctx);
    Two(s, commit, send);
    more := RunOn(states, labels, [commit, send], Next(Next(s, commit), send));
    steps := labels + [commit, send];
    HandleShape(s, 1, Commit(ctx, true, true));
    Sends.SameProgram(s, commit, 0);
  }
}
