/** Why the conditions on tainted chats and torn effects are there: concrete runs in which a lock session dies under
    an open inbox transaction, and the promise that does not survive it. */
module Torn {
  import opened Policy
  import opened Tables
  import opened Machine
  import opened Claims
  import opened Delivery
  import opened Cadence
  import opened Witnesses
  import Overlaps
  import Sends
  import Views

  /* ---- Two open transactions of one chat ---- */

  /** Nobody at work, no update open, and the current epoch still running. */
  ghost predicate Quiet(s: State) {
    && s.pcs == map[] && s.locks == map[] && s.db.lastReceived <= s.db.now <= s.db.lastReceived + EPOCH_GAP
    && forall u | u in s.db.updates :: !s.db.updates[u].status.Open()
  }

  /** The handler of a first attempt that has read the tables of `db`. */
  ghost function Reader(db: Db, u: int, chat: Chat, command: Command): Pc {
    var c := UpdateClaim(u, chat, command, 1, db.epoch);
    Handler(c, Prepared([], ViewOf(db, c, db.now)), true)
  }

  ghost function InWork(db: Db, chat: Chat, command: Command): Update {
    Update(chat, db.epoch, command, Processing, 1, Some(db.now + LEASE), db.now, 0)
  }

  lemma SavesNow(s: State, u: int, chat: Chat, command: Command)
    requires u !in s.db.updates && s.db.lastReceived <= s.db.now <= s.db.lastReceived + EPOCH_GAP
    requires forall e | e in s.db.updates && s.db.updates[e].status.Open() ::
      s.db.updates[e].epoch == s.db.epoch && u < e
    ensures CanWorld(s, Save(u, chat, command))
    ensures var t := NextWorld(s, Save(u, chat, command));
      && UpdateClaimable(t.db.updates, u, s.db.now) && t.db.updates[u].chat == chat
      && TakeUpdate(t.db, u, s.db.now) == Worked(s.db, u, chat, command)
      && UpdateClaimOf(u, t.db.updates[u]) == UpdateClaim(u, chat, command, 1, s.db.epoch)
      && t.pcs == s.pcs && t.locks == s.locks && t.keyOf == s.keyOf && t.db.now == s.db.now
      && t.h.effects == s.h.effects
  {
  }

  ghost function Worked(db: Db, u: int, chat: Chat, command: Command): Db {
    db.(updates := db.updates[u := InWork(db, chat, command)], lastReceived := db.now)
  }

  /** Saving an update and bringing it to the point before its commit changes the inbox only. */
  lemma SavedAndRead(s: State, w: Worker, u: int, chat: Chat, command: Command) returns (steps: seq<Label>, t: State)
    requires w !in s.pcs && u !in s.db.updates && s.locks == map[]
    requires s.db.lastReceived <= s.db.now <= s.db.lastReceived + EPOCH_GAP
    requires forall e | e in s.db.updates && s.db.updates[e].status.Open() ::
      s.db.updates[e].epoch == s.db.epoch && u < e
    ensures Leads(s, steps, t) && t.keyOf == s.keyOf && t.h.effects == s.h.effects
    ensures t.db == Worked(s.db, u, chat, command)
    ensures t.pcs == s.pcs[w := Reader(s.db, u, chat, command)] && t.locks == map[s.keyOf(chat) := w]
  {
    var save := World(Save(u, chat, command));
    SavesNow(s, u, chat, command);
    One(s, save);
    var a := Next(s, save);
    Opens(a, w, u);
    t := Ready(a, w, u);
    SameRead(s.db, t.db, u, chat, command);
    Joins(s, [save], a, Opening(w, u, s.db.now), t);
    steps := [save] + Opening(w, u, s.db.now);
  }

  /** The session of worker 0 dies, which frees the chat lock and taints the chat. */
  lemma Dies(s: State, chat: Chat)
    requires s.pcs.Keys == {0} && s.pcs[0].Handler? && s.pcs[0].secured && s.pcs[0].update.chat == chat
    requires s.locks == map[s.keyOf(chat) := 0]
    ensures CanWorld(s, LoseSession(0))
    ensures var t := NextWorld(s, LoseSession(0));
      t.db == s.db && t.pcs == s.pcs && t.locks == map[] && t.keyOf == s.keyOf && t.h.effects == s.h.effects
  {
  }

  lemma ReadAndDies(s: State, chat: Chat, u: int, command: Command) returns (steps: seq<Label>, t: State)
    requires Quiet(s) && u !in s.db.updates
    ensures Leads(s, steps, t) && t.keyOf == s.keyOf && t.h.effects == s.h.effects
    ensures t.db == Worked(s.db, u, chat, command) && t.locks == map[]
    ensures t.pcs == map[0 := Reader(s.db, u, chat, command)]
  {
    var first, a := SavedAndRead(s, 0, u, chat, command);
    Dies(a, chat);
    One(a, World(LoseSession(0)));
    t := Next(a, World(LoseSession(0)));
    Joins(s, first, a, [World(LoseSession(0))], t);
    steps := first + [World(LoseSession(0))];
  }

  /** From a quiet state: update `u` has been read, then its lock session dies; the earlier update `late`
      arrives and is read as well. Both transactions are open and saw the same tables. */
  lemma TwoOpen(s: State, chat: Chat, u: int, command: Command, late: int, other: Command)
      returns (steps: seq<Label>, t: State)
    requires Quiet(s) && late < u && u !in s.db.updates && late !in s.db.updates
    ensures Leads(s, steps, t) && t.h.effects == s.h.effects && t.keyOf == s.keyOf
    ensures t.db == Worked(Worked(s.db, u, chat, command), late, chat, other) && t.locks == map[s.keyOf(chat) := 1]
    ensures t.pcs == map[0 := Reader(s.db, u, chat, command), 1 := Reader(s.db, late, chat, other)]
  {
    var first, a := ReadAndDies(s, chat, u, command);
    var second;
    second, t := SavedAndRead(a, 1, late, chat, other);
    SameRead(s.db, a.db, late, chat, other);
    Joins(s, first, a, second, t);
    steps := first + second;
  }

  lemma SameRead(db: Db, db': Db, u: int, chat: Chat, command: Command)
    requires db' == db.(updates := db'.updates, lastReceived := db'.lastReceived)
    ensures Reader(db', u, chat, command) == Reader(db, u, chat, command)
  {
    assert OpenAlerts(db', chat) == OpenAlerts(db, chat);
  }

  /** Whoever commits, the tables change by its transaction and nobody else moves. */
  lemma CommitsNow(s: State, w: Worker, ctx: Context) returns (t: State)
    requires HandlerAt(s, w) && CanHandle(s, w, Commit(ctx, true, true)) && OwnsUpdate(s.db.updates, s.pcs[w].update)
    ensures Leads(s, [Inbox(w, Commit(ctx, true, true))], t)
    ensures t.db == CommitUpdate(s.db, s.pcs[w].update, s.pcs[w].step.ids, s.pcs[w].step.view, ctx)
    ensures t.pcs.Keys == s.pcs.Keys && forall v | v in s.pcs && v != w :: t.pcs[v] == s.pcs[v]
    ensures |t.h.effects| == |s.h.effects| + 1 && s.h.effects <= t.h.effects
    ensures var e := t.h.effects[|s.h.effects|];
      e.claim == s.pcs[w].update && e.applied == Admits(s.db.versions, e.claim, s.pcs[w].step.view)
  {
    One(s, Inbox(w, Commit(ctx, true, true)));
    t := NextHandle(s, w, Commit(ctx, true, true));
  }

  /** Both commit, worker `x` before worker `y`, each from what it read before either did. */
  lemma BothCommit(s: State, x: Worker, y: Worker, cx: Context, cy: Context) returns (t: State)
    requires x != y && HandlerAt(s, x) && HandlerAt(s, y) && s.pcs[x].update.id != s.pcs[y].update.id
    requires CanHandle(s, x, Commit(cx, true, true)) && OwnsUpdate(s.db.updates, s.pcs[x].update)
    requires CanHandle(s, y, Commit(cy, true, true)) && OwnsUpdate(s.db.updates, s.pcs[y].update)
    requires cy.alertId > cx.alertId
    ensures Leads(s, [Inbox(x, Commit(cx, true, true)), Inbox(y, Commit(cy, true, true))], t)
    ensures var cu, cv, view := s.pcs[x].update, s.pcs[y].update, s.pcs[y].step.view;
      var between := CommitUpdate(s.db, cu, s.pcs[x].step.ids, s.pcs[x].step.view, cx);
      && t.db == CommitUpdate(between, cv, s.pcs[y].step.ids, view, cy)
      && |t.h.effects| == |s.h.effects| + 2 && s.h.effects <= t.h.effects
      && t.h.effects[|s.h.effects|].claim == cu && t.h.effects[|s.h.effects| + 1].claim == cv
      && t.h.effects[|s.h.effects|].applied == Admits(s.db.versions, cu, s.pcs[x].step.view)
      && t.h.effects[|s.h.effects| + 1].applied == Admits(between.versions, cv, view)
  {
    var a := CommitsNow(s, x, cx);
    Views.CommitCloses(s.db, s.pcs[x].update, s.pcs[x].step.ids, s.pcs[x].step.view, cx);
    NextAlertAfter(s.db, s.pcs[x].update, s.pcs[x].step.ids, s.pcs[x].step.view, cx);
    t := CommitsNow(a, y, cy);
    Joins(s, [Inbox(x, Commit(cx, true, true))], a, [Inbox(y, Commit(cy, true, true))], t);
    assert [Inbox(x, Commit(cx, true, true))] + [Inbox(y, Commit(cy, true, true))]
        == [Inbox(x, Commit(cx, true, true)), Inbox(y, Commit(cy, true, true))];
  }

  lemma NextAlertAfter(db: Db, c: UpdateClaim, ids: seq<nat>, view: View, ctx: Context)
    ensures var next := CommitUpdate(db, c, ids, view, ctx).nextAlert; next == db.nextAlert || next == ctx.alertId + 1
  {
    if OwnsUpdate(db.updates, c) && Admits(db.versions, c, view) {
      MutateNext(db.(versions := Record(db.versions, c, view)), c, view, ctx);
    }
  }

  lemma MutateNext(db: Db, c: UpdateClaim, view: View, ctx: Context)
    ensures var next := Mutate(db, c, view, ctx).nextAlert; next == db.nextAlert || next == ctx.alertId + 1
  {
    match c.command
    case AddAlert(_, _) =>
    case CancelAlert(_) =>
    case cmd =>
  }

  /* ---- A language that relapses ---- */

  /** From the empty tables: the only language command ever processed chose English, it was applied, and the
      chat is left in the default language by a /subscribe that had read it before. */
  lemma LanguageRelapses(s: State, chat: Chat) returns (states: seq<State>, labels: seq<Label>)
    requires Init(s) && Quiet(s)
    ensures Run(states, labels) && states[0] == s
    ensures var t := states[|labels|];
      && |t.h.effects| == 2 && t.h.effects[0].applied && t.h.effects[0].claim.chat == chat
      && t.h.effects[0].claim.command == SetLanguage("en") && t.h.effects[1].claim.command == Subscribe
      && chat in t.db.subs && t.db.subs[chat].lang == "ua"
  {
    var open, a := TwoOpen(s, chat, 2, Subscribe, 1, SetLanguage("en"));
    var x, y := Context(None, 1, s.db.now), Context(None, 2, s.db.now);
    var b := BothCommit(a, 1, 0, x, y);
    RelapseTables(s.db, a.db, chat);
    var steps := [Inbox(1, Commit(x, true, true)), Inbox(0, Commit(y, true, true))];
    Joins(s, open, a, steps, b);
    labels := open + steps;
    states := FromStart(s, labels, b);
  }

  lemma RelapseTables(db: Db, worked: Db, chat: Chat)
    requires db.subs == map[] && db.versions == map[]
    requires worked == Worked(Worked(db, 2, chat, Subscribe), 1, chat, SetLanguage("en"))
    ensures var c, d := Reader(db, 1, chat, SetLanguage("en")), Reader(db, 2, chat, Subscribe);
      var x, y := Context(None, 1, db.now), Context(None, 2, db.now);
      var mid := CommitUpdate(worked, c.update, [], c.step.view, x);
      && Admits(worked.versions, c.update, c.step.view)
      && var last := CommitUpdate(mid, d.update, [], d.step.view, y);
         chat in last.subs && last.subs[chat].lang == "ua"
  {
    var c, d := Reader(db, 1, chat, SetLanguage("en")), Reader(db, 2, chat, Subscribe);
    var x, y := Context(None, 1, db.now), Context(None, 2, db.now);
    Views.CommitCloses(worked, c.update, [], c.step.view, x);
    Views.CommitCloses(CommitUpdate(worked, c.update, [], c.step.view, x), d.update, [], d.step.view, y);
  }

  /* ---- An interval change that is not superseded ---- */

  /** From the empty tables: an interval change takes effect behind a subscription command that is newer. */
  lemma IntervalOutranked(s: State, chat: Chat) returns (states: seq<State>, labels: seq<Label>)
    requires Init(s) && Quiet(s)
    ensures Run(states, labels) && states[0] == s
    ensures var t := states[|labels|];
      && |t.h.effects| == 2 && t.h.effects[0].claim.command == Subscribe && t.h.effects[0].claim.chat == chat
      && t.h.effects[1].applied && t.h.effects[1].claim.command == SetInterval(5) && t.h.effects[1].claim.chat == chat
      && t.h.effects[1].claim.Ver().Before(t.h.effects[0].claim.Ver())
      && chat in t.db.subs && t.db.subs[chat].interval == 5
  {
    var open, a := TwoOpen(s, chat, 2, Subscribe, 1, SetInterval(5));
    var x, y := Context(None, 1, s.db.now), Context(None, 2, s.db.now);
    var b := BothCommit(a, 0, 1, x, y);
    OutrankTables(s.db, a.db, chat);
    var steps := [Inbox(0, Commit(x, true, true)), Inbox(1, Commit(y, true, true))];
    Joins(s, open, a, steps, b);
    labels := open + steps;
    states := FromStart(s, labels, b);
  }

  lemma OutrankTables(db: Db, worked: Db, chat: Chat)
    requires db.subs == map[] && db.versions == map[]
    requires worked == Worked(Worked(db, 2, chat, Subscribe), 1, chat, SetInterval(5))
    ensures var c, d := Reader(db, 2, chat, Subscribe), Reader(db, 1, chat, SetInterval(5));
      var x, y := Context(None, 1, db.now), Context(None, 2, db.now);
      var mid := CommitUpdate(worked, c.update, [], c.step.view, x);
      && Admits(mid.versions, d.update, d.step.view)
      && var last := CommitUpdate(mid, d.update, [], d.step.view, y);
         chat in last.subs && last.subs[chat].interval == 5
  {
    var c, d := Reader(db, 2, chat, Subscribe), Reader(db, 1, chat, SetInterval(5));
    var x, y := Context(None, 1, db.now), Context(None, 2, db.now);
    Views.CommitCloses(worked, c.update, [], c.step.view, x);
    Views.CommitCloses(CommitUpdate(worked, c.update, [], c.step.view, x), d.update, [], d.step.view, y);
  }

  /* ---- Eleven open alerts ---- */

  /** The n-th alert of the run below: its own threshold at a price of one. */
  ghost function Nth(n: nat): Command { AddAlert("BTCUSDT", n) }

  ghost predicate NthAlert(alert: Alert, chat: Chat, n: nat) {
    && alert.chat == chat && alert.source == n && alert.symbol == "BTCUSDT" && alert.pct == n
    && alert.status.Active?
  }

  /** Exactly the first n alerts, all active, and no rows. */
  ghost predicate Stock(db: Db, chat: Chat, n: nat) {
    && db.rows == map[] && db.nextAlert == n + 1
    && (forall a: nat :: a in db.alerts <==> 1 <= a <= n)
    && forall a | a in db.alerts :: NthAlert(db.alerts[a], chat, a)
  }

  ghost predicate Stocked(s: State, chat: Chat, n: nat) {
    Quiet(s) && Stock(s.db, chat, n) && forall u | u in s.db.updates :: 1 <= u <= n
  }

  lemma {:induction false} Counts(n: nat) returns (S: set<nat>)
    ensures |S| == n && forall a: nat :: a in S <==> 1 <= a <= n
  {
    S := {};
    if n > 0 {
      S := Counts(n - 1);
      S := S + {n};
    }
  }

  lemma StockSize(db: Db, chat: Chat, n: nat)
    requires Stock(db, chat, n)
    ensures |OpenAlerts(db, chat)| == n
  {
    var S := Counts(n);
    assert OpenAlerts(db, chat) == S;
  }

  ghost function QuoteNow(db: Db, n: nat): Context { Context(Some(Quote(1.0, db.now)), n, db.now) }

  /** One more alert, as long as the transaction has read fewer than ten. */
  lemma StockGrows(db: Db, u: int, chat: Chat, n: nat, view: View)
    requires Stock(db, chat, n) && n < 99 && view.readAt == db.now && |view.open| < MAX_OPEN_ALERTS && u == n + 1
    requires OwnsUpdate(db.updates, UpdateClaim(u, chat, Nth(n + 1), 1, db.epoch))
    ensures var db' := CommitUpdate(db, UpdateClaim(u, chat, Nth(n + 1), 1, db.epoch), [], view, QuoteNow(db, n + 1));
      && Stock(db', chat, n + 1) && db'.now == db.now && db'.epoch == db.epoch && db'.lastReceived == db.lastReceived
      && db'.updates == db.updates[u := db.updates[u].(status := Processed, claimedUntil := None,
          closedAt := view.began)]
  {
    var c := UpdateClaim(u, chat, Nth(n + 1), 1, db.epoch);
    assert AlertAccepted(db, c, "BTCUSDT", n + 1, view, QuoteNow(db, n + 1));
  }

  lemma StocksOne(s: State, chat: Chat, n: nat) returns (steps: seq<Label>, t: State)
    requires Stocked(s, chat, n) && n < MAX_OPEN_ALERTS
    ensures Leads(s, steps, t) && Stocked(t, chat, n + 1)
  {
    var open, a := SavedAndRead(s, 0, n + 1, chat, Nth(n + 1));
    var ctx := QuoteNow(s.db, n + 1);
    StockCommits(s.db, chat, n);
    t := Commits(a, 0, ctx);
    Joins(s, open, a, [Inbox(0, Commit(ctx, true, true)), Inbox(0, Depart)], t);
    steps := open + [Inbox(0, Commit(ctx, true, true)), Inbox(0, Depart)];
  }

  lemma StockCommits(db: Db, chat: Chat, n: nat)
    requires Stock(db, chat, n) && n < MAX_OPEN_ALERTS
    requires forall u | u in db.updates :: 1 <= u <= n && !db.updates[u].status.Open()
    ensures var a, pc := Worked(db, n + 1, chat, Nth(n + 1)), Reader(db, n + 1, chat, Nth(n + 1));
      var ctx := QuoteNow(db, n + 1);
      && OwnsUpdate(a.updates, pc.update)
      && var db' := CommitUpdate(a, pc.update, [], pc.step.view, ctx);
         && Stock(db', chat, n + 1) && db'.now == db.now && db'.lastReceived == db.now
         && forall u | u in db'.updates :: 1 <= u <= n + 1 && !db'.updates[u].status.Open()
  {
    StockSize(db, chat, n);
    StockGrows(Worked(db, n + 1, chat, Nth(n + 1)), n + 1, chat, n, Reader(db, n + 1, chat, Nth(n + 1)).step.view);
  }

  lemma {:induction false} Stocks(s: State, chat: Chat, n: nat) returns (steps: seq<Label>, t: State)
    requires Stocked(s, chat, 0) && n <= MAX_OPEN_ALERTS
    ensures Leads(s, steps, t) && Stocked(t, chat, n)
  {
    steps, t := [], s;
    if n > 0 {
      var before, a := Stocks(s, chat, n - 1);
      var last;
      last, t := StocksOne(a, chat, n - 1);
      Joins(s, before, a, last, t);
      steps := before + last;
    }
  }

  /** From the empty tables: nine alerts, then two transactions that both count nine, and eleven alerts. */
  lemma ElevenAlerts(s: State, chat: Chat) returns (states: seq<State>, labels: seq<Label>)
    requires Init(s) && Quiet(s)
    ensures Run(states, labels) && states[0] == s && |OpenAlerts(states[|labels|].db, chat)| == 11
  {
    var nine, a := Stocks(s, chat, 9);
    var two, b := LastTwo(a, chat);
    Joins(s, nine, a, two, b);
    StockSize(b.db, chat, 11);
    labels := nine + two;
    states := FromStart(s, labels, b);
  }

  lemma LastTwo(s: State, chat: Chat) returns (steps: seq<Label>, t: State)
    requires Stocked(s, chat, 9)
    ensures Leads(s, steps, t) && Stock(t.db, chat, 11)
  {
    var open, a := TwoOpen(s, chat, 11, Nth(11), 10, Nth(10));
    StockSize(s.db, chat, 9);
    var x, y := QuoteNow(s.db, 10), QuoteNow(s.db, 11);
    StockGrows(a.db, 10, chat, 9, a.pcs[1].step.view);
    t := BothCommit(a, 1, 0, x, y);
    StockGrows(CommitUpdate(a.db, a.pcs[1].update, [], a.pcs[1].step.view, x), 11, chat, 10, a.pcs[0].step.view);
    Joins(s, open, a, [Inbox(1, Commit(x, true, true)), Inbox(0, Commit(y, true, true))], t);
    steps := open + [Inbox(1, Commit(x, true, true)), Inbox(0, Commit(y, true, true))];
  }

  /* ---- A minute that is served twice ---- */

  /** A row that an idle worker can claim and lock right now. */
  ghost predicate Available(s: State, w: Worker, r: RowId, token: Token) {
    w !in s.pcs && Claimable(s.db.rows, r, s.db.now) && FreshToken(s, token) && ChatFree(s, s.db.rows[r].chat)
  }

  /** A scheduled job that can be vetted and delivered as well. */
  ghost predicate Deliverable(s: State, w: Worker, r: RowId, token: Token) {
    && Available(s, w, r, token) && r.Job?
    && var row := s.db.rows[r];
    row.kind.Scheduled? && row.chat in s.db.subs && s.db.subs[row.chat].subscribed
  }

  ghost predicate Carries(s: State, t: State, w: Worker, r: RowId, token: Token, phase: Phase, checked: Option<nat>)
    requires r in s.db.rows
  {
    && t.db == TakeClaim(s.db, r, token, s.db.now) && t.keyOf == s.keyOf && t.h.effects == s.h.effects
    && t.pcs == s.pcs[w := Sender(ClaimOf(r, s.db.rows[r], token, s.db.now), phase, true, checked, s.db.now)]
    && t.locks == s.locks[s.keyOf(s.db.rows[r].chat) := w]
  }

  lemma ClaimsAndLocks(s: State, w: Worker, r: RowId, token: Token) returns (t: State)
    requires Available(s, w, r, token)
    ensures Leads(s, [Outbox(w, SendStep.Claim(r, token, s.db.now, true)), Outbox(w, Lock)], t)
    ensures Carries(s, t, w, r, token, Claimed, None)
  {
    var a := ClaimStep(s, w, r, token, s.db.now, true);
    ClaimsFirst(s, w, r, token);
    t := NextSend(a, w, Lock);
    Two(s, Outbox(w, SendStep.Claim(r, token, s.db.now, true)), Outbox(w, Lock));
  }

  lemma ClaimsFirst(s: State, w: Worker, r: RowId, token: Token)
    requires Available(s, w, r, token)
    ensures CanSend(s, w, SendStep.Claim(r, token, s.db.now, true))
    ensures var a := ClaimStep(s, w, r, token, s.db.now, true);
      && CanSend(a, w, Lock) && a.db == TakeClaim(s.db, r, token, s.db.now) && a.locks == s.locks && a.keyOf == s.keyOf
      && a.h.effects == s.h.effects
      && a.pcs == s.pcs[w := Sender(ClaimOf(r, s.db.rows[r], token, s.db.now), Claimed, false, None, s.db.now)]
  {
  }

  lemma Vets(s: State, a: State, w: Worker, r: RowId, token: Token)
    requires Deliverable(s, w, r, token) && Carries(s, a, w, r, token, Claimed, None)
    ensures CanSend(a, w, Vet) && Carries(s, NextSend(a, w, Vet), w, r, token, Vetted, None)
  {
  }

  lemma Checks(s: State, a: State, w: Worker, r: RowId, token: Token)
    requires Available(s, w, r, token)
    requires Carries(s, a, w, r, token, if s.db.rows[r].kind.Reply? then Claimed else Vetted, None)
    ensures CanSend(a, w, Check(s.db.now))
    ensures Carries(s, NextSend(a, w, Check(s.db.now)), w, r, token, Checked, Some(s.db.now))
  {
  }

  lemma VetsAndChecks(s: State, a: State, w: Worker, r: RowId, token: Token) returns (t: State)
    requires Deliverable(s, w, r, token) && Carries(s, a, w, r, token, Claimed, None)
    ensures Leads(a, [Outbox(w, Vet), Outbox(w, Check(s.db.now))], t)
    ensures Carries(s, t, w, r, token, Checked, Some(s.db.now))
  {
    Vets(s, a, w, r, token);
    Checks(s, NextSend(a, w, Vet), w, r, token);
    Two(a, Outbox(w, Vet), Outbox(w, Check(s.db.now)));
    t := NextSend(NextSend(a, w, Vet), w, Check(s.db.now));
  }

  lemma BeginsIt(s: State, b: State, w: Worker, r: RowId, token: Token) returns (t: State)
    requires r in s.db.rows && Carries(s, b, w, r, token, Checked, Some(s.db.now))
    ensures Leads(b, [Outbox(w, BeginSend)], t) && Carries(s, t, w, r, token, InFlight, Some(s.db.now))
  {
    Begins(b, w);
    One(b, Outbox(w, BeginSend));
    t := BeginStep(b, w);
    assert t.pcs == s.pcs[w := b.pcs[w].(phase := InFlight)];
  }

  lemma SendsIt(s: State, a: State, w: Worker, r: RowId, token: Token) returns (t: State)
    requires r in s.db.rows && Carries(s, a, w, r, token, Checked, Some(s.db.now))
    ensures Leads(a, [Outbox(w, BeginSend), Outbox(w, EndSend(Accepted))], t)
    ensures Carries(s, t, w, r, token, Confirmed(0), Some(s.db.now))
  {
    var b := BeginsIt(s, a, w, r, token);
    t := AcceptsIt(s, b, w, r, token);
    Joins(a, [Outbox(w, BeginSend)], b, [Outbox(w, EndSend(Accepted))], t);
    assert [Outbox(w, BeginSend)] + [Outbox(w, EndSend(Accepted))] ==
      [Outbox(w, BeginSend), Outbox(w, EndSend(Accepted))];
  }

  lemma AcceptsIt(s: State, b: State, w: Worker, r: RowId, token: Token) returns (t: State)
    requires r in s.db.rows && Carries(s, b, w, r, token, InFlight, Some(s.db.now))
    ensures Leads(b, [Outbox(w, EndSend(Accepted))], t) && Carries(s, t, w, r, token, Confirmed(0), Some(s.db.now))
  {
    Accepts(b, w);
    One(b, Outbox(w, EndSend(Accepted)));
    t := Enter(b, w, Confirmed(0));
    assert t.pcs == s.pcs[w := b.pcs[w].(phase := Confirmed(0))];
  }

  lemma Begins(a: State, w: Worker)
    requires SenderAt(a, w) && a.pcs[w].phase.Checked?
    ensures CanSend(a, w, BeginSend) && NextSend(a, w, BeginSend) == BeginStep(a, w)
    ensures var b := BeginStep(a, w);
      && b.db == a.db && b.locks == a.locks && b.keyOf == a.keyOf && b.h.effects == a.h.effects
      && b.pcs == a.pcs[w := a.pcs[w].(phase := InFlight, since := a.db.now)]
  {
  }

  lemma Accepts(b: State, w: Worker)
    requires SenderAt(b, w) && b.pcs[w].phase.InFlight?
    ensures CanSend(b, w, EndSend(Accepted)) && NextSend(b, w, EndSend(Accepted)) == Enter(b, w, Confirmed(0))
  {
  }

  ghost function AfterDelivery(db: Db, r: RowId, token: Token): Db
    requires r in db.rows
  {
    Settle(TakeClaim(db, r, token, db.now), ClaimOf(r, db.rows[r], token, db.now), Delivered)
  }

  lemma RecordsIt(s: State, a: State, w: Worker, r: RowId, token: Token) returns (t: State)
    requires Deliverable(s, w, r, token) && Carries(s, a, w, r, token, Confirmed(0), Some(s.db.now))
    ensures Leads(a, [Outbox(w, Finalize(true, true)), Outbox(w, Release)], t)
    ensures t.db == AfterDelivery(s.db, r, token) && t.pcs == s.pcs && t.locks == s.locks && t.keyOf == s.keyOf
  {
    Finalizes(s, a, w, r, token);
    var b := FinalizeStep(a, w, true, true);
    Releases(s, b, w, r);
    t := Leave(b, w);
    Two(a, Outbox(w, Finalize(true, true)), Outbox(w, Release));
  }

  lemma Finalizes(s: State, a: State, w: Worker, r: RowId, token: Token)
    requires Deliverable(s, w, r, token) && Carries(s, a, w, r, token, Confirmed(0), Some(s.db.now))
    ensures CanSend(a, w, Finalize(true, true))
    ensures var b := FinalizeStep(a, w, true, true);
      && b.db == AfterDelivery(s.db, r, token) && b.locks == a.locks && b.keyOf == s.keyOf
      && b.pcs == s.pcs[w := b.pcs[w]] && b.pcs[w] == a.pcs[w].(phase := Done)
  {
  }

  lemma Releases(s: State, b: State, w: Worker, r: RowId)
    requires r in s.db.rows && w !in s.pcs && ChatFree(s, s.db.rows[r].chat) && b.keyOf == s.keyOf
    requires SenderAt(b, w) && b.pcs == s.pcs[w := b.pcs[w]] && b.pcs[w].phase.Done? && b.pcs[w].locked
    requires b.pcs[w].claim.chat == s.db.rows[r].chat && b.locks == s.locks[s.keyOf(s.db.rows[r].chat) := w]
    ensures CanSend(b, w, Release) && Leave(b, w).pcs == s.pcs && Leave(b, w).locks == s.locks && Leave(b, w).db == b.db
  {
  }

  /** A whole delivery by an idle worker, in one go. */
  lemma DeliversIt(s: State, w: Worker, r: RowId, token: Token) returns (steps: seq<Label>, t: State)
    requires Deliverable(s, w, r, token)
    ensures Leads(s, steps, t)
    ensures t.db == AfterDelivery(s.db, r, token) && t.pcs == s.pcs && t.locks == s.locks && t.keyOf == s.keyOf
  {
    var a := ClaimsAndLocks(s, w, r, token);
    var b := VetsAndChecks(s, a, w, r, token);
    var c := SendsIt(s, b, w, r, token);
    t := RecordsIt(s, c, w, r, token);
    steps := [Outbox(w, SendStep.Claim(r, token, s.db.now, true)), Outbox(w, Lock)];
    var vet := [Outbox(w, Vet), Outbox(w, Check(s.db.now))];
    var send := [Outbox(w, BeginSend), Outbox(w, EndSend(Accepted))];
    var done := [Outbox(w, Finalize(true, true)), Outbox(w, Release)];
    Joins(s, steps, a, vet, b);
    Joins(s, steps + vet, b, send, c);
    Joins(s, steps + vet + send, c, done, t);
    steps := steps + vet + send + done;
  }

  /** The last second of a minute. */
  ghost predicate LastSecond(at: nat) { (at + 1) % 60 == 0 }

  /** An interval change was read in the last second before its chat is due, and its lock session died. */
  ghost predicate ChangeRead(s: State, chat: Chat, began: nat) {
    && s.pcs.Keys == {0} && s.locks == map[] && s.db.rows == map[] && s.db.nextJob == 1 && LastSecond(began)
    && chat in s.db.subs && s.db.subs[chat].subscribed && s.db.subs[chat].interval == 60
    && Minute(s.db.subs[chat].lastSent) + 60 == Minute(began + 1) && s.db.subs[chat].cronClaimedUntil.None?
    && s.db.subs[chat].suspendedUntil.None?
    && HandlerAt(s, 0) && PendingChange(s.db, s.pcs[0], chat, began)
  }

  /** And the next minute has begun. */
  ghost predicate ChangePending(s: State, chat: Chat, began: nat) {
    ChangeRead(s, chat, began) && s.db.now == began + 1
  }

  ghost predicate PendingChange(db: Db, pc: Pc, chat: Chat, began: nat) {
    && pc.Handler? && pc.update.chat == chat && pc.update.command == SetInterval(1) && OwnsUpdate(db.updates, pc.update)
    && pc.step.Prepared? && pc.step.ids == [] && pc.step.view.began == began && pc.step.view.readAt == began
    && !pc.step.view.superseded && (chat, Interval) !in db.versions
  }

  /** The last second before a chat enrolled at this time is due for the first time. */
  ghost function BeforeDue(enrolled: nat): (at: nat)
    ensures LastSecond(at) && enrolled < at < enrolled + 3600
    ensures Minute(enrolled - 120) + 60 == Minute(at + 1)
  {
    60 * (Minute(enrolled) + 58) - 1
  }

  lemma ReachesRead(s: State, chat: Chat) returns (steps: seq<Label>, t: State, began: nat)
    requires Init(s)
    ensures Leads(s, steps, t) && ChangeRead(t, chat, began) && t.db.now == began
  {
    var enroll, a := Enrolls(s, chat);
    began := BeforeDue(s.db.now);
    Overlaps.Waits(a, began);
    One(a, World(Tick(began)));
    var b := a.(db := a.db.(now := began));
    var read;
    read, t := ReadAndDies(b, chat, 2, SetInterval(1));
    Joins(s, enroll, a, [World(Tick(began))], b);
    Joins(s, enroll + [World(Tick(began))], b, read, t);
    steps := enroll + [World(Tick(began))] + read;
  }

  lemma ReachesPending(s: State, chat: Chat) returns (steps: seq<Label>, t: State, began: nat)
    requires Init(s)
    ensures Leads(s, steps, t) && ChangePending(t, chat, began)
  {
    var read, a;
    read, a, began := ReachesRead(s, chat);
    Overlaps.Waits(a, began + 1);
    One(a, World(Tick(began + 1)));
    t := a.(db := a.db.(now := began + 1));
    Joins(s, read, a, [World(Tick(began + 1))], t);
    steps := read + [World(Tick(began + 1))];
  }

  /** Cron finds the chat due, and the job can be delivered. */
  lemma FirstServing(s: State, chat: Chat, began: nat)
    requires ChangePending(s, chat, began)
    ensures CanWorld(s, Cron(chat, 1, s.db.now))
    ensures var t := NextWorld(s, Cron(chat, 1, s.db.now));
      && Deliverable(t, 1, Job(1), 0) && t.pcs == s.pcs && t.db == CreateScheduled(s.db, chat, 1, s.db.now)
  {
  }

  ghost function FirstSent(db: Db, chat: Chat): Db
    requires chat in db.subs
  {
    AfterDelivery(CreateScheduled(db, chat, 1, db.now), Job(1), 0)
  }

  lemma FirstIsSent(db: Db, chat: Chat)
    requires db.rows == map[] && chat in db.subs && db.subs[chat].subscribed
    ensures var sent := FirstSent(db, chat);
      && sent.updates == db.updates && sent.versions == db.versions && sent.nextJob == 2 && sent.now == db.now
      && sent.nextAlert == db.nextAlert && sent.rows.Keys == {Job(1)} && SentSlot(sent, Job(1), chat, db.now)
      && chat in sent.subs && sent.subs[chat].subscribed && sent.subs[chat].cronClaimedUntil.None?
      && sent.subs[chat].suspendedUntil.None?
  {
  }

  /** After the delivery the pending change moves last_sent back, and the chat is due again at once. */
  lemma DueAgain(sent: Db, pc: Pc, chat: Chat, began: nat, ctx: Context)
    requires sent.rows.Keys == {Job(1)} && SentSlot(sent, Job(1), chat, sent.now) && sent.now == began + 1
    requires LastSecond(began)
    requires chat in sent.subs && sent.subs[chat].subscribed && sent.subs[chat].cronClaimedUntil.None?
    requires sent.subs[chat].suspendedUntil.None? && PendingChange(sent, pc, chat, began)
    ensures var last := CommitUpdate(sent, pc.update, [], pc.step.view, ctx);
      && Due(last, chat, sent.now) && last.nextJob == sent.nextJob && last.now == sent.now && last.rows == sent.rows
  {
    var last := CommitUpdate(sent, pc.update, [], pc.step.view, ctx);
    assert Admits(sent.versions, pc.update, pc.step.view);
    assert last.rows == sent.rows;
    Views.CommitCloses(sent, pc.update, [], pc.step.view, ctx);
  }

  lemma ServesAgain(s: State, chat: Chat, began: nat, ctx: Context) returns (t: State)
    requires HandlerAt(s, 0) && CanHandle(s, 0, Commit(ctx, true, true)) && s.db.nextJob == 2
    requires s.db.now == began + 1 && LastSecond(began)
    requires s.db.rows.Keys == {Job(1)} && SentSlot(s.db, Job(1), chat, s.db.now)
    requires PendingChange(s.db, s.pcs[0], chat, began)
    requires chat in s.db.subs && s.db.subs[chat].subscribed
    requires s.db.subs[chat].cronClaimedUntil.None? && s.db.subs[chat].suspendedUntil.None?
    ensures Leads(s, [Inbox(0, Commit(ctx, true, true))] + [World(Cron(chat, 2, s.db.now))], t)
    ensures t.db.rows == s.db.rows[Job(2) := NewJob(chat, Scheduled, s.db.now, s.db.now)]
  {
    DueAgain(s.db, s.pcs[0], chat, began, ctx);
    var c := CommitsNow(s, 0, ctx);
    One(c, World(Cron(chat, 2, s.db.now)));
    t := NextWorld(c, Cron(chat, 2, s.db.now));
    Joins(s, [Inbox(0, Commit(ctx, true, true))], c, [World(Cron(chat, 2, s.db.now))], t);
  }

  lemma ServesTwice(s: State, chat: Chat, began: nat) returns (steps: seq<Label>, t: State)
    requires ChangePending(s, chat, began)
    ensures Leads(s, steps, t) && SentSlot(t.db, Job(1), chat, s.db.now)
    ensures OpenScheduled(t.db, Job(2)) && t.db.rows[Job(2)].chat == chat && t.db.rows[Job(2)].scheduledAt == s.db.now
  {
    var cron, ctx := World(Cron(chat, 1, s.db.now)), Context(None, s.db.nextAlert, s.db.now);
    FirstServing(s, chat, began);
    One(s, cron);
    var a := Next(s, cron);
    var deliver, b := DeliversIt(a, 1, Job(1), 0);
    FirstIsSent(s.db, chat);
    t := ServesAgain(b, chat, began, ctx);
    var again := [Inbox(0, Commit(ctx, true, true))] + [World(Cron(chat, 2, s.db.now))];
    Joins(s, [cron], a, deliver, b);
    Joins(s, [cron] + deliver, b, again, t);
    steps := [cron] + deliver + again;
  }

  /** From the empty tables: an interval change that began one second before a delivery commits after it, and
      a second job is created for the minute that was just served. */
  lemma SlotRepeated(s: State, chat: Chat) returns (states: seq<State>, labels: seq<Label>, slot: nat)
    requires Init(s)
    ensures Run(states, labels) && states[0] == s
    ensures var db := states[|labels|].db;
      && SentSlot(db, Job(1), chat, slot) && OpenScheduled(db, Job(2)) && db.rows[Job(2)].chat == chat
      && db.rows[Job(2)].scheduledAt == slot
  {
    var first, a, began := ReachesPending(s, chat);
    var rest, b := ServesTwice(a, chat, began);
    slot := a.db.now;
    Joins(s, first, a, rest, b);
    labels := first + rest;
    states := FromStart(s, labels, b);
  }

  /* ---- A reply that is overtaken ---- */

  ghost predicate Answering(s: State, chat: Chat, late: nat) {
    && s.pcs.Keys == {0, 1} && HandlerAt(s, 0) && HandlerAt(s, 1) && s.locks == map[s.keyOf(chat) := 1]
    && s.db.rows == map[] && s.db.nextAnswer == late && |s.h.effects| == 0
    && (forall w | w in s.pcs :: AnsweringPc(s, s.pcs[w], chat))
    && s.pcs[0].update.id == 2 && s.pcs[1].update.id == 1
  }

  ghost predicate AnsweringPc(s: State, pc: Pc, chat: Chat) {
    && pc.Handler? && pc.secured && pc.update.chat == chat && pc.update.command == Other && pc.step.Prepared?
    && OwnsUpdate(s.db.updates, pc.update) && pc.step.view.readAt == s.db.now == pc.step.view.began
  }

  lemma OpenBoth(s: State, chat: Chat) returns (steps: seq<Label>, t: State)
    requires Init(s) && Quiet(s)
    ensures Leads(s, steps, t) && Answering(t, chat, 1) && t.pcs[0].step.ids == [] && t.pcs[1].step.ids == []
  {
    steps, t := TwoOpen(s, chat, 2, Other, 1, Other);
  }

  lemma DrawsNow(s: State, w: Worker, id: nat) returns (t: State)
    requires CanHandle(s, w, Draw(id))
    ensures Leads(s, [Inbox(w, Draw(id))], t) && t.db == s.db.(nextAnswer := id + 1)
    ensures t.locks == s.locks && t.keyOf == s.keyOf && t.h == s.h
    ensures t.pcs == s.pcs[w := s.pcs[w].(step := s.pcs[w].step.(ids := s.pcs[w].step.ids + [id]))]
  {
    One(s, Inbox(w, Draw(id)));
    t := NextHandle(s, w, Draw(id));
  }

  /** The transaction whose session died draws the first id, the other one the second. */
  lemma DrawBoth(s: State, chat: Chat) returns (steps: seq<Label>, t: State)
    requires Answering(s, chat, 1) && s.pcs[0].step.ids == [] && s.pcs[1].step.ids == []
    ensures Leads(s, steps, t) && Answering(t, chat, 3) && t.pcs[0].step.ids == [1] && t.pcs[1].step.ids == [2]
  {
    var a := DrawsNow(s, 0, 1);
    t := DrawsNow(a, 1, 2);
    Joins(s, [Inbox(0, Draw(1))], a, [Inbox(1, Draw(2))], t);
    steps := [Inbox(0, Draw(1))] + [Inbox(1, Draw(2))];
  }

  /** What a transaction that only answers leaves in the tables. */
  lemma AnswersOne(db: Db, c: UpdateClaim, id: nat, view: View, ctx: Context)
    requires OwnsUpdate(db.updates, c) && c.command == Other && !ReplyExists(db.rows, c.id, 0)
    ensures var db' := CommitUpdate(db, c, [id], view, ctx);
      && db'.rows == db.rows[Answer(id) := ReplyRow(c, 0, view.began)]
      && db'.now == db.now && db'.nextAlert == db.nextAlert
      && forall d: UpdateClaim | d.id != c.id :: OwnsUpdate(db'.updates, d) <==> OwnsUpdate(db.updates, d)
  {
    AddsOne(db.rows, c, id, view.began);
    Views.CommitCloses(db, c, [id], view, ctx);
  }

  lemma AddsOne(rows: map<RowId, Row>, c: UpdateClaim, id: nat, at: nat)
    requires !ReplyExists(rows, c.id, 0)
    ensures NewReplies(rows, c, [id], at) == map[Answer(id) := ReplyRow(c, 0, at)]
  {
    assert [id][..0] == [];
  }

  /** One reply is stored, the other one's transaction still open. */
  ghost predicate OneStored(s: State, chat: Chat) {
    && s.pcs.Keys == {0} && s.locks == map[] && AnsweringPc(s, s.pcs[0], chat) && s.pcs[0].step.ids == [1]
    && s.pcs[0].update.id == 2
    && s.db.rows.Keys == {Answer(2)} && s.db.rows[Answer(2)] == Row(chat, Reply(1, 0), Pending, 0, None, None, s.db.now,
        s.db.now, 0)
    && |s.h.effects| == 1 && s.h.effects[0].claim.id == 1
  }

  lemma StoresOne(s: State, chat: Chat) returns (steps: seq<Label>, t: State)
    requires Answering(s, chat, 3) && s.pcs[0].step.ids == [1] && s.pcs[1].step.ids == [2]
    ensures Leads(s, steps, t) && OneStored(t, chat)
  {
    var ctx := Context(None, s.db.nextAlert, s.db.now);
    AnswersOne(s.db, s.pcs[1].update, 2, s.pcs[1].step.view, ctx);
    t := Commits(s, 1, ctx);
    steps := [Inbox(1, Commit(ctx, true, true)), Inbox(1, Depart)];
  }

  /** A reply on its way, from the claim to the send. */
  lemma SendsReply(s: State, w: Worker, r: RowId, token: Token) returns (steps: seq<Label>, t: State)
    requires Available(s, w, r, token) && s.db.rows[r].kind.Reply?
    ensures Leads(s, steps, t) && Carries(s, t, w, r, token, InFlight, Some(s.db.now))
  {
    var a := ClaimsAndLocks(s, w, r, token);
    var b := NextSend(a, w, Check(s.db.now));
    Checks(s, a, w, r, token);
    One(a, Outbox(w, Check(s.db.now)));
    t := BeginsIt(s, b, w, r, token);
    steps := [Outbox(w, SendStep.Claim(r, token, s.db.now, true)), Outbox(w, Lock)];
    Joins(s, steps, a, [Outbox(w, Check(s.db.now))], b);
    Joins(s, steps + [Outbox(w, Check(s.db.now))], b, [Outbox(w, BeginSend)], t);
    steps := steps + [Outbox(w, Check(s.db.now))] + [Outbox(w, BeginSend)];
  }

  /** One reply in flight, the other one's transaction still open. */
  ghost predicate OneInFlight(s: State, chat: Chat) {
    && s.pcs.Keys == {0, 2} && AnsweringPc(s, s.pcs[0], chat) && s.pcs[0].step.ids == [1] && s.pcs[0].update.id == 2
    && Sends.Sending(s, 2) && s.pcs[2].claim.row == Answer(2) && s.pcs[2].claim.chat == chat
    && s.db.rows.Keys == {Answer(2)} && s.db.rows[Answer(2)].kind == Reply(1, 0)
    && |s.h.effects| == 1 && s.h.effects[0].claim.id == 1
  }

  lemma FirstLeaves(s: State, chat: Chat) returns (steps: seq<Label>, t: State)
    requires OneStored(s, chat)
    ensures Leads(s, steps, t) && OneInFlight(t, chat)
  {
    assert Available(s, 2, Answer(2), 0);
    steps, t := SendsReply(s, 2, Answer(2), 0);
  }

  /** Then the open transaction commits: its reply comes before the one in flight. */
  lemma Overtakes(s: State, chat: Chat) returns (steps: seq<Label>, t: State)
    requires OneInFlight(s, chat)
    ensures Leads(s, steps, t) && Overtaken(t, chat)
  {
    var ctx := Context(None, s.db.nextAlert, s.db.now);
    AnswersOne(s.db, s.pcs[0].update, 1, s.pcs[0].step.view, ctx);
    t := CommitsNow(s, 0, ctx);
    steps := [Inbox(0, Commit(ctx, true, true))];
  }

  /** The reply of the first transaction is in flight, that of the second one, under a smaller id, still open. */
  ghost predicate Overtaken(s: State, chat: Chat) {
    && Sends.Sending(s, 2) && s.pcs[2].claim.row == Answer(2) && s.pcs[2].claim.chat == chat
    && Answer(1) in s.db.rows && s.db.rows[Answer(1)].chat == chat && s.db.rows[Answer(1)].status.Open()
    && Answer(2) in s.db.rows && s.db.rows[Answer(2)].kind == Reply(1, 0) && s.db.rows[Answer(1)].kind == Reply(2, 0)
    && |s.h.effects| == 2 && s.h.effects[0].claim.id == 1 && s.h.effects[1].claim.id == 2
  }

  /** From the empty tables: a reply is in flight although one with a smaller id is open in its chat, and the ids
      contradict the order in which the two updates took effect. */
  lemma ReplyOvertaken(s: State, chat: Chat) returns (states: seq<State>, labels: seq<Label>)
    requires Init(s) && Quiet(s)
    ensures Run(states, labels) && states[0] == s && Overtaken(states[|labels|], chat)
  {
    var open, a := OpenBoth(s, chat);
    var draw, b := DrawBoth(a, chat);
    var store, c := StoresOne(b, chat);
    var leave, d := FirstLeaves(c, chat);
    var last, e := Overtakes(d, chat);
    Joins(s, open, a, draw, b);
    Joins(s, open + draw, b, store, c);
    Joins(s, open + draw + store, c, leave, d);
    Joins(s, open + draw + store + leave, d, last, e);
    labels := open + draw + store + leave + last;
    states := FromStart(s, labels, e);
  }
}
