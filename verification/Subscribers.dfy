/** Where every column of a subscriber comes from, and what that makes of the cron schedule, over whole runs. */
module Subscribers {
  import opened Policy
  import opened Tables
  import opened Machine
  import opened Claims
  import opened Views
  import opened Safety
  import opened Stories
  import opened Pacing
  import Cadence

  /* ---- New subscribers ---- */

  /** A language choice or a /subscribe. */
  ghost predicate Introduces(cause: SubCause) {
    cause.SubCommand? && (cause.cmd.Subscribe? || (cause.cmd.SetLanguage? && cause.cmd.code in ["ua", "en", "ru"]))
  }

  /** One that takes effect in a chat without a subscriber. */
  ghost predicate Enrolls(s: State, l: Label, chat: Chat)
    requires Can(s, l)
  {
    chat !in s.db.subs && Introduces(CauseOf(s, l, chat))
  }

  ghost predicate EnrollTold(subs: map<Chat, Sub>, subs': map<Chat, Sub>, chat: Chat, cause: SubCause) {
    chat !in subs ==>
      && (chat in subs' <==> Introduces(cause))
      && (chat in subs' ==>
            var sub := subs'[chat];
            && sub.subscribed == cause.cmd.Subscribe? && sub.interval == 60 && sub.lastSent == cause.view.began - 120
            && sub.lang == (if cause.cmd.Subscribe? then cause.view.lang else cause.cmd.code)
            && sub.cronClaimedUntil == None && sub.suspendedUntil == None)
  }

  lemma EnrollCommand(subs: map<Chat, Sub>, chat: Chat, cmd: Command, view: View, other: Chat)
    ensures EnrollTold(subs, SubsAfter(subs, chat, cmd, view), other,
                       if other == chat then SubCommand(cmd, view) else SubSame)
  {
  }

  lemma EnrollHandle(s: State, w: Worker, l: HandleStep, chat: Chat)
    requires CanHandle(s, w, l)
    ensures EnrollTold(s.db.subs, NextHandle(s, w, l).db.subs, chat, SubCauseHandle(s, w, l, chat))
  {
    HandleShape(s, w, l);
    if Effective(s, w, l) {
      var c, view := s.pcs[w].update, s.pcs[w].step.view;
      CommitCloses(s.db, c, s.pcs[w].step.ids, view, l.ctx);
      EnrollCommand(s.db.subs, c.chat, c.command, view, chat);
    }
  }

  lemma EnrollSend(s: State, w: Worker, l: SendStep, chat: Chat)
    requires CanSend(s, w, l)
    ensures EnrollTold(s.db.subs, NextSend(s, w, l).db.subs, chat, SubCauseSend(s, w, l, chat))
  {
    SendShape(s, w, l);
  }

  lemma EnrollWorld(s: State, l: WorldStep, chat: Chat)
    requires CanWorld(s, l)
    ensures EnrollTold(s.db.subs, NextWorld(s, l).db.subs, chat, SubCauseWorld(l, chat))
  {
  }

  /** A subscriber appears with exactly such a command, and with these columns. */
  lemma EnrollStory(s: State, l: Label, chat: Chat)
    requires Can(s, l)
    ensures EnrollTold(s.db.subs, Next(s, l).db.subs, chat, CauseOf(s, l, chat))
  {
    match l
    case Outbox(w, send) => EnrollSend(s, w, send, chat);
    case Inbox(w, handle) => EnrollHandle(s, w, handle, chat);
    case Prices(price) => SubPrice(s, price);
    case World(world) => EnrollWorld(s, world, chat);
  }

  /* ---- Columns ---- */

  datatype Column = Minutes | LastSent | CronClaim | Suspension

  /** An interval choice that takes effect on the subscriber. */
  ghost predicate Retunes(s: State, l: Label, chat: Chat)
    requires Can(s, l)
  {
    chat in s.db.subs && Cadence.Rescheduled(CauseOf(s, l, chat), s.db.subs[chat])
  }

  /** The causes that write a column of a known subscriber. */
  ghost predicate Touches(sub: Sub, cause: SubCause, col: Column) {
    match col
    case Minutes => Cadence.Rescheduled(cause, sub)
    case LastSent => Cadence.Rescheduled(cause, sub) || (cause.SubOutcome? && cause.v.Delivered?)
    case CronClaim => cause.SubCron? || cause.SubOutcome? || (cause.SubCommand? && cause.cmd.Unsubscribe?)
    case Suspension =>
      || (cause.SubOutcome? && (cause.v.Delivered? || cause.v.Fail?))
      || (cause.SubCommand? && (cause.cmd.Subscribe? || cause.cmd.Unsubscribe?))
  }

  ghost predicate SameColumn(sub: Sub, sub': Sub, col: Column) {
    match col
    case Minutes => sub'.interval == sub.interval
    case LastSent => sub'.lastSent == sub.lastSent
    case CronClaim => sub'.cronClaimedUntil == sub.cronClaimedUntil
    case Suspension => sub'.suspendedUntil == sub.suspendedUntil
  }

  /** What such a cause leaves in the column. */
  ghost predicate Left(cause: SubCause, now: nat, sub': Sub, col: Column) {
    match col
    case Minutes => cause.SubCommand? && cause.cmd.SetInterval? && sub'.interval == cause.cmd.minutes
    case LastSent =>
      if cause.SubOutcome? then sub'.lastSent == cause.at / 60 * 60
      else cause.SubCommand? && sub'.lastSent == cause.view.began
    case CronClaim => sub'.cronClaimedUntil == if cause.SubCron? then Some(cause.at + 900) else None
    case Suspension =>
      sub'.suspendedUntil == if cause.SubOutcome? && cause.v == Fail(false) then Some(now + 900) else None
  }

  lemma ColumnTold(sub: Sub, cause: SubCause, now: nat, col: Column)
    ensures var sub' := SubAfter(sub, cause, now);
      if Touches(sub, cause, col) then Left(cause, now, sub', col) else SameColumn(sub, sub', col)
  {
  }

  /** The steps that write a column of a chat's subscriber, new or known. */
  ghost predicate Writes(s: State, l: Label, chat: Chat, col: Column)
    requires Can(s, l)
  {
    Enrolls(s, l, chat) || (chat in s.db.subs && Touches(s.db.subs[chat], CauseOf(s, l, chat), col))
  }

  /** What such a step leaves in the column. */
  ghost predicate Wrote(s: State, l: Label, chat: Chat, sub': Sub, col: Column)
    requires Can(s, l)
  {
    if chat in s.db.subs then Left(CauseOf(s, l, chat), s.db.now, sub', col)
    else match col {
      case Minutes => sub'.interval == 60
      case LastSent => CauseOf(s, l, chat).SubCommand? && sub'.lastSent == CauseOf(s, l, chat).view.began - 120
      case CronClaim => sub'.cronClaimedUntil == None
      case Suspension => sub'.suspendedUntil == None
    }
  }

  /** Every step keeps a column of a subscriber or writes it. */
  lemma ColumnStep(s: State, l: Label, chat: Chat, col: Column)
    requires Can(s, l) && chat in Next(s, l).db.subs
    ensures var sub' := Next(s, l).db.subs[chat];
      if Writes(s, l, chat, col) then Wrote(s, l, chat, sub', col)
      else chat in s.db.subs && SameColumn(s.db.subs[chat], sub', col)
  {
    EnrollStory(s, l, chat);
    SubStory(s, l, chat);
    if chat in s.db.subs { ColumnTold(s.db.subs[chat], CauseOf(s, l, chat), s.db.now, col); }
  }

  ghost predicate Steps(states: seq<State>, labels: seq<Label>) {
    |states| == |labels| + 1 && forall k | 0 <= k < |labels| :: Can(states[k], labels[k])
  }

  /** The last step before state i that wrote the column. */
  ghost predicate LastWrite(states: seq<State>, labels: seq<Label>, i: nat, chat: Chat, col: Column, k: nat)
    requires Steps(states, labels) && i < |states|
  {
    && k < i && Writes(states[k], labels[k], chat, col)
    && forall m | k < m < i :: !Writes(states[m], labels[m], chat, col)
  }

  ghost predicate ColumnMoves(s: State, l: Label, t: State, chat: Chat, col: Column)
    requires Can(s, l)
  {
    chat in t.db.subs ==>
      if Writes(s, l, chat, col) then Wrote(s, l, chat, t.db.subs[chat], col)
      else chat in s.db.subs && SameColumn(s.db.subs[chat], t.db.subs[chat], col)
  }

  lemma {:induction false} ChainColumn(states: seq<State>, labels: seq<Label>, i: nat, chat: Chat, col: Column)
      returns (k: nat)
    requires Steps(states, labels) && i < |states| && chat !in states[0].db.subs && chat in states[i].db.subs
    requires forall k | 0 <= k < i :: ColumnMoves(states[k], labels[k], states[k + 1], chat, col)
    ensures LastWrite(states, labels, i, chat, col, k)
    ensures Wrote(states[k], labels[k], chat, states[i].db.subs[chat], col)
  {
    k := i - 1;
    assert ColumnMoves(states[k], labels[k], states[k + 1], chat, col);
    if !Writes(states[k], labels[k], chat, col) { k := ChainColumn(states, labels, k, chat, col); }
  }

  /** Every column of a subscriber holds what the last step that wrote it has left there. */
  lemma ColumnFollows(states: seq<State>, labels: seq<Label>, i: nat, chat: Chat, col: Column) returns (k: nat)
    requires Run(states, labels) && i < |states| && chat in states[i].db.subs
    ensures LastWrite(states, labels, i, chat, col, k)
    ensures Wrote(states[k], labels[k], chat, states[i].db.subs[chat], col)
  {
    forall k | 0 <= k < i ensures ColumnMoves(states[k], labels[k], states[k + 1], chat, col) {
      if chat in states[k + 1].db.subs { ColumnStep(states[k], labels[k], chat, col); }
    }
    k := ChainColumn(states, labels, i, chat, col);
  }

  /** A chat's interval is that of the last interval choice that took effect on its subscriber, and sixty minutes
      if there was none. */
  lemma IntervalFollows(states: seq<State>, labels: seq<Label>, i: nat, chat: Chat)
    requires Run(states, labels) && i < |states| && chat in states[i].db.subs
    ensures (forall k | 0 <= k < i :: !Retunes(states[k], labels[k], chat)) ==> states[i].db.subs[chat].interval == 60
    ensures forall k | 0 <= k < i && Retunes(states[k], labels[k], chat)
                       && (forall m | k < m < i :: !Retunes(states[m], labels[m], chat)) ::
      states[i].db.subs[chat].interval == CauseOf(states[k], labels[k], chat).cmd.minutes
  {
    var n := ColumnFollows(states, labels, i, chat, Minutes);
    forall k | 0 <= k < i && Retunes(states[k], labels[k], chat)
               && (forall m | k < m < i :: !Retunes(states[m], labels[m], chat))
      ensures k == n
    {
      if k < n { KnownForever(states, labels, k, n, chat); }
    }
  }

  ghost predicate StaysKnown(s: State, t: State, chat: Chat) { chat in s.db.subs ==> chat in t.db.subs }

  lemma {:induction false} ChainKnown(states: seq<State>, i: nat, j: nat, chat: Chat)
    requires i <= j < |states| && chat in states[i].db.subs
    requires forall k | i <= k < j :: StaysKnown(states[k], states[k + 1], chat)
    ensures chat in states[j].db.subs
  {
    if i < j { ChainKnown(states, i, j - 1, chat); assert StaysKnown(states[j - 1], states[j - 1 + 1], chat); }
  }

  lemma KnownForever(states: seq<State>, labels: seq<Label>, i: nat, j: nat, chat: Chat)
    requires Run(states, labels) && i <= j < |states| && chat in states[i].db.subs
    ensures chat in states[j].db.subs
  {
    forall k | i <= k < j ensures StaysKnown(states[k], states[k + 1], chat) { SubStory(states[k], labels[k], chat); }
    ChainKnown(states, i, j, chat);
  }

  /** last_sent is the minute of the last recorded delivery, the start of the last interval choice that took
      effect, or two minutes before the chat's first command, whichever came last. */
  lemma LastSentFollows(states: seq<State>, labels: seq<Label>, i: nat, chat: Chat) returns (k: nat)
    requires Run(states, labels) && i < |states| && chat in states[i].db.subs
    ensures LastWrite(states, labels, i, chat, LastSent, k)
    ensures var cause := CauseOf(states[k], labels[k], chat);
      if Retunes(states[k], labels[k], chat) then states[i].db.subs[chat].lastSent == cause.view.began
      else if Enrolls(states[k], labels[k], chat) then states[i].db.subs[chat].lastSent == cause.view.began - 120
      else cause.SubOutcome? && cause.v.Delivered? && states[i].db.subs[chat].lastSent == cause.at / 60 * 60
  {
    k := ColumnFollows(states, labels, i, chat, LastSent);
  }

  /* ---- The schedule ---- */

  ghost predicate OpenSlot(db: Db, chat: Chat) {
    exists r | r in db.rows ::
      && db.rows[r].chat == chat && db.rows[r].kind == Scheduled
      && (db.rows[r].status == Pending || db.rows[r].status == Sending)
  }

  /** The interval has passed since the minute of last_sent and no scheduled job of the chat is open. */
  ghost predicate SlotCame(db: Db, chat: Chat, at: nat) {
    && chat in db.subs && db.subs[chat].subscribed
    && db.subs[chat].lastSent / 60 * 60 + 60 * db.subs[chat].interval <= at
    && !OpenSlot(db, chat)
  }

  /** What a chat needs to get a scheduled job: its slot has come, its cron claim has run out and its suspension
      has ended. */
  ghost predicate Ripe(db: Db, chat: Chat, at: nat) {
    && SlotCame(db, chat, at)
    && (db.subs[chat].cronClaimedUntil == None || db.subs[chat].cronClaimedUntil.value < at)
    && (db.subs[chat].suspendedUntil == None || db.subs[chat].suspendedUntil.value <= at)
  }

  lemma RipeIsDue(db: Db, chat: Chat, at: nat)
    ensures Ripe(db, chat, at) <==> Due(db, chat, at)
  {
  }

  /** A cron run can give a chat a job exactly if it is ripe. */
  lemma CronExactly(s: State, chat: Chat, id: nat, at: nat)
    requires at <= s.db.now && id >= s.db.nextJob
    ensures Can(s, World(Cron(chat, id, at))) <==> Ripe(s.db, chat, at)
  {
    RipeIsDue(s.db, chat, at);
  }

  /** A cron claim of the chat that no outcome and no unsubscription has ended is still in force at this moment. */
  ghost predicate ClaimStands(states: seq<State>, labels: seq<Label>, j: nat, chat: Chat, at: nat)
    requires Run(states, labels) && j < |states|
  {
    exists k | 0 <= k < j :: CronOf(labels[k], chat) && labels[k].world.at + 900 >= at && NotEnded(states, labels, k, j,
        chat, CronHold)
  }

  ghost predicate CronOf(l: Label, chat: Chat) { l.World? && l.world.Cron? && l.world.chat == chat }

  /** An exhausted failure of the chat that no delivery, unsubscription or /subscribe has ended is less than fifteen
      minutes old. */
  ghost predicate SuspensionStands(states: seq<State>, labels: seq<Label>, j: nat, chat: Chat, at: nat)
    requires Run(states, labels) && j < |states|
  {
    exists k | 0 <= k < j :: Exhausts(states[k], labels[k], chat) && states[k].db.now + 900 > at && NotEnded(states,
        labels, k, j, chat, Cooldown)
  }

  /** A scheduled job of the chat fails for the last time. */
  ghost predicate Exhausts(s: State, l: Label, chat: Chat)
    requires Can(s, l)
  {
    CauseOf(s, l, chat).SubOutcome? && CauseOf(s, l, chat).v == Fail(false)
  }

  ghost predicate NotEnded(states: seq<State>, labels: seq<Label>, k: nat, j: nat, chat: Chat, hold: Hold)
    requires Run(states, labels) && j < |states|
  {
    forall m | k < m < j :: !Ends(CauseOf(states[m], labels[m], chat), hold)
  }

  lemma ClaimKept(states: seq<State>, labels: seq<Label>, k: nat, j: nat, chat: Chat)
    requires Run(states, labels) && k < j < |states| && CronOf(labels[k], chat)
    requires NotEnded(states, labels, k, j, chat, CronHold)
    ensures Held(states[j].db, chat, CronHold, labels[k].world.at + 901)
  {
    CronClaims(states[k], chat, labels[k].world.id, labels[k].world.at);
    StaysOnHold(states, labels, k + 1, j, chat, CronHold, labels[k].world.at + 901);
  }

  lemma SuspensionKept(states: seq<State>, labels: seq<Label>, k: nat, j: nat, chat: Chat)
    requires Run(states, labels) && k < j < |states| && chat in states[k].db.subs
    requires Exhausts(states[k], labels[k], chat) && NotEnded(states, labels, k, j, chat, Cooldown)
    ensures Held(states[j].db, chat, Cooldown, states[k].db.now + 900)
  {
    SubStory(states[k], labels[k], chat);
    Forever(states, labels, k, k + 1);
    StaysOnHold(states, labels, k + 1, j, chat, Cooldown, states[k].db.now + 900);
  }

  /** Only a subscriber's job can fail. */
  lemma ExhaustsKnown(states: seq<State>, labels: seq<Label>, k: nat, chat: Chat)
    requires Run(states, labels) && k < |labels| && Exhausts(states[k], labels[k], chat)
    ensures chat in states[k].db.subs
  {
    RunBase(states, labels, k);
    RunJobs(states, labels, k);
    Cadence.OutcomeIsOpen(states[k], labels[k], chat);
  }

  /** What nobody has written since nobody has ended. */
  lemma NoneEnded(states: seq<State>, labels: seq<Label>, k: nat, j: nat, chat: Chat, hold: Hold)
    requires Run(states, labels) && k < j < |states| && chat in states[k].db.subs && !hold.Silence?
    requires forall m | k < m < j ::
      !Writes(states[m], labels[m], chat, if hold.CronHold? then CronClaim else Suspension)
    ensures NotEnded(states, labels, k, j, chat, hold)
  {
    forall m | k < m < j ensures !Ends(CauseOf(states[m], labels[m], chat), hold) {
      KnownForever(states, labels, k, m, chat);
      assert !Writes(states[m], labels[m], chat, if hold.CronHold? then CronClaim else Suspension);
    }
  }

  lemma ClaimFound(states: seq<State>, labels: seq<Label>, j: nat, chat: Chat, at: nat)
    requires Run(states, labels) && j < |states| && chat in states[j].db.subs
    ensures var sub := states[j].db.subs[chat];
      (sub.cronClaimedUntil.Some? && sub.cronClaimedUntil.value >= at) <==> ClaimStands(states, labels, j, chat, at)
  {
    var k := ColumnFollows(states, labels, j, chat, CronClaim);
    if CauseOf(states[k], labels[k], chat).SubCron? {
      NoneEnded(states, labels, k, j, chat, CronHold);
      if labels[k].world.at + 900 >= at { assert ClaimStands(states, labels, j, chat, at); }
    }
    if ClaimStands(states, labels, j, chat, at) {
      var c :| 0 <= c < j && CronOf(labels[c], chat) && labels[c].world.at + 900 >= at
               && NotEnded(states, labels, c, j, chat, CronHold);
      ClaimKept(states, labels, c, j, chat);
    }
  }

  lemma SuspensionFound(states: seq<State>, labels: seq<Label>, j: nat, chat: Chat, at: nat)
    requires Run(states, labels) && j < |states| && chat in states[j].db.subs
    ensures var sub := states[j].db.subs[chat];
      (sub.suspendedUntil.Some? && sub.suspendedUntil.value > at) <==> SuspensionStands(states, labels, j, chat, at)
  {
    var k := ColumnFollows(states, labels, j, chat, Suspension);
    if Exhausts(states[k], labels[k], chat) {
      ExhaustsKnown(states, labels, k, chat);
      NoneEnded(states, labels, k, j, chat, Cooldown);
      if states[k].db.now + 900 > at { assert SuspensionStands(states, labels, j, chat, at); }
    }
    if SuspensionStands(states, labels, j, chat, at) {
      var c :| 0 <= c < j && Exhausts(states[c], labels[c], chat) && states[c].db.now + 900 > at
               && NotEnded(states, labels, c, j, chat, Cooldown);
      ExhaustsKnown(states, labels, c, chat);
      SuspensionKept(states, labels, c, j, chat);
    }
  }

  /** The schedule told by what happened: a chat whose slot has come can get a job if and only if no cron claim and
      no suspension of it stands. */
  lemma ScheduleExactly(states: seq<State>, labels: seq<Label>, j: nat, chat: Chat, id: nat, at: nat)
    requires Run(states, labels) && j < |states| && at <= states[j].db.now && id >= states[j].db.nextJob
    requires SlotCame(states[j].db, chat, at)
    ensures Can(states[j], World(Cron(chat, id, at))) <==>
      !ClaimStands(states, labels, j, chat, at) && !SuspensionStands(states, labels, j, chat, at)
  {
    CronExactly(states[j], chat, id, at);
    ClaimFound(states, labels, j, chat, at);
    SuspensionFound(states, labels, j, chat, at);
  }

  /** Fifteen minutes after an exhausted failure a chat can get a scheduled job again, if its slot has
      come and neither another failure nor a cron run of it came in between. */
  lemma SuspensionEnds(states: seq<State>, labels: seq<Label>, i: nat, j: nat, chat: Chat, id: nat, at: nat)
    requires Run(states, labels) && i < j < |states| && Exhausts(states[i], labels[i], chat)
    requires forall k | i < k < j :: !Exhausts(states[k], labels[k], chat) && !CronOf(labels[k], chat)
    requires SlotCame(states[j].db, chat, at)
    requires states[i].db.now + 900 <= at <= states[j].db.now && id >= states[j].db.nextJob
    ensures Can(states[j], World(Cron(chat, id, at)))
  {
    ScheduleExactly(states, labels, j, chat, id, at);
    forall k | 0 <= k < j && CronOf(labels[k], chat) ensures !NotEnded(states, labels, k, j, chat, CronHold) {
      assert k < i && Ends(CauseOf(states[i], labels[i], chat), CronHold);
    }
    forall k | 0 <= k < j && Exhausts(states[k], labels[k], chat) ensures states[k].db.now + 900 <= at {
      Forever(states, labels, k, i);
    }
  }
}
