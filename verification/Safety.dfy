/** Everything the other modules maintain step by step holds in every state of every run. */
module Safety {
  import opened Policy
  import opened Tables
  import opened Machine
  import opened Claims
  import opened Views
  import opened Delivery
  import opened Attempts
  import opened Alerts
  import opened InboxOrder
  import opened Settings
  import opened ReplyOrder

  ghost predicate Inv(s: State) {
    && BaseInv(s)
    && TimeInv(s.db) && ViewInv(s)
    && EnabledInv(s.db)
    && TallyInv(s)
    && AlertInv(s)
    && EffectInv(s) && AuthorInv(s) && FounderInv(s) && FifoInv(s)
    && SequenceInv(s)
    && SettingsInv(s) && EpochInv(s)
  }

  lemma InvInit(s: State)
    requires Init(s)
    ensures Inv(s)
  {
  }

  lemma InvSend(s: State, w: Worker, l: SendStep)
    requires Inv(s) && CanSend(s, w, l)
    ensures Inv(NextSend(s, w, l))
  {
    BaseStep(s, Outbox(w, l));
    TimeSend(s, w, l); ViewSend(s, w, l);
    EnabledSend(s, w, l);
    TallySend(s, w, l);
    AlertSend(s, w, l);
    AuthorSend(s, w, l); FounderSend(s, w, l); FifoSend(s, w, l); SequenceSend(s, w, l);
    SettingsSend(s, w, l);
    SendKeeps(s, w, l); EffectFrame(s, NextSend(s, w, l)); EpochFrame(s, NextSend(s, w, l));
  }

  lemma InvHandle(s: State, w: Worker, l: HandleStep)
    requires Inv(s) && CanHandle(s, w, l)
    ensures Inv(NextHandle(s, w, l))
  {
    BaseStep(s, Inbox(w, l));
    TimeHandle(s, w, l); ViewHandle(s, w, l);
    EnabledHandle(s, w, l);
    TallyHandle(s, w, l);
    AlertHandle(s, w, l);
    EffectHandle(s, w, l); AuthorHandle(s, w, l); FounderHandle(s, w, l); FifoHandle(s, w, l);
    SequenceHandle(s, w, l);
    SettingsHandle(s, w, l); EpochHandle(s, w, l);
  }

  lemma InvPrice(s: State, l: PriceStep)
    requires Inv(s) && CanPrice(s, l)
    ensures Inv(NextPrice(s, l))
  {
    BaseStep(s, Prices(l));
    TimePrice(s, l); ViewPrice(s, l);
    EnabledPrice(s, l);
    TallyPrice(s, l);
    AlertPrice(s, l);
    AuthorPrice(s, l); FounderPrice(s, l); FifoPrice(s, l); SequencePrice(s, l);
    SettingsPrice(s, l);
    PriceKeeps(s, l); EffectFrame(s, NextPrice(s, l)); EpochFrame(s, NextPrice(s, l));
  }

  /** The ticker never touches the inbox. */
  lemma PriceKeeps(s: State, l: PriceStep)
    requires CanPrice(s, l)
    ensures var t := NextPrice(s, l);
      && t.db.updates == s.db.updates && t.db.epoch == s.db.epoch && t.db.lastReceived == s.db.lastReceived
      && t.db.now == s.db.now
      && t.h.(firsts := s.h.firsts, fired := s.h.fired) == s.h
  {
  }

  lemma InvWorld(s: State, l: WorldStep)
    requires Inv(s) && CanWorld(s, l)
    ensures Inv(NextWorld(s, l))
  {
    BaseStep(s, World(l));
    TimeWorld(s, l); ViewWorld(s, l);
    EnabledWorld(s, l);
    TallyWorld(s, l);
    AlertWorld(s, l);
    EffectWorld(s, l); AuthorWorld(s, l); FounderWorld(s, l); FifoWorld(s, l);
    SequenceWorld(s, l);
    SettingsWorld(s, l); EpochWorld(s, l);
  }

  lemma InvStep(s: State, l: Label)
    requires Inv(s) && Can(s, l)
    ensures Inv(Next(s, l))
  {
    match l
    case Outbox(w, send) => InvSend(s, w, send);
    case Inbox(w, handle) => InvHandle(s, w, handle);
    case Prices(price) => InvPrice(s, price);
    case World(world) => InvWorld(s, world);
  }

  /** Safety over whole runs: the invariant holds in every reachable state. */
  lemma {:induction false} RunInv(states: seq<State>, labels: seq<Label>, i: nat)
    requires Run(states, labels) && i < |states|
    ensures Inv(states[i])
  {
    if i == 0 {
      InvInit(states[0]);
    } else {
      RunInv(states, labels, i - 1);
      InvStep(states[i - 1], labels[i - 1]);
    }
  }

  /** The part about rows, claims and locks, by itself. */
  lemma RunBase(states: seq<State>, labels: seq<Label>, i: nat)
    requires Run(states, labels) && i < |states|
    ensures BaseInv(states[i])
  {
    RunInv(states, labels, i);
  }

  /** The part about open jobs and open transactions, by itself. */
  lemma RunJobs(states: seq<State>, labels: seq<Label>, i: nat)
    requires Run(states, labels) && i < |states|
    ensures EnabledInv(states[i].db) && TimeInv(states[i].db) && ViewInv(states[i])
  {
    RunInv(states, labels, i);
  }

  /** The part about alerts, by itself. */
  lemma RunAlerts(states: seq<State>, labels: seq<Label>, i: nat)
    requires Run(states, labels) && i < |states|
    ensures AlertInv(states[i])
  {
    RunInv(states, labels, i);
  }

  /** The part about effects and settings, by itself. */
  lemma RunInbox(states: seq<State>, labels: seq<Label>, i: nat)
    requires Run(states, labels) && i < |states|
    ensures EffectInv(states[i]) && AuthorInv(states[i]) && FounderInv(states[i]) && FifoInv(states[i])
    ensures SettingsInv(states[i]) && SequenceInv(states[i])
  {
    RunInv(states, labels, i);
  }

  /* ---- What only ever grows ---- */

  /** Time, sequences and the record of what happened never move backwards. */
  ghost predicate Grows(s: State, t: State) {
    && s.db.now <= t.db.now && s.db.nextJob <= t.db.nextJob && s.db.nextAnswer <= t.db.nextAnswer
    && s.db.epoch <= t.db.epoch
    && s.h.fired <= t.h.fired && s.h.effects <= t.h.effects && s.h.saves <= t.h.saves
    && (forall r | r in s.h.fate :: r in t.h.fate && t.h.fate[r] == s.h.fate[r])
    && (forall a | a in s.h.firsts :: a in t.h.firsts && t.h.firsts[a] == s.h.firsts[a])
  }

  lemma GrowsSend(s: State, w: Worker, l: SendStep)
    requires FateInv(s.db, s.h.fate) && CanSend(s, w, l)
    ensures Grows(s, NextSend(s, w, l))
  {
    SendKeeps(s, w, l);
    match l
    case Conclude(_) => SettleGrows(s, s.pcs[w].claim, s.pcs[w].phase.verdict, s.pcs[w].claim.attempts >= MAX_ATTEMPTS);
    case Finalize(_, _) => SettleGrows(s, s.pcs[w].claim, Delivered, false);
    case _ =>
  }

  lemma SettleGrows(s: State, c: Claim, v: Verdict, overrun: bool)
    requires FateInv(s.db, s.h.fate)
    ensures var h := SettleStep(s, c, v, overrun).h;
      forall r | r in s.h.fate :: r in h.fate && h.fate[r] == s.h.fate[r]
  {
    if Owns(s.db.rows, c) {
      assert c.row !in s.h.fate;
      match v
      case Delivered => assert SettleStep(s, c, v, overrun).h.fate == s.h.fate[c.row := Sent];
      case Retry(_) =>
      case Fail(_) =>
      case Cancel =>
    }
  }

  lemma GrowsHandle(s: State, w: Worker, l: HandleStep)
    requires FateInv(s.db, s.h.fate) && DrawInv(s) && CanHandle(s, w, l)
    ensures Grows(s, NextHandle(s, w, l))
  {
    HandleShape(s, w, l);
    if Effective(s, w, l) {
      CommitDrawn(s, w, l.ctx);
      CommitCloses(s.db, s.pcs[w].update, s.pcs[w].step.ids, s.pcs[w].step.view, l.ctx);
    }
  }

  lemma GrowsPrice(s: State, l: PriceStep)
    requires AlertInv(s) && CanPrice(s, l)
    ensures Grows(s, NextPrice(s, l))
  {
  }

  lemma GrowsWorld(s: State, l: WorldStep)
    requires CanWorld(s, l)
    ensures Grows(s, NextWorld(s, l))
  {
  }

  lemma StepGrows(s: State, l: Label)
    requires Inv(s) && Can(s, l)
    ensures Grows(s, Next(s, l))
  {
    match l
    case Outbox(w, send) => GrowsSend(s, w, send);
    case Inbox(w, handle) => GrowsHandle(s, w, handle);
    case Prices(price) => GrowsPrice(s, price);
    case World(world) => GrowsWorld(s, world);
  }

  lemma {:induction false} ChainGrows(states: seq<State>, i: nat, j: nat)
    requires i <= j < |states| && forall k | i <= k < j :: Grows(states[k], states[k + 1])
    ensures Grows(states[i], states[j])
  {
    if i < j { ChainGrows(states, i, j - 1); assert Grows(states[j - 1], states[j - 1 + 1]); }
  }

  /** What is recorded stays recorded, throughout every run. */
  lemma Forever(states: seq<State>, labels: seq<Label>, i: nat, j: nat)
    requires Run(states, labels) && i <= j < |states|
    ensures Grows(states[i], states[j])
  {
    forall k | i <= k < j ensures Grows(states[k], states[k + 1]) {
      RunInv(states, labels, k);
      StepGrows(states[k], labels[k]);
    }
    ChainGrows(states, i, j);
  }
}
