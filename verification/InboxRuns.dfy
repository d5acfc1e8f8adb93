/** The inbox over whole runs: exactly-once effects, last-writer-wins settings, ordered replies. */
module InboxRuns {
  import opened Policy
  import opened Tables
  import opened Machine
  import opened Claims
  import opened Views
  import opened InboxOrder
  import opened Settings
  import opened Alerts
  import opened Safety
  import Sends

  /* ---- Exactly once ---- */

  /** A saved update is processed exactly when its one effect has committed. */
  lemma ExactlyOnce(states: seq<State>, labels: seq<Label>, i: nat, u: int)
    requires Run(states, labels) && i < |states| && u in states[i].db.updates
    ensures u in states[i].h.serials
    ensures var h := states[i].h;
      && (states[i].db.updates[u].status.Processed? <==> Took(h.effects, h.serials[u]))
      && (forall m, n | 0 <= m < |h.effects| && 0 <= n < |h.effects|
                        && h.effects[m].serial == h.serials[u] == h.effects[n].serial ::
            m == n)
  {
    RunInbox(states, labels, i);
  }

  /** Two commits that take effect never stem from the same save, whatever crashed, expired, was
      retried or was answered ambiguously in between. */
  lemma CommitsOnce(states: seq<State>, labels: seq<Label>, i: nat, j: nat, v: Worker, w: Worker, x: HandleStep,
      y: HandleStep)
    requires Run(states, labels) && i < j < |labels| && labels[i] == Inbox(v, x) && labels[j] == Inbox(w, y)
    requires Effective(states[i], v, x) && Effective(states[j], w, y)
    ensures var a, b := states[i].pcs[v].update.id, states[j].pcs[w].update.id;
      a in states[i].h.serials && b in states[j].h.serials && states[i].h.serials[a] != states[j].h.serials[b]
  {
    RunInv(states, labels, i);
    RunInv(states, labels, j);
    RunInv(states, labels, j + 1);
    Forever(states, labels, i + 1, j);
    CommitRecorded(states[i], v, x);
    CommitRecorded(states[j], w, y);
    var m, n := |states[i].h.effects|, |states[j].h.effects|;
    assert states[j].h.effects[m] == states[i + 1].h.effects[m];
    assert states[j + 1].h.effects[m] == states[j].h.effects[m];
  }

  lemma CommitRecorded(s: State, w: Worker, l: HandleStep)
    requires CanHandle(s, w, l) && Effective(s, w, l) && s.pcs[w].update.id in s.h.serials
    ensures var e, c := NextHandle(s, w, l).h.effects, s.pcs[w].update;
      |e| == |s.h.effects| + 1 && e[..|s.h.effects|] == s.h.effects && e[|s.h.effects|].serial == s.h.serials[c.id]
  {
  }

  /** A stored reply was written by an applied effect of the update it answers. */
  lemma RepliesHaveEffects(states: seq<State>, labels: seq<Label>, i: nat, r: RowId)
    requires Run(states, labels) && i < |states| && r in states[i].db.rows && states[i].db.rows[r].kind.Reply?
    ensures Wrote(states[i].h.effects, r, states[i].db.rows[r].kind.source)
  {
    RunInbox(states, labels, i);
  }

  /** Every stored alert was inserted by exactly one effect: an applied /alerts command of the update the
      alert names as its source, in its chat, with its symbol and threshold. */
  lemma AlertsHaveEffects(states: seq<State>, labels: seq<Label>, i: nat, a: nat) returns (k: nat)
    requires Run(states, labels) && i < |states| && a in states[i].db.alerts
    ensures k < |states[i].h.effects| && FoundedBy(states[i].h.effects[k], a, states[i].db.alerts[a])
    ensures forall j | 0 <= j < |states[i].h.effects| && a in states[i].h.effects[j].alerts :: j == k
  {
    RunInbox(states, labels, i);
    assert Founded(states[i].h.effects, a, states[i].db.alerts[a]);
    k :| 0 <= k < |states[i].h.effects| && FoundedBy(states[i].h.effects[k], a, states[i].db.alerts[a]);
  }

  /* ---- Last writer wins ---- */

  /** The language of a chat is that of its processed language command with the greatest version, if and only
      if the last /subscribe that took effect since, if there is one, had read that language. */
  lemma LanguageFollows(states: seq<State>, labels: seq<Label>, i: nat, chat: Chat, k: nat)
    requires Run(states, labels) && i < |states| && Winner(states[i].h.effects, chat, Language, k)
    ensures chat in states[i].db.subs && states[i].h.effects[k].claim.command.SetLanguage?
    ensures var code := states[i].h.effects[k].claim.command.code;
      states[i].db.subs[chat].lang == code <==> Reread(states[i].h.effects, chat, code)
  {
    RunInbox(states, labels, i);
    var s := states[i];
    WinnerApplied(s.db.versions, s.h.effects, chat, Language, k);
    assert ChoiceOk(s.db.subs, s.h.effects, s.h.kicked, chat);
  }

  /** In every step of every run: a language in step with the last applied language command gets out of step
      if and only if a /subscribe takes effect that had read another language than the stored one. That needs a
      tainted chat. */
  lemma LanguageLost(states: seq<State>, labels: seq<Label>, k: nat, chat: Chat)
    requires Run(states, labels) && k < |labels| && InTune(states[k], chat)
    ensures !InTune(states[k + 1], chat) <==> Relapses(states[k], labels[k], chat)
    ensures Relapses(states[k], labels[k], chat) ==> chat in states[k].h.tainted
  {
    RunInbox(states, labels, k);
    RunJobs(states, labels, k);
    assert ChoiceOk(states[k].db.subs, states[k].h.effects, states[k].h.kicked, chat);
    TuneStep(states[k], labels[k], chat);
    if Relapses(states[k], labels[k], chat) { RelapseIsTorn(states[k], labels[k], chat); }
  }

  /** A language that is out of step has been so since such a /subscribe. */
  lemma {:induction false} LostSince(states: seq<State>, labels: seq<Label>, i: nat, chat: Chat) returns (k: nat)
    requires Run(states, labels) && i < |states| && !InTune(states[i], chat)
    ensures k < i && Relapses(states[k], labels[k], chat) && chat in states[k].h.tainted
    ensures forall m | k < m <= i :: !InTune(states[m], chat)
  {
    k := i - 1;
    if InTune(states[k], chat) {
      LanguageLost(states, labels, k, chat);
    } else {
      k := LostSince(states, labels, k, chat);
    }
  }

  /** A chat is subscribed exactly when its processed subscription command with the greatest version
      is /subscribe and no permanent send failure has unsubscribed it since. */
  lemma SubscriptionFollows(states: seq<State>, labels: seq<Label>, i: nat, chat: Chat, k: nat)
    requires Run(states, labels) && i < |states| && Winner(states[i].h.effects, chat, Subscription, k)
    ensures Subscribed(states[i].db, chat) <==>
      states[i].h.effects[k].claim.command.Subscribe? && chat !in states[i].h.kicked
  {
    RunInbox(states, labels, i);
    var s := states[i];
    WinnerApplied(s.db.versions, s.h.effects, chat, Subscription, k);
    assert ChoiceOk(s.db.subs, s.h.effects, s.h.kicked, chat);
  }

  /** Without any processed command of a setting a chat is not subscribed, and has the default language if and
      only if the last /subscribe that took effect had read it. */
  lemma NothingProcessed(states: seq<State>, labels: seq<Label>, i: nat, chat: Chat)
    requires Run(states, labels) && i < |states|
    ensures var s := states[i];
      && ((forall e | e in s.h.effects :: !Matches(e, chat, Subscription)) ==> !Subscribed(s.db, chat))
      && ((forall e | e in s.h.effects :: !Matches(e, chat, Language)) && chat in s.db.subs ==>
            (s.db.subs[chat].lang == "ua" <==> Reread(s.h.effects, chat, "ua")))
  {
    RunInbox(states, labels, i);
    var s := states[i];
    assert ChoiceOk(s.db.subs, s.h.effects, s.h.kicked, chat);
    if LastApplied(s.h.effects, chat, Subscription).Some? {
      var k := LastAppliedIndex(s.h.effects, chat, Subscription);
      assert s.h.effects[k] in s.h.effects;
    }
    if LastApplied(s.h.effects, chat, Language).Some? {
      var k := LastAppliedIndex(s.h.effects, chat, Language);
      assert s.h.effects[k] in s.h.effects;
    }
  }

  /** As soon as one command of a setting is processed there is a winner. */
  lemma {:induction false} WinnerExists(effects: seq<Effect>, chat: Chat, st: Setting) returns (k: nat)
    requires exists e | e in effects :: Matches(e, chat, st)
    ensures Winner(effects, chat, st, k)
  {
    var n := |effects| - 1;
    var rest, last := effects[..n], effects[n];
    assert effects == rest + [last];
    if exists e | e in rest :: Matches(e, chat, st) {
      k := WinnerExists(rest, chat, st);
      assert forall j | 0 <= j < n :: effects[j] == rest[j];
      if Matches(last, chat, st) && rest[k].claim.Ver().Before(last.claim.Ver()) { k := n; }
    } else {
      k := n;
      assert forall j | 0 <= j < n :: effects[j] == rest[j] && rest[j] in rest;
    }
  }

  datatype Choice = Choice(ver: Version, command: Command)

  /** The processed commands of a setting, without their order. */
  ghost function Choices(effects: seq<Effect>, chat: Chat, st: Setting): set<Choice> {
    set e | e in effects && Matches(e, chat, st) :: Choice(e.claim.Ver(), e.claim.command)
  }

  /** No choice is newer. */
  ghost predicate Newest(choices: set<Choice>, ver: Version) { forall c | c in choices :: !ver.Before(c.ver) }

  /** The newest version stands for one command. Older ones may be ambiguous. */
  ghost predicate Decided(choices: set<Choice>) {
    forall a, b | a in choices && b in choices && a.ver == b.ver && Newest(choices, a.ver) :: a.command == b.command
  }

  lemma WinnerIsNewest(effects: seq<Effect>, chat: Chat, st: Setting, k: nat)
    requires Winner(effects, chat, st, k)
    ensures Choice(effects[k].claim.Ver(), effects[k].claim.command) in Choices(effects, chat, st)
    ensures Newest(Choices(effects, chat, st), effects[k].claim.Ver())
  {
    assert effects[k] in effects;
    forall c | c in Choices(effects, chat, st) ensures !effects[k].claim.Ver().Before(c.ver) {
      var e :| e in effects && Matches(e, chat, st) && c == Choice(e.claim.Ver(), e.claim.command);
      var j :| 0 <= j < |effects| && effects[j] == e;
    }
  }

  lemma SameWinner(effects: seq<Effect>, effects': seq<Effect>, chat: Chat, st: Setting, k: nat, k': nat)
    requires Choices(effects, chat, st) == Choices(effects', chat, st) && Decided(Choices(effects, chat, st))
    requires Winner(effects, chat, st, k) && Winner(effects', chat, st, k')
    ensures effects[k].claim.command == effects'[k'].claim.command
  {
    WinnerIsNewest(effects, chat, st, k);
    WinnerIsNewest(effects', chat, st, k');
    assert effects[k].claim.Ver() == effects'[k'].claim.Ver();
  }

  /** Convergence: of two runs that processed the same language commands of a chat, in whatever order these
      arrived, were retried and committed, let one have the language of the newest. Then they agree if and only
      if the last /subscribe of the other since its last applied language command had read that language. */
  lemma LanguageConverges(states: seq<State>, labels: seq<Label>, i: nat, states': seq<State>, labels': seq<Label>,
      i': nat, chat: Chat, k: nat)
    requires Run(states, labels) && i < |states| && Run(states', labels') && i' < |states'|
    requires var cs := Choices(states[i].h.effects, chat, Language);
      cs == Choices(states'[i'].h.effects, chat, Language) && Decided(cs)
    requires Winner(states[i].h.effects, chat, Language, k)
    requires Reread(states[i].h.effects, chat, states[i].h.effects[k].claim.command.code)
    ensures chat in states[i].db.subs && chat in states'[i'].db.subs
    ensures states[i].db.subs[chat].lang == states'[i'].db.subs[chat].lang <==>
      Reread(states'[i'].h.effects, chat, states[i].h.effects[k].claim.command.code)
  {
    WinnerIsNewest(states[i].h.effects, chat, Language, k);
    var k' := WinnerExists(states'[i'].h.effects, chat, Language);
    LanguageFollows(states, labels, i, chat, k);
    LanguageFollows(states', labels', i', chat, k');
    SameWinner(states[i].h.effects, states'[i'].h.effects, chat, Language, k, k');
  }

  /** The same for subscriptions, as long as both runs or neither lost the subscriber to a permanent failure. */
  lemma SubscriptionConverges(states: seq<State>, labels: seq<Label>, i: nat, states': seq<State>,
      labels': seq<Label>, i': nat, chat: Chat)
    requires Run(states, labels) && i < |states| && Run(states', labels') && i' < |states'|
    requires chat in states[i].h.kicked <==> chat in states'[i'].h.kicked
    requires var cs := Choices(states[i].h.effects, chat, Subscription);
      cs != {} && cs == Choices(states'[i'].h.effects, chat, Subscription) && Decided(cs)
    ensures Subscribed(states[i].db, chat) <==> Subscribed(states'[i'].db, chat)
  {
    var k := WinnerExists(states[i].h.effects, chat, Subscription);
    var k' := WinnerExists(states'[i'].h.effects, chat, Subscription);
    SubscriptionFollows(states, labels, i, chat, k);
    SubscriptionFollows(states', labels', i', chat, k');
    SameWinner(states[i].h.effects, states'[i'].h.effects, chat, Subscription, k, k');
  }

  /** This step commits the n-th effect. */
  ghost predicate CommitsNth(s: State, l: Label, n: nat, c: UpdateClaim)
    requires Can(s, l)
  {
    l.Inbox? && Effective(s, l.w, l.handle) && s.pcs[l.w].update == c && |s.h.effects| == n
  }

  /** Every effect was committed by one of the steps before. */
  lemma {:induction false} EffectHasStep(states: seq<State>, labels: seq<Label>, i: nat, n: nat) returns (k: nat)
    requires Run(states, labels) && i < |states| && n < |states[i].h.effects|
    ensures k < i && CommitsNth(states[k], labels[k], n, states[i].h.effects[n].claim)
    ensures states[k + 1].h.effects == states[k].h.effects + [states[i].h.effects[n]]
  {
    k := i - 1;
    Forever(states, labels, k, i);
    EffectAdded(states[k], labels[k]);
    if n < |states[k].h.effects| { k := EffectHasStep(states, labels, k, n); }
  }

  /** A step adds an effect only by committing it. */
  lemma EffectAdded(s: State, l: Label)
    requires Can(s, l)
    ensures var t := Next(s, l);
      if l.Inbox? && Effective(s, l.w, l.handle)
      then |t.h.effects| == |s.h.effects| + 1 && s.h.effects <= t.h.effects
           && t.h.effects[|s.h.effects|].claim == s.pcs[l.w].update
           && t.h.effects[|s.h.effects|].applied == Admits(s.db.versions, s.pcs[l.w].update, s.pcs[l.w].step.view)
      else t.h.effects == s.h.effects
  {
    match l
    case Outbox(w, send) => SendKeeps(s, w, send);
    case Inbox(w, handle) => HandleShape(s, w, handle);
    case Prices(price) =>
    case World(world) =>
  }

  /** An interval change that took effect is newer than every earlier one. It is older than a subscription
      command processed before it if and only if one was recorded by the time of its commit, unseen by its own
      earlier test. That needs a tainted chat. */
  lemma IntervalsAdvance(states: seq<State>, labels: seq<Label>, i: nat, chat: Chat, n: nat) returns (k: nat)
    requires Run(states, labels) && i < |states| && n < |states[i].h.effects|
    requires states[i].h.effects[n].applied && Matches(states[i].h.effects[n], chat, Interval)
    ensures var effects := states[i].h.effects;
      forall m | 0 <= m < n && effects[m].applied && Matches(effects[m], chat, Interval) ::
        effects[m].claim.Ver().Before(effects[n].claim.Ver())
    ensures k < i && CommitsNth(states[k], labels[k], n, states[i].h.effects[n].claim)
    ensures var s, w, v := states[k], labels[k].w, states[i].h.effects[n].claim.Ver();
      && !s.pcs[w].step.view.superseded
      && (Outranked(states[i].h.effects[..n], chat, v) <==> Superseded(s.db.versions, chat, v))
      && (Superseded(s.db.versions, chat, v) ==> chat in s.h.tainted)
  {
    NewerThanEarlier(states, labels, i, n);
    k := EffectHasStep(states, labels, i, n);
    Forever(states, labels, k + 1, i);
    assert states[i].h.effects[..n] == states[k].h.effects;
    ChangeAdmitted(states, labels, k, chat);
  }

  lemma NewerThanEarlier(states: seq<State>, labels: seq<Label>, i: nat, n: nat)
    requires Run(states, labels) && i < |states| && n < |states[i].h.effects|
    ensures forall m | 0 <= m < n :: Ordered(states[i].h.effects[m], states[i].h.effects[n])
  {
    RunInbox(states, labels, i);
  }

  /** An interval change is admitted at its commit only if it saw nothing newer; what is newer then is what the
      register says. */
  lemma ChangeAdmitted(states: seq<State>, labels: seq<Label>, k: nat, chat: Chat)
    requires Run(states, labels) && k < |labels| && labels[k].Inbox?
    requires Effective(states[k], labels[k].w, labels[k].handle) && states[k].pcs[labels[k].w].update.chat == chat
    ensures var s, w := states[k], labels[k].w;
      && (Outranked(s.h.effects, chat, s.pcs[w].update.Ver()) <==>
            Superseded(s.db.versions, chat, s.pcs[w].update.Ver()))
      && (chat !in s.h.tainted ==>
            s.pcs[w].step.view.superseded == Superseded(s.db.versions, chat, s.pcs[w].update.Ver()))
  {
    RunInbox(states, labels, k);
    RunJobs(states, labels, k);
    var s, w := states[k], labels[k].w;
    SupersededBy(s.db.versions, s.h.effects, chat, s.pcs[w].update.Ver());
    ReadsHold(s, w);
  }

  /** What the register decides about a command of a setting. */
  lemma AdmitsExactly(versions: map<(Chat, Setting), Version>, effects: seq<Effect>, c: UpdateClaim, view: View)
    requires VersionInv(versions, effects) && SettingOf(c.command).Some?
    ensures var st := SettingOf(c.command).value;
      Admits(versions, c, view) <==>
        && (st.Interval? ==> !view.superseded)
        && forall m | 0 <= m < |effects| && effects[m].applied && Matches(effects[m], c.chat, st) ::
             effects[m].claim.Ver().Before(c.Ver())
  {
    var st := SettingOf(c.command).value;
    assert RegisterOk(versions, effects, c.chat, st);
    if LastApplied(effects, c.chat, st).Some? { var k := LastAppliedIndex(effects, c.chat, st); }
    forall m | 0 <= m < |effects| && effects[m].applied && Matches(effects[m], c.chat, st)
      ensures (c.chat, st) in versions && !versions[(c.chat, st)].Before(effects[m].claim.Ver())
    {
      assert Covered(versions, effects[m]);
    }
  }

  /** A processed command of a setting took effect if and only if it is newer than every command of the setting that
      had taken effect before it and, for an interval choice, saw no newer subscription command; in an untainted
      chat it sees every one that was processed before. */
  lemma AppliedExactly(states: seq<State>, labels: seq<Label>, i: nat, chat: Chat, st: Setting, n: nat)
      returns (k: nat)
    requires Run(states, labels) && i < |states| && n < |states[i].h.effects|
    requires Matches(states[i].h.effects[n], chat, st)
    ensures k < i && CommitsNth(states[k], labels[k], n, states[i].h.effects[n].claim)
    ensures var effects, view := states[i].h.effects, states[k].pcs[labels[k].w].step.view;
      && (effects[n].applied <==>
            && (st.Interval? ==> !view.superseded)
            && forall m | 0 <= m < n && effects[m].applied && Matches(effects[m], chat, st) ::
                 effects[m].claim.Ver().Before(effects[n].claim.Ver()))
      && (chat !in states[k].h.tainted ==>
            (view.superseded <==> Outranked(effects[..n], chat, effects[n].claim.Ver())))
  {
    k := EffectHasStep(states, labels, i, n);
    Forever(states, labels, k + 1, i);
    var s, w := states[k], labels[k].w;
    assert states[i].h.effects[..n] == s.h.effects;
    EffectAdded(s, labels[k]);
    RunInbox(states, labels, k);
    AdmitsExactly(s.db.versions, s.h.effects, s.pcs[w].update, s.pcs[w].step.view);
    ChangeAdmitted(states, labels, k, chat);
  }

  /** Epochs never fall and rise by at most one per saved update. */
  lemma EpochsAdvance(states: seq<State>, labels: seq<Label>, i: nat, m: nat, n: nat)
    requires Run(states, labels) && i < |states| && m <= n < |states[i].h.saves|
    ensures states[i].h.saves[m].epoch <= states[i].h.saves[n].epoch <= states[i].h.saves[m].epoch + (n - m)
  {
    RunInv(states, labels, i);
  }

  /** An update saved after more than seven silent days outranks everything saved before it, for good. */
  lemma GapWins(states: seq<State>, labels: seq<Label>, i: nat, j: nat, u: int, from: Chat, command: Command, m: nat)
    requires Run(states, labels) && i < j < |states| && labels[i] == World(Save(u, from, command))
    requires u !in states[i].db.updates && states[i].db.lastReceived + EPOCH_GAP < states[i].db.now
    requires m < |states[i].h.saves|
    ensures |states[j].h.saves| > |states[i].h.saves| && states[j].h.saves[|states[i].h.saves|].id == u
    ensures states[j].h.saves[m].Before(states[j].h.saves[|states[i].h.saves|])
  {
    RunInv(states, labels, i);
    GapOutranks(states[i], u, from, command);
    Forever(states, labels, i + 1, j);
    var n := |states[i].h.saves|;
    assert states[i + 1].h.saves[n].id == u;
    assert states[j].h.saves[m] == states[i + 1].h.saves[m];
    assert states[j].h.saves[n] == states[i + 1].h.saves[n];
  }
}
