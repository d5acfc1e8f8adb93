/** Last writer wins: each setting follows the newest processed command, in whatever order the
    commands were saved, claimed, retried and processed. */
module Settings {
  import opened Policy
  import opened Tables
  import opened Machine
  import opened Claims
  import opened Views
  import opened InboxOrder
  import opened Alerts

  ghost predicate Matches(e: Effect, chat: Chat, st: Setting) {
    e.claim.chat == chat && SettingOf(e.claim.command) == Some(st)
  }

  /** The most recently applied command of a setting. */
  ghost function LastApplied(effects: seq<Effect>, chat: Chat, st: Setting): Option<UpdateClaim> {
    if effects == [] then None else
      var e := effects[|effects| - 1];
      if e.applied && Matches(e, chat, st) then Some(e.claim) else LastApplied(effects[..|effects| - 1], chat, st)
  }

  lemma LastAppliedSnoc(effects: seq<Effect>, e: Effect, chat: Chat, st: Setting)
    ensures LastApplied(effects + [e], chat, st) ==
      if e.applied && Matches(e, chat, st) then Some(e.claim) else LastApplied(effects, chat, st)
  {
  }

  lemma {:induction false} LastAppliedIndex(effects: seq<Effect>, chat: Chat, st: Setting) returns (k: nat)
    requires LastApplied(effects, chat, st).Some?
    ensures k < |effects| && effects[k].applied && Matches(effects[k], chat, st)
    ensures LastApplied(effects, chat, st) == Some(effects[k].claim)
  {
    k := |effects| - 1;
    if !(effects[k].applied && Matches(effects[k], chat, st)) { k := LastAppliedIndex(effects[..k], chat, st); }
  }

  /* ---- The version register ---- */

  /** A refused interval choice may be newer than the register; every other processed command counts. */
  ghost predicate Counts(e: Effect) { e.applied || !e.claim.command.SetInterval? }

  ghost predicate Covered(versions: map<(Chat, Setting), Version>, e: Effect) {
    SettingOf(e.claim.command).Some? && Counts(e) ==>
      var key := (e.claim.chat, SettingOf(e.claim.command).value);
      key in versions && !versions[key].Before(e.claim.Ver())
  }

  /** Applied commands of a setting come in version order. */
  ghost predicate Ordered(d: Effect, e: Effect) {
    e.applied && Counts(d) && SettingOf(e.claim.command).Some?
    && Matches(d, e.claim.chat, SettingOf(e.claim.command).value) ==>
      d.claim.Ver().Before(e.claim.Ver())
  }

  ghost predicate VersionInv(versions: map<(Chat, Setting), Version>, effects: seq<Effect>) {
    && (forall chat, st :: RegisterOk(versions, effects, chat, st))
    && (forall i | 0 <= i < |effects| :: Covered(versions, effects[i]))
    && (forall i, j | 0 <= i < j < |effects| :: Ordered(effects[i], effects[j]))
  }

  ghost predicate RegisterOk(versions: map<(Chat, Setting), Version>, effects: seq<Effect>, chat: Chat, st: Setting) {
    match LastApplied(effects, chat, st)
    case None => (chat, st) !in versions
    case Some(c) => (chat, st) in versions && versions[(chat, st)] == c.Ver()
  }

  lemma VersionCommit(versions: map<(Chat, Setting), Version>, effects: seq<Effect>, e: Effect, view: View)
    requires VersionInv(versions, effects)
    requires e.applied == Admits(versions, e.claim, view)
    ensures VersionInv(Record(versions, e.claim, view), effects + [e])
  {
    var versions' := Record(versions, e.claim, view);
    var effects' := effects + [e];
    forall chat, st ensures RegisterOk(versions', effects', chat, st) {
      assert RegisterOk(versions, effects, chat, st);
      LastAppliedSnoc(effects, e, chat, st);
    }
    forall i | 0 <= i < |effects'| ensures Covered(versions', effects'[i]) {
      if i < |effects| { assert Covered(versions, effects[i]); }
    }
    forall i, j | 0 <= i < j < |effects'| ensures Ordered(effects'[i], effects'[j]) {
      if j < |effects| { assert Ordered(effects[i], effects[j]); } else { assert Covered(versions, effects[i]); }
    }
  }

  /** An update is older than a processed subscription command exactly if the register says so. */
  lemma SupersededBy(versions: map<(Chat, Setting), Version>, effects: seq<Effect>, chat: Chat, v: Version)
    requires VersionInv(versions, effects)
    ensures Superseded(versions, chat, v) <==> Outranked(effects, chat, v)
  {
    assert RegisterOk(versions, effects, chat, Subscription);
    if Superseded(versions, chat, v) {
      var k := LastAppliedIndex(effects, chat, Subscription);
      assert Matches(effects[k], chat, Subscription) && v.Before(effects[k].claim.Ver());
    }
    if Outranked(effects, chat, v) {
      var k :| 0 <= k < |effects| && Matches(effects[k], chat, Subscription) && v.Before(effects[k].claim.Ver());
      assert Covered(versions, effects[k]);
    }
  }

  /** A subscription command newer than this was processed. */
  ghost predicate Outranked(effects: seq<Effect>, chat: Chat, v: Version) {
    exists k | 0 <= k < |effects| :: Matches(effects[k], chat, Subscription) && v.Before(effects[k].claim.Ver())
  }

  /* ---- Settings follow the register ---- */

  ghost predicate Subscribed(db: Db, chat: Chat) { chat in db.subs && db.subs[chat].subscribed }

  /** The language the last applied language command chose, at first the default. */
  ghost function Chosen(effects: seq<Effect>, chat: Chat): string {
    match LastApplied(effects, chat, Language)
    case None => "ua"
    case Some(c) => if c.command.SetLanguage? then c.command.code else "ua"
  }

  /** /subscribe writes back the language its transaction had read. */
  ghost predicate Rewrites(e: Effect, chat: Chat) { e.applied && e.claim.chat == chat && e.claim.command.Subscribe? }

  /** The last /subscribe since the last applied language command, if there is one, had read this language. */
  ghost predicate Reread(effects: seq<Effect>, chat: Chat, code: string) {
    if effects == [] then true else
      var e := effects[|effects| - 1];
      if e.applied && Matches(e, chat, Language) then true
      else if Rewrites(e, chat) then e.read == code
      else Reread(effects[..|effects| - 1], chat, code)
  }

  lemma RereadSnoc(effects: seq<Effect>, e: Effect, chat: Chat, code: string)
    ensures Reread(effects + [e], chat, code) <==>
      if e.applied && Matches(e, chat, Language) then true
      else if Rewrites(e, chat) then e.read == code else Reread(effects, chat, code)
  {
    assert (effects + [e])[..|effects|] == effects;
  }

  /** A chat has the chosen language exactly if that was read by the last /subscribe since. */
  ghost predicate LanguageTold(subs: map<Chat, Sub>, effects: seq<Effect>, chat: Chat) {
    && (LastApplied(effects, chat, Language).Some? ==> chat in subs)
    && (chat in subs ==> (subs[chat].lang == Chosen(effects, chat) <==> Reread(effects, chat, Chosen(effects, chat))))
  }

  ghost predicate SubscribedTold(subs: map<Chat, Sub>, effects: seq<Effect>, kicked: set<Chat>, chat: Chat) {
    (chat in subs && subs[chat].subscribed) <==>
      (LastApplied(effects, chat, Subscription).Some?
       && LastApplied(effects, chat, Subscription).value.command.Subscribe? && chat !in kicked)
  }

  ghost predicate ChoiceOk(subs: map<Chat, Sub>, effects: seq<Effect>, kicked: set<Chat>, chat: Chat) {
    LanguageTold(subs, effects, chat) && SubscribedTold(subs, effects, kicked, chat)
  }

  ghost predicate ChoiceInv(s: State) { forall chat :: ChoiceOk(s.db.subs, s.h.effects, s.h.kicked, chat) }

  lemma ChoiceCommit(subs: map<Chat, Sub>, effects: seq<Effect>, kicked: set<Chat>, e: Effect, view: View, chat: Chat)
    requires ChoiceOk(subs, effects, kicked, chat) && e.read == view.lang
    ensures ChoiceOk(if e.applied then SubsAfter(subs, e.claim.chat, e.claim.command, view) else subs, effects + [e],
                     if e.applied && e.claim.command.Subscribe? then kicked - {e.claim.chat} else kicked, chat)
  {
    LastAppliedSnoc(effects, e, chat, Language);
    LastAppliedSnoc(effects, e, chat, Subscription);
    RereadSnoc(effects, e, chat, Chosen(effects, chat));
    RereadSnoc(effects, e, chat, Chosen(effects + [e], chat));
  }

  /** Outcome transactions leave languages alone, and unsubscribe only on a permanent failure. */
  lemma ChoiceSettled(s: State, t: State, c: Claim, v: Verdict, overrun: bool)
    requires ChoiceInv(s) && Owns(s.db.rows, c) && t.db == Settle(s.db, c, v) && t.h == Settling(s.h, c, v, overrun)
    ensures ChoiceInv(t)
  {
    forall chat ensures ChoiceOk(t.db.subs, t.h.effects, t.h.kicked, chat) {
      assert ChoiceOk(s.db.subs, s.h.effects, s.h.kicked, chat);
    }
  }

  /** Only whether, and in which language, a chat is subscribed matters. */
  lemma ChoiceFrame(s: State, t: State)
    requires ChoiceInv(s) && t.h.effects == s.h.effects && t.h.kicked == s.h.kicked && t.db.subs.Keys == s.db.subs.Keys
    requires forall chat | chat in s.db.subs ::
      t.db.subs[chat].lang == s.db.subs[chat].lang && t.db.subs[chat].subscribed == s.db.subs[chat].subscribed
    ensures ChoiceInv(t)
  {
    forall chat ensures ChoiceOk(t.db.subs, t.h.effects, t.h.kicked, chat) {
      assert ChoiceOk(s.db.subs, s.h.effects, s.h.kicked, chat);
    }
  }

  ghost predicate SettingsInv(s: State) { VersionInv(s.db.versions, s.h.effects) && ChoiceInv(s) }

  lemma SettingsSend(s: State, w: Worker, l: SendStep)
    requires SettingsInv(s) && CanSend(s, w, l)
    ensures SettingsInv(NextSend(s, w, l))
  {
    SendShape(s, w, l);
    var t := NextSend(s, w, l);
    match OutcomeOf(s, w, l)
    case Some(v) => ChoiceSettled(s, t, s.pcs[w].claim, v, l.Conclude? && s.pcs[w].claim.attempts >= MAX_ATTEMPTS);
    case None => ChoiceFrame(s, t);
  }

  lemma SettingsHandle(s: State, w: Worker, l: HandleStep)
    requires SettingsInv(s) && CanHandle(s, w, l)
    ensures SettingsInv(NextHandle(s, w, l))
  {
    HandleShape(s, w, l);
    var t := NextHandle(s, w, l);
    if Effective(s, w, l) { SettingsCommit(s, t, w, l.ctx); } else { ChoiceFrame(s, t); }
  }

  lemma SettingsCommit(s: State, t: State, w: Worker, ctx: Context)
    requires SettingsInv(s) && CommittedStep(s, t, w, ctx)
    ensures SettingsInv(t)
  {
    var c, view, e := s.pcs[w].update, s.pcs[w].step.view, t.h.effects[|s.h.effects|];
    CommitCloses(s.db, c, s.pcs[w].step.ids, view, ctx);
    VersionCommit(s.db.versions, s.h.effects, e, view);
    forall chat ensures ChoiceOk(t.db.subs, t.h.effects, t.h.kicked, chat) {
      assert ChoiceOk(s.db.subs, s.h.effects, s.h.kicked, chat);
      ChoiceCommit(s.db.subs, s.h.effects, s.h.kicked, e, view, chat);
    }
  }

  lemma SettingsPrice(s: State, l: PriceStep)
    requires SettingsInv(s) && CanPrice(s, l)
    ensures SettingsInv(NextPrice(s, l))
  {
    ChoiceFrame(s, NextPrice(s, l));
  }

  lemma SettingsWorld(s: State, l: WorldStep)
    requires SettingsInv(s) && CanWorld(s, l)
    ensures SettingsInv(NextWorld(s, l))
  {
    ChoiceFrame(s, NextWorld(s, l));
  }

  /* ---- What puts a language out of step ---- */

  ghost predicate InTune(s: State, chat: Chat) {
    chat in s.db.subs ==> s.db.subs[chat].lang == Chosen(s.h.effects, chat)
  }

  /** A /subscribe that takes effect and writes back another language than the stored one. */
  ghost predicate Relapses(s: State, l: Label, chat: Chat)
    requires Can(s, l)
  {
    && l.Inbox? && Effective(s, l.w, l.handle)
    && var c, view := s.pcs[l.w].update, s.pcs[l.w].step.view;
    && c.chat == chat && c.command.Subscribe? && Admits(s.db.versions, c, view) && view.lang != LangOf(s.db.subs, chat)
  }

  /** In an untainted chat the language that was read is still the stored one. */
  lemma RelapseIsTorn(s: State, l: Label, chat: Chat)
    requires ViewInv(s) && Can(s, l) && Relapses(s, l, chat)
    ensures chat in s.h.tainted
  {
    ReadsHold(s, l.w);
  }

  lemma ChosenAllowed(effects: seq<Effect>, chat: Chat)
    ensures AllowedLanguage(Chosen(effects, chat))
  {
    if LastApplied(effects, chat, Language).Some? { var k := LastAppliedIndex(effects, chat, Language); }
  }

  lemma TuneCommit(subs: map<Chat, Sub>, effects: seq<Effect>, e: Effect, view: View, chat: Chat)
    requires LanguageTold(subs, effects, chat)
    requires chat in subs ==> subs[chat].lang == Chosen(effects, chat)
    ensures var subs' := if e.applied then SubsAfter(subs, e.claim.chat, e.claim.command, view) else subs;
      (chat in subs' ==> subs'[chat].lang == Chosen(effects + [e], chat)) <==>
        !(Rewrites(e, chat) && view.lang != LangOf(subs, chat))
  {
    LastAppliedSnoc(effects, e, chat, Language);
    ChosenAllowed(effects, chat);
  }

  ghost predicate LanguagesKept(s: State, t: State) {
    && t.h.effects == s.h.effects && t.db.subs.Keys == s.db.subs.Keys
    && forall chat | chat in s.db.subs :: t.db.subs[chat].lang == s.db.subs[chat].lang
  }

  lemma LanguagesSend(s: State, w: Worker, l: SendStep)
    requires CanSend(s, w, l)
    ensures LanguagesKept(s, NextSend(s, w, l))
  {
    SendShape(s, w, l);
    SendKeeps(s, w, l);
  }

  lemma LanguagesWorld(s: State, l: WorldStep)
    requires CanWorld(s, l)
    ensures LanguagesKept(s, NextWorld(s, l))
  {
  }

  lemma LanguagesPrice(s: State, l: PriceStep)
    requires CanPrice(s, l)
    ensures LanguagesKept(s, NextPrice(s, l))
  {
  }

  lemma TuneHandle(s: State, w: Worker, l: HandleStep, chat: Chat)
    requires LanguageTold(s.db.subs, s.h.effects, chat) && CanHandle(s, w, l) && InTune(s, chat)
    ensures InTune(NextHandle(s, w, l), chat) <==> !Relapses(s, Inbox(w, l), chat)
  {
    HandleShape(s, w, l);
    var t := NextHandle(s, w, l);
    if Effective(s, w, l) {
      var view := s.pcs[w].step.view;
      CommitCloses(s.db, s.pcs[w].update, s.pcs[w].step.ids, view, l.ctx);
      TuneCommit(s.db.subs, s.h.effects, t.h.effects[|s.h.effects|], view, chat);
    }
  }

  /** Every step leaves the language of a chat in step with the last applied language command, if and only if
      it is not such a /subscribe. */
  lemma TuneStep(s: State, l: Label, chat: Chat)
    requires LanguageTold(s.db.subs, s.h.effects, chat) && Can(s, l) && InTune(s, chat)
    ensures InTune(Next(s, l), chat) <==> !Relapses(s, l, chat)
  {
    match l
    case Outbox(w, send) => LanguagesSend(s, w, send);
    case Inbox(w, handle) => TuneHandle(s, w, handle, chat);
    case Prices(price) => LanguagesPrice(s, price);
    case World(world) => LanguagesWorld(s, world);
  }

  /* ---- Winners, independently of the register ---- */

  /** The processed command of a setting with the greatest version, the earliest one on a tie. */
  ghost predicate Winner(effects: seq<Effect>, chat: Chat, st: Setting, i: nat) {
    && i < |effects| && Matches(effects[i], chat, st)
    && (forall j | 0 <= j < |effects| && Matches(effects[j], chat, st) ::
          !effects[i].claim.Ver().Before(effects[j].claim.Ver()))
    && (forall j | 0 <= j < i && Matches(effects[j], chat, st) :: effects[j].claim.Ver().Before(effects[i].claim.Ver()))
  }

  lemma WinnerApplied(versions: map<(Chat, Setting), Version>, effects: seq<Effect>, chat: Chat, st: Setting, i: nat)
    requires VersionInv(versions, effects) && !st.Interval? && Winner(effects, chat, st, i)
    ensures LastApplied(effects, chat, st) == Some(effects[i].claim)
  {
    assert RegisterOk(versions, effects, chat, st) && Covered(versions, effects[i]);
    var k := LastAppliedIndex(effects, chat, st);
  }

  /* ---- Epochs ---- */

  ghost predicate EpochInv(s: State) {
    && s.db.lastReceived <= s.db.now
    && s.db.epoch == (if s.h.saves == [] then 0 else s.h.saves[|s.h.saves| - 1].epoch)
    && (forall i | 0 <= i < |s.h.saves| :: s.h.saves[i].epoch <= s.db.epoch)
    && (forall i, j | 0 <= i < j < |s.h.saves| ::
          s.h.saves[i].epoch <= s.h.saves[j].epoch <= s.h.saves[i].epoch + (j - i))
  }

  lemma EpochFrame(s: State, t: State)
    requires EpochInv(s) && t.h.saves == s.h.saves && t.db.epoch == s.db.epoch
    requires t.db.lastReceived == s.db.lastReceived && s.db.now <= t.db.now
    ensures EpochInv(t)
  {
  }

  lemma EpochHandle(s: State, w: Worker, l: HandleStep)
    requires EpochInv(s) && CanHandle(s, w, l)
    ensures EpochInv(NextHandle(s, w, l))
  {
    HandleShape(s, w, l);
    if Effective(s, w, l) { CommitStream(s.db, s.pcs[w].update, s.pcs[w].step.ids, s.pcs[w].step.view, l.ctx); }
    EpochFrame(s, NextHandle(s, w, l));
  }

  lemma CommitStream(db: Db, c: UpdateClaim, ids: seq<nat>, view: View, ctx: Context)
    ensures var db' := CommitUpdate(db, c, ids, view, ctx);
      db'.epoch == db.epoch && db'.lastReceived == db.lastReceived && db'.now == db.now
  {
    MutateStream(db.(versions := Record(db.versions, c, view)), c, view, ctx);
  }

  lemma MutateStream(db: Db, c: UpdateClaim, view: View, ctx: Context)
    ensures var db' := Mutate(db, c, view, ctx);
      db'.epoch == db.epoch && db'.lastReceived == db.lastReceived && db'.now == db.now
  {
    match c.command
    case AddAlert(symbol, pct) =>
    case CancelAlert(a) =>
    case cmd =>
  }

  lemma EpochWorld(s: State, l: WorldStep)
    requires EpochInv(s) && CanWorld(s, l)
    ensures EpochInv(NextWorld(s, l))
  {
    if !(l.Save? && l.u !in s.db.updates) { EpochFrame(s, NextWorld(s, l)); }
  }

  /** An update saved after more than seven silent days outranks every earlier one. */
  lemma GapOutranks(s: State, u: int, from: Chat, command: Command)
    requires EpochInv(s) && u !in s.db.updates && s.db.lastReceived + EPOCH_GAP < s.db.now
    ensures var t := NextWorld(s, Save(u, from, command));
      && |t.h.saves| == |s.h.saves| + 1 && t.h.saves[|s.h.saves|].id == u
      && forall i | 0 <= i < |s.h.saves| :: t.h.saves[i] == s.h.saves[i] && t.h.saves[i].Before(t.h.saves[|s.h.saves|])
  {
  }
}
