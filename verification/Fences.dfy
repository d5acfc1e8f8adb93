/** Only the latest claim of an update counts, and what is processed is what was saved, over whole runs. */
module Fences {
  import opened Tables
  import opened Machine
  import opened Claims
  import opened Views
  import opened Safety
  import opened Stories
  import opened Turns

  /** Stored in every state from i to j. */
  ghost predicate Stored(states: seq<State>, i: nat, j: nat, u: int) {
    i <= j < |states| && forall k | i <= k <= j :: u in states[k].db.updates
  }

  /** A stored update keeps its chat, epoch and command, and its attempts only grow. */
  ghost predicate Ages(s: State, t: State, u: int) {
    u in s.db.updates && u in t.db.updates ==>
      var before, after := s.db.updates[u], t.db.updates[u];
      && after.chat == before.chat && after.epoch == before.epoch && after.command == before.command
      && after.attempts >= before.attempts
  }

  lemma AgesStep(s: State, l: Label, u: int)
    requires Can(s, l)
    ensures Ages(s, Next(s, l), u)
  {
    UpdateHistory(s, l, u);
  }

  lemma {:induction false} ChainAges(states: seq<State>, i: nat, j: nat, u: int)
    requires Stored(states, i, j, u) && forall k | i <= k < j :: Ages(states[k], states[k + 1], u)
    ensures Ages(states[i], states[j], u)
  {
    if i < j { ChainAges(states, i, j - 1, u); assert Ages(states[j - 1], states[j - 1 + 1], u); }
  }

  lemma Aged(states: seq<State>, labels: seq<Label>, i: nat, j: nat, u: int)
    requires Run(states, labels) && Stored(states, i, j, u)
    ensures Ages(states[i], states[j], u)
  {
    forall k | i <= k < j ensures Ages(states[k], states[k + 1], u) { AgesStep(states[k], labels[k], u); }
    ChainAges(states, i, j, u);
  }

  /** The worker neither leaves nor crashes. */
  ghost predicate Remains(l: Label, w: Worker) { l != Inbox(w, Depart) && l != World(Crash(w)) }

  ghost predicate KeepsClaim(s: State, t: State, w: Worker) {
    HandlerAt(s, w) ==> HandlerAt(t, w) && t.pcs[w].update == s.pcs[w].update
  }

  lemma ClaimKeptStep(s: State, l: Label, w: Worker)
    requires Can(s, l) && Remains(l, w)
    ensures KeepsClaim(s, Next(s, l), w)
  {
    if ActOf(l, w) { OwnStep(s, w, l.handle); } else { HandlerSpared(s, l, w); }
  }

  lemma OwnStep(s: State, w: Worker, l: HandleStep)
    requires CanHandle(s, w, l) && !l.Depart?
    ensures KeepsClaim(s, NextHandle(s, w, l), w)
  {
  }

  lemma {:induction false} ChainClaim(states: seq<State>, i: nat, j: nat, w: Worker)
    requires i <= j < |states| && HandlerAt(states[i], w)
    requires forall k | i <= k < j :: KeepsClaim(states[k], states[k + 1], w)
    ensures HandlerAt(states[j], w) && states[j].pcs[w].update == states[i].pcs[w].update
  {
    if i < j { ChainClaim(states, i, j - 1, w); assert KeepsClaim(states[j - 1], states[j - 1 + 1], w); }
  }

  /** From its claim on a worker that remains carries what it read. */
  lemma Carries(states: seq<State>, labels: seq<Label>, k: nat, j: nat, w: Worker, u: int, at: nat)
    requires Run(states, labels) && k < j < |states| && labels[k] == Inbox(w, Take(u, at, true))
    requires forall m | k < m < j :: Remains(labels[m], w)
    ensures u in states[k].db.updates && HandlerAt(states[j], w)
    ensures var update := states[k].db.updates[u];
      states[j].pcs[w].update == UpdateClaim(u, update.chat, update.command, update.attempts + 1, update.epoch)
  {
    forall m | k + 1 <= m < j ensures KeepsClaim(states[m], states[m + 1], w) {
      ClaimKeptStep(states[m], labels[m], w);
    }
    ChainClaim(states, k + 1, j, w);
  }

  /** While a saved update is stored, every worker that claims it works on exactly what was saved: the chat, the
      command and the epoch it got when it was saved. */
  lemma ProcessedAsSaved(states: seq<State>, labels: seq<Label>, i: nat, k: nat, j: nat, w: Worker, u: int, from: Chat,
      command: Command, at: nat)
    requires Run(states, labels) && i < k < j < |states| && labels[i] == World(Save(u, from, command))
    requires u !in states[i].db.updates && Stored(states, i + 1, k, u)
    requires labels[k] == Inbox(w, Take(u, at, true)) && forall m | k < m < j :: Remains(labels[m], w)
    ensures HandlerAt(states[j], w)
    ensures var c := states[j].pcs[w].update;
      c.id == u && c.chat == from && c.command == command && c.epoch == states[i + 1].db.epoch
  {
    Aged(states, labels, i + 1, k, u);
    Carries(states, labels, k, j, w, u, at);
  }

  /** A worker whose update was claimed again changes nothing any more: neither its commit nor its conclusion touches
      a table or is recorded as an effect. */
  lemma StaleChangesNothing(states: seq<State>, labels: seq<Label>, k: nat, m: nat, j: nat, w: Worker, v: Worker,
      u: int, at: nat, later: nat, heard: bool, l: HandleStep)
    requires Run(states, labels) && k < m < j < |labels| && Stored(states, k, j, u)
    requires labels[k] == Inbox(w, Take(u, at, true)) && labels[m] == Inbox(v, Take(u, later, heard))
    requires (forall n | k < n < j :: Remains(labels[n], w)) && labels[j] == Inbox(w, l)
    ensures states[j + 1].db.(nextAnswer := states[j].db.nextAnswer) == states[j].db
    ensures states[j + 1].h.effects == states[j].h.effects
  {
    Carries(states, labels, k, j, w, u, at);
    UpdateHistory(states[k], labels[k], u);
    Aged(states, labels, k + 1, m, u);
    UpdateHistory(states[m], labels[m], u);
    Aged(states, labels, m + 1, j, u);
    StaleStep(states[j], w, l);
  }

  lemma StaleStep(s: State, w: Worker, l: HandleStep)
    requires CanHandle(s, w, l) && HandlerAt(s, w) && !OwnsUpdate(s.db.updates, s.pcs[w].update)
    ensures var t := NextHandle(s, w, l);
      t.db.(nextAnswer := s.db.nextAnswer) == s.db && t.h.effects == s.h.effects
  {
  }

  /* ---- The version register ---- */

  /** Every command that may change a subscriber is registered under its own setting with its own version, which is
      newer than the one it replaces; no other command touches the register. */
  lemma RegisterMoves(s: State, w: Worker, l: HandleStep)
    requires CanHandle(s, w, l) && Effective(s, w, l)
    requires Admits(s.db.versions, s.pcs[w].update, s.pcs[w].step.view)
    ensures var c, before, after := s.pcs[w].update, s.db.versions, NextHandle(s, w, l).db.versions;
      match c.command
      case Subscribe => Registered(before, after, c, Subscription)
      case Unsubscribe => Registered(before, after, c, Subscription)
      case SetLanguage(code) =>
        if code in ["ua", "en", "ru"] then Registered(before, after, c, Language) else after == before
      case SetInterval(minutes) =>
        if 1 <= minutes <= 1440 then Registered(before, after, c, Interval) else after == before
      case _ => after == before
  {
    HandleShape(s, w, l);
    CommitCloses(s.db, s.pcs[w].update, s.pcs[w].step.ids, s.pcs[w].step.view, l.ctx);
  }

  ghost predicate Registered(before: map<(Chat, Setting), Version>, after: map<(Chat, Setting), Version>,
      c: UpdateClaim, setting: Setting)
  {
    && after == before[(c.chat, setting) := Version(c.epoch, c.id)]
    && ((c.chat, setting) in before ==>
          var v := before[(c.chat, setting)]; v.epoch < c.epoch || (v.epoch == c.epoch && v.id < c.id))
  }

  /** A refused command leaves the register, the subscribers, the alerts and the outbox as they were. */
  lemma RefusedChangesNothing(s: State, w: Worker, l: HandleStep)
    requires CanHandle(s, w, l) && Effective(s, w, l)
    requires !Admits(s.db.versions, s.pcs[w].update, s.pcs[w].step.view)
    ensures NextHandle(s, w, l).db.(updates := s.db.updates) == s.db
  {
    HandleShape(s, w, l);
  }
}
