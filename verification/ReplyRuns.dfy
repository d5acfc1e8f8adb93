/** Replies over whole runs: they leave each chat in the order of processing, and within an update in sequence. */
module ReplyRuns {
  import opened Policy
  import opened Tables
  import opened Machine
  import opened Claims
  import opened Attempts
  import opened Views
  import opened InboxOrder
  import opened ReplyOrder
  import opened Safety
  import Sends

  ghost predicate ReplyOf(db: Db, r: RowId, chat: Chat) { r in db.rows && r.Answer? && db.rows[r].chat == chat }

  /** While a reply is being sent in an untainted chat every earlier reply of the chat is closed, not counting
      those whose transaction was torn. */
  lemma RepliesInOrder(states: seq<State>, labels: seq<Label>, i: nat, w: Worker, q: RowId)
    requires Run(states, labels) && i < |states| && Sends.Sending(states[i], w) && states[i].pcs[w].claim.kind.Reply?
    requires var c := states[i].pcs[w].claim;
      && c.chat !in states[i].h.tainted && !TornReply(states[i].h.effects, q) && ReplyOf(states[i].db, q, c.chat)
      && q.n < c.row.n
    ensures !states[i].db.rows[q].status.Open()
  {
    RunBase(states, labels, i);
    RunInbox(states, labels, i);
    assert Guarded(states[i], states[i].pcs[w]) && ClaimOk(states[i].db, states[i].pcs[w]);
  }

  /* ---- Processing order, then sequence order ---- */

  /** The order of the transactions, and within one that of the numbers. */
  ghost predicate Before(s: State, m: nat, n: nat, q: RowId, r: RowId)
    requires StoredOf(s, m, n, q, r)
  {
    m < n || (m == n && Number(s.db.rows[q]) < Number(s.db.rows[r]))
  }

  /** The ids of the stored replies of a chat follow the order in which its updates took effect, and within an
      update the sequence numbers, unless the later of the two effects was torn. */
  lemma RepliesSorted(states: seq<State>, labels: seq<Label>, i: nat, m: nat, n: nat, q: RowId, r: RowId)
    requires Run(states, labels) && i < |states| && StoredOf(states[i], m, n, q, r)
    requires m != n ==> !states[i].h.effects[if m < n then n else m].torn
    ensures q.n < r.n <==> Before(states[i], m, n, q, r)
  {
    RunInbox(states, labels, i);
    var s := states[i];
    assert m == n ==> Siblings(s, n, q, r);
    assert m < n ==> Successors(s, m, n, q, r);
    assert n < m ==> Successors(s, n, m, r, q);
  }

  /** No two stored replies answer one update under one number. */
  lemma RepliesDistinct(states: seq<State>, labels: seq<Label>, i: nat, q: RowId, r: RowId)
    requires Run(states, labels) && i < |states| && q in states[i].db.rows && r in states[i].db.rows
    requires states[i].db.rows[q].kind.Reply? && states[i].db.rows[r].kind == states[i].db.rows[q].kind
    ensures q == r
  {
    RunBase(states, labels, i);
    RunInbox(states, labels, i);
  }

  /** While a reply is being sent in an untainted chat, every reply of the chat that was processed before it, or
      comes before it in the same update, is closed, unless one of their transactions was torn. */
  lemma RepliesLeaveSorted(states: seq<State>, labels: seq<Label>, i: nat, w: Worker, m: nat, n: nat, q: RowId)
    requires Run(states, labels) && i < |states| && Sends.Sending(states[i], w) && states[i].pcs[w].claim.kind.Reply?
    requires states[i].pcs[w].claim.chat !in states[i].h.tainted
    requires StoredOf(states[i], m, n, q, states[i].pcs[w].claim.row)
    requires !states[i].h.effects[m].torn && !states[i].h.effects[n].torn
    requires Before(states[i], m, n, q, states[i].pcs[w].claim.row)
    ensures !states[i].db.rows[q].status.Open()
  {
    RepliesSorted(states, labels, i, m, n, q, states[i].pcs[w].claim.row);
    NotTorn(states, labels, i, m, q);
    ClaimedInChat(states, labels, i, w);
    RepliesInOrder(states, labels, i, w, q);
  }

  lemma ClaimedInChat(states: seq<State>, labels: seq<Label>, i: nat, w: Worker)
    requires Run(states, labels) && i < |states| && SenderAt(states[i], w)
    ensures var s, c := states[i], states[i].pcs[w].claim;
      c.row in s.db.rows ==> s.db.rows[c.row].chat == c.chat && s.db.rows[c.row].kind == c.kind
  {
    RunBase(states, labels, i);
    assert ClaimOk(states[i].db, states[i].pcs[w]);
  }

  /** A stored reply belongs to one effect only. */
  lemma NotTorn(states: seq<State>, labels: seq<Label>, i: nat, m: nat, q: RowId)
    requires Run(states, labels) && i < |states| && m < |states[i].h.effects| && q in states[i].h.effects[m].answers
    requires q in states[i].db.rows && !states[i].h.effects[m].torn
    ensures q.Answer? && !TornReply(states[i].h.effects, q)
  {
    RunInbox(states, labels, i);
    var s := states[i];
    assert AnsweredOnce(s.h.effects) && Known(s, q);
    forall e | e in s.h.effects && q in e.answers ensures e == s.h.effects[m] {
      var n :| 0 <= n < |s.h.effects| && s.h.effects[n] == e;
      assert m == n;
    }
  }

  /* ---- Exactly what breaks the order ---- */

  /** In every step of every run: a chat whose replies leave in order loses that if and only if the step inserts
      a reply under an id before that of an attempted one. That needs a tainted chat. */
  lemma OrderLost(states: seq<State>, labels: seq<Label>, k: nat, chat: Chat)
    requires Run(states, labels) && k < |labels| && InOrder(states[k].db.rows, chat)
    ensures !InOrder(states[k + 1].db.rows, chat) <==> CutsIn(states[k], labels[k], chat)
    ensures CutsIn(states[k], labels[k], chat) ==> chat in states[k].h.tainted
  {
    RunBase(states, labels, k);
    RunInbox(states, labels, k);
    OrderStep(states[k], labels[k], chat);
    if CutsIn(states[k], labels[k], chat) { CutIsTorn(states[k], labels[k], chat); }
  }

  /** Up to any moment of a run the replies of a chat have always been in order, if and only if none was inserted
      before an attempted one. */
  lemma AlwaysInOrder(states: seq<State>, labels: seq<Label>, n: nat, chat: Chat)
    requires Run(states, labels) && n < |states|
    ensures (forall i | 0 <= i <= n :: InOrder(states[i].db.rows, chat)) <==>
      (forall k | 0 <= k < n :: !CutsIn(states[k], labels[k], chat))
  {
    if forall k | 0 <= k < n :: !CutsIn(states[k], labels[k], chat) {
      forall i | 0 <= i <= n ensures InOrder(states[i].db.rows, chat) { StaysInOrder(states, labels, i, chat); }
    }
    if forall i | 0 <= i <= n :: InOrder(states[i].db.rows, chat) {
      forall k | 0 <= k < n ensures !CutsIn(states[k], labels[k], chat) { OrderLost(states, labels, k, chat); }
    }
  }

  lemma {:induction false} StaysInOrder(states: seq<State>, labels: seq<Label>, i: nat, chat: Chat)
    requires Run(states, labels) && i < |states| && forall k | 0 <= k < i :: !CutsIn(states[k], labels[k], chat)
    ensures InOrder(states[i].db.rows, chat)
  {
    if i > 0 {
      StaysInOrder(states, labels, i - 1, chat);
      OrderLost(states, labels, i - 1, chat);
    }
  }

  /** The same for the ids themselves: in every step of every run the ids of a chat stop following the order of
      its transactions if and only if the step inserts a reply under an id before that of a stored one. That needs
      a tainted chat. */
  lemma SortingLost(states: seq<State>, labels: seq<Label>, k: nat, chat: Chat)
    requires Run(states, labels) && k < |labels| && Sorted(states[k], chat)
    ensures !Sorted(states[k + 1], chat) <==> Undercuts(states[k], labels[k], chat)
    ensures Undercuts(states[k], labels[k], chat) ==> chat in states[k].h.tainted
  {
    RunBase(states, labels, k);
    RunInbox(states, labels, k);
    SortedStep(states[k], labels[k], chat);
    if Undercuts(states[k], labels[k], chat) { UndercutIsTorn(states[k], labels[k], chat); }
  }

  /** Up to any moment of a run the ids of a chat have always followed the order of its transactions, if and only
      if no reply was inserted before a stored one. */
  lemma AlwaysSorted(states: seq<State>, labels: seq<Label>, n: nat, chat: Chat)
    requires Run(states, labels) && n < |states|
    ensures (forall i | 0 <= i <= n :: Sorted(states[i], chat)) <==>
      (forall k | 0 <= k < n :: !Undercuts(states[k], labels[k], chat))
  {
    if forall k | 0 <= k < n :: !Undercuts(states[k], labels[k], chat) {
      forall i | 0 <= i <= n ensures Sorted(states[i], chat) { StaysSorted(states, labels, i, chat); }
    }
    if forall i | 0 <= i <= n :: Sorted(states[i], chat) {
      forall k | 0 <= k < n ensures !Undercuts(states[k], labels[k], chat) { SortingLost(states, labels, k, chat); }
    }
  }

  lemma {:induction false} StaysSorted(states: seq<State>, labels: seq<Label>, i: nat, chat: Chat)
    requires Run(states, labels) && i < |states| && forall k | 0 <= k < i :: !Undercuts(states[k], labels[k], chat)
    ensures Sorted(states[i], chat)
  {
    if i > 0 {
      StaysSorted(states, labels, i - 1, chat);
      SortingLost(states, labels, i - 1, chat);
    }
  }

  lemma CutUndercuts(s: State, l: Label, chat: Chat)
    requires Can(s, l) && CutsIn(s, l, chat)
    ensures Undercuts(s, l, chat)
  {
    var c, ids := s.pcs[l.w].update, s.pcs[l.w].step.ids;
    var x, r :| 0 <= x < |ids| && r in s.db.rows && Overtaken(s.db.rows, c, x, ids[x], r);
    assert Undercut(s.db.rows, c, x, ids[x], r);
  }

  /** Tainted or not, torn or not: as long as no reply of a chat was inserted before a stored one, whoever is
      sending a reply finds all replies of the chat closed that were processed before it or come before it in the
      same update. */
  lemma SortedUntilUndercut(states: seq<State>, labels: seq<Label>, i: nat, w: Worker, m: nat, n: nat, q: RowId)
    requires Run(states, labels) && i < |states| && Sends.Sending(states[i], w) && states[i].pcs[w].claim.kind.Reply?
    requires forall k | 0 <= k < i :: !Undercuts(states[k], labels[k], states[i].pcs[w].claim.chat)
    requires StoredOf(states[i], m, n, q, states[i].pcs[w].claim.row)
    requires Before(states[i], m, n, q, states[i].pcs[w].claim.row)
    ensures !states[i].db.rows[q].status.Open()
  {
    var s, c := states[i], states[i].pcs[w].claim;
    ClaimedInChat(states, labels, i, w);
    StaysSorted(states, labels, i, c.chat);
    forall k | 0 <= k < i ensures !CutsIn(states[k], labels[k], c.chat) {
      if CutsIn(states[k], labels[k], c.chat) { CutUndercuts(states[k], labels[k], c.chat); }
    }
    StaysInOrder(states, labels, i, c.chat);
    BehindInSending(states, labels, i, w, m, n, q);
  }

  lemma BehindInSending(states: seq<State>, labels: seq<Label>, i: nat, w: Worker, m: nat, n: nat, q: RowId)
    requires Run(states, labels) && i < |states| && SenderAt(states[i], w) && states[i].pcs[w].claim.kind.Reply?
    requires StoredOf(states[i], m, n, q, states[i].pcs[w].claim.row)
    requires Before(states[i], m, n, q, states[i].pcs[w].claim.row)
    requires Sorted(states[i], states[i].pcs[w].claim.chat) && InOrder(states[i].db.rows, states[i].pcs[w].claim.chat)
    ensures !states[i].db.rows[q].status.Open()
  {
    var s, c := states[i], states[i].pcs[w].claim;
    RunBase(states, labels, i);
    RunInbox(states, labels, i);
    assert ClaimOk(s.db, s.pcs[w]) && AnswersKnown(s) && q.Answer?;
    assert m == n ==> Siblings(s, n, q, c.row);
    assert q.n < c.row.n;
  }

  /* ---- No smaller id later ---- */

  /** Ids up to n are spent in a chat: no handler can still commit a reply under one of them. */
  ghost predicate Spent(s: State, chat: Chat, n: nat) {
    && n < s.db.nextAnswer
    && forall w, q | Drawn(s, w, q) && s.pcs[w].update.chat == chat :: n < q.n
  }

  ghost predicate StaysSpent(s: State, t: State, chat: Chat, n: nat) {
    Spent(s, chat, n) ==> Spent(t, chat, n) && forall q | ReplyOf(t.db, q, chat) && q.n <= n :: ReplyOf(s.db, q, chat)
  }

  lemma SpentSend(s: State, w: Worker, l: SendStep, chat: Chat, n: nat)
    requires CanSend(s, w, l)
    ensures StaysSpent(s, NextSend(s, w, l), chat, n)
  {
    SendPrograms(s, w, l);
    SendTables(s, w, l);
    SendKinds(s, w, l);
    assert forall v, q | Drawn(NextSend(s, w, l), v, q) :: Drawn(s, v, q);
  }

  lemma SpentHandle(s: State, w: Worker, l: HandleStep, chat: Chat, n: nat)
    requires DrawInv(s) && CanHandle(s, w, l)
    ensures StaysSpent(s, NextHandle(s, w, l), chat, n)
  {
    HandleShape(s, w, l);
    if Effective(s, w, l) {
      CommitDrawn(s, w, l.ctx);
      SpentCommit(s, NextHandle(s, w, l), w, chat, n, s.pcs[w].step.view.began);
    } else {
      SpentQuiet(s, NextHandle(s, w, l), w, chat, n);
    }
  }

  lemma SpentCommit(s: State, t: State, w: Worker, chat: Chat, n: nat, at: nat)
    requires HandlerAt(s, w) && s.pcs[w].step.Prepared? && t.db.nextAnswer == s.db.nextAnswer
    requires CommitDelta(s.db.rows, t.db.rows, s.pcs[w].update, s.pcs[w].step.ids, at)
    requires forall v | v != w :: (v in t.pcs <==> v in s.pcs) && (v in s.pcs ==> t.pcs[v] == s.pcs[v])
    requires w in t.pcs ==> t.pcs[w].Handler? && !t.pcs[w].step.Prepared?
    ensures StaysSpent(s, t, chat, n)
  {
    assert forall v, q | Drawn(t, v, q) :: Drawn(s, v, q) && s.pcs[v] == t.pcs[v];
    assert forall q | ReplyOf(t.db, q, chat) && !ReplyOf(s.db, q, chat) ::
      Drawn(s, w, q) && s.pcs[w].update.chat == chat;
  }

  lemma SpentQuiet(s: State, t: State, w: Worker, chat: Chat, n: nat)
    requires QuietStep(s, t) && DrawnAnew(s, t, w)
    requires forall v | v != w :: (v in t.pcs <==> v in s.pcs) && (v in s.pcs ==> t.pcs[v] == s.pcs[v])
    requires (w in t.pcs ==> t.pcs[w].Handler?)
    requires (w in s.pcs && w in t.pcs ==> s.pcs[w].Handler? && s.pcs[w].update == t.pcs[w].update)
    ensures StaysSpent(s, t, chat, n)
  {
    forall v, q | Drawn(t, v, q)
      ensures (Drawn(s, v, q) && t.pcs[v].update == s.pcs[v].update) || q.n >= s.db.nextAnswer
    {
      assert q == Answer(q.n);
    }
  }

  lemma SpentPrice(s: State, l: PriceStep, chat: Chat, n: nat)
    requires CanPrice(s, l)
    ensures StaysSpent(s, NextPrice(s, l), chat, n)
  {
  }

  lemma SpentWorld(s: State, l: WorldStep, chat: Chat, n: nat)
    requires CanWorld(s, l)
    ensures StaysSpent(s, NextWorld(s, l), chat, n)
  {
  }

  lemma SpentStep(s: State, l: Label, chat: Chat, n: nat)
    requires BaseInv(s) && Can(s, l)
    ensures StaysSpent(s, Next(s, l), chat, n)
  {
    match l
    case Outbox(w, send) => SpentSend(s, w, send, chat, n);
    case Inbox(w, handle) => SpentHandle(s, w, handle, chat, n);
    case Prices(price) => SpentPrice(s, price, chat, n);
    case World(world) => SpentWorld(s, world, chat, n);
  }

  lemma {:induction false} ChainSpent(states: seq<State>, i: nat, j: nat, chat: Chat, n: nat)
    requires i <= j < |states| && Spent(states[i], chat, n)
    requires forall k | i <= k < j :: StaysSpent(states[k], states[k + 1], chat, n)
    ensures Spent(states[j], chat, n)
    ensures forall q | ReplyOf(states[j].db, q, chat) && q.n <= n :: ReplyOf(states[i].db, q, chat)
  {
    if i < j { ChainSpent(states, i, j - 1, chat, n); assert StaysSpent(states[j - 1], states[j - 1 + 1], chat, n); }
  }

  /** Once a reply is stored, no reply with a smaller id can appear in its chat any more. */
  lemma NoSmallerLater(states: seq<State>, labels: seq<Label>, i: nat, j: nat, r: RowId, q: RowId, chat: Chat)
    requires Run(states, labels) && i <= j < |states| && ReplyOf(states[i].db, r, chat) && chat !in states[i].h.tainted
    requires ReplyOf(states[j].db, q, chat) && !ReplyOf(states[i].db, q, chat)
    ensures r.n < q.n
  {
    RunBase(states, labels, i);
    RunInbox(states, labels, i);
    assert Spent(states[i], chat, r.n);
    forall k | i <= k < j ensures StaysSpent(states[k], states[k + 1], chat, r.n) {
      RunBase(states, labels, k);
      SpentStep(states[k], labels[k], chat, r.n);
    }
    ChainSpent(states, i, j, chat, r.n);
  }
}
