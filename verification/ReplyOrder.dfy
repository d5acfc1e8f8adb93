/** Replies carry the order of their transactions and of their numbers in their ids. */
module ReplyOrder {
  import opened Policy
  import opened Tables
  import opened Machine
  import opened Claims
  import opened Attempts
  import opened Alerts
  import opened InboxOrder

  ghost predicate Ascending(ids: seq<nat>) { forall i, j | 0 <= i < j < |ids| :: ids[i] < ids[j] }

  /** Every handler draws its ids in ascending order. */
  ghost predicate DrawnSorted(s: State) {
    forall w | HandlerAt(s, w) && s.pcs[w].step.Prepared? :: Ascending(s.pcs[w].step.ids)
  }

  ghost function Number(row: Row): nat { if row.kind.Reply? then row.kind.seqNo else 0 }

  /** The unique index over source update and sequence number. */
  ghost predicate Distinct(rows: map<RowId, Row>) {
    forall q, r | q in rows && r in rows && q.Answer? && r.Answer? && rows[q].kind == rows[r].kind :: q == r
  }

  /** A reply an effect inserted is stored, or was closed and is gone. */
  ghost predicate AnswersKnown(s: State) {
    forall n, r | 0 <= n < |s.h.effects| && r in s.h.effects[n].answers :: Known(s, r) && r.Answer?
  }

  /** No reply is inserted twice. */
  ghost predicate AnsweredOnce(effects: seq<Effect>) {
    forall m, n, r | 0 <= m < n < |effects| && r in effects[m].answers :: r !in effects[n].answers
  }

  /** Stored replies of one effect. */
  ghost predicate Siblings(s: State, n: nat, q: RowId, r: RowId) {
    && n < |s.h.effects| && q in s.h.effects[n].answers && r in s.h.effects[n].answers
    && q in s.db.rows && r in s.db.rows
  }

  /** Stored replies of one chat from two effects, the later of them not torn. */
  ghost predicate Successors(s: State, m: nat, n: nat, q: RowId, r: RowId) {
    && m < n < |s.h.effects| && q in s.h.effects[m].answers && r in s.h.effects[n].answers
    && q in s.db.rows && r in s.db.rows && s.db.rows[q].chat == s.db.rows[r].chat && !s.h.effects[n].torn
  }

  ghost predicate AnswersSorted(s: State) {
    && (forall n, q, r | Siblings(s, n, q, r) :: q.n < r.n <==> Number(s.db.rows[q]) < Number(s.db.rows[r]))
    && (forall m, n, q, r | Successors(s, m, n, q, r) :: q.n < r.n)
  }

  ghost predicate SequenceInv(s: State) {
    DrawnSorted(s) && Distinct(s.db.rows) && AnswersKnown(s) && AnsweredOnce(s.h.effects) && AnswersSorted(s)
  }

  /* ---- Steps that insert no reply ---- */

  ghost predicate AnswersKept(s: State, t: State) {
    && t.h.effects == s.h.effects
    && (forall r | r in t.db.rows && r.Answer? ::
          r in s.db.rows && t.db.rows[r].kind == s.db.rows[r].kind && t.db.rows[r].chat == s.db.rows[r].chat)
    && (forall r | Known(s, r) :: Known(t, r))
  }

  lemma SequenceFrame(s: State, t: State)
    requires SequenceInv(s) && AnswersKept(s, t) && DrawnSorted(t)
    ensures SequenceInv(t)
  {
    assert forall n, q, r | Siblings(t, n, q, r) :: Siblings(s, n, q, r) && q.Answer? && r.Answer?;
    assert forall m, n, q, r | Successors(t, m, n, q, r) :: Successors(s, m, n, q, r) && q.Answer? && r.Answer?;
  }

  lemma SequenceSend(s: State, w: Worker, l: SendStep)
    requires SequenceInv(s) && CanSend(s, w, l)
    ensures SequenceInv(NextSend(s, w, l))
  {
    var t := NextSend(s, w, l);
    SendPrograms(s, w, l);
    KeptBySend(s, w, l);
    SequenceFrame(s, t);
  }

  lemma KeptBySend(s: State, w: Worker, l: SendStep)
    requires CanSend(s, w, l)
    ensures AnswersKept(s, NextSend(s, w, l))
  {
    SendKinds(s, w, l);
    SendKeeps(s, w, l);
    SendTables(s, w, l);
    FateKept(s, w, l);
  }

  /** A recorded final status stays recorded. */
  lemma FateKept(s: State, w: Worker, l: SendStep)
    requires CanSend(s, w, l)
    ensures forall r | r in s.h.fate :: r in NextSend(s, w, l).h.fate
  {
    SendShape(s, w, l);
    match OutcomeOf(s, w, l)
    case Some(v) => SettlingFate(s.h, s.pcs[w].claim, v, l.Conclude? && s.pcs[w].claim.attempts >= MAX_ATTEMPTS);
    case None =>
  }

  lemma SequencePrice(s: State, l: PriceStep)
    requires SequenceInv(s) && CanPrice(s, l)
    ensures SequenceInv(NextPrice(s, l))
  {
    SequenceFrame(s, NextPrice(s, l));
  }

  lemma SequenceWorld(s: State, l: WorldStep)
    requires SequenceInv(s) && RowsInv(s.db) && FateInv(s.db, s.h.fate) && CanWorld(s, l)
    ensures SequenceInv(NextWorld(s, l))
  {
    WorldRows(s, l);
    WorldAnswers(s, l);
    SequenceFrame(s, NextWorld(s, l));
  }

  lemma WorldAnswers(s: State, l: WorldStep)
    requires DrawnSorted(s) && CanWorld(s, l)
    ensures var t := NextWorld(s, l);
      DrawnSorted(t) && t.h.effects == s.h.effects && forall r | r in t.db.rows && r.Answer? :: r in s.db.rows
  {
  }

  /* ---- Commits ---- */

  /** A reply under the id drawn for its number, which no reply of the update had before. */
  ghost predicate Fits(rows: map<RowId, Row>, c: UpdateClaim, ids: seq<nat>, r: RowId, row: Row) {
    && row.kind.Reply? && row.kind.source == c.id && Number(row) < |ids| && r == Answer(ids[Number(row)])
    && !ReplyExists(rows, c.id, Number(row))
  }

  /** Every reply a commit adds is such a reply. */
  ghost predicate Numbered(rows: map<RowId, Row>, rows': map<RowId, Row>, c: UpdateClaim, ids: seq<nat>) {
    forall r | r in rows' && r !in rows :: Fits(rows, c, ids, r, rows'[r])
  }

  ghost predicate AllFit(rows: map<RowId, Row>, added: map<RowId, Row>, c: UpdateClaim, ids: seq<nat>) {
    forall r | r in added :: Fits(rows, c, ids, r, added[r])
  }

  lemma {:induction false} NewNumbers(rows: map<RowId, Row>, c: UpdateClaim, ids: seq<nat>, at: nat)
    ensures AllFit(rows, NewReplies(rows, c, ids, at), c, ids)
  {
    if ids != [] {
      var n := |ids| - 1;
      var before := NewReplies(rows, c, ids[..n], at);
      NewNumbers(rows, c, ids[..n], at);
      forall r | r in before ensures Fits(rows, c, ids, r, before[r]) { FitsLonger(rows, c, ids, n, r, before[r]); }
      assert AllFit(rows, before, c, ids);
    }
  }

  lemma FitsLonger(rows: map<RowId, Row>, c: UpdateClaim, ids: seq<nat>, n: nat, r: RowId, row: Row)
    requires n <= |ids| && Fits(rows, c, ids[..n], r, row)
    ensures Fits(rows, c, ids, r, row)
  {
    assert ids[..n][Number(row)] == ids[Number(row)];
  }

  lemma SameReplies(rows: map<RowId, Row>, rows': map<RowId, Row>, source: int, n: nat)
    requires rows'.Keys == rows.Keys && forall r | r in rows :: rows'[r].kind == rows[r].kind
    ensures ReplyExists(rows', source, n) <==> ReplyExists(rows, source, n)
  {
  }

  lemma CommitNumbers(db: Db, c: UpdateClaim, ids: seq<nat>, view: View, ctx: Context)
    ensures Numbered(db.rows, CommitUpdate(db, c, ids, view, ctx).rows, c, ids)
  {
    if OwnsUpdate(db.updates, c) && Admits(db.versions, c, view) {
      var recorded := db.(versions := Record(db.versions, c, view));
      var mutated := Mutate(recorded, c, view, ctx);
      MutateRows(recorded, c, view, ctx);
      NewNumbers(mutated.rows, c, ids, view.began);
      var added := NewReplies(mutated.rows, c, ids, view.began);
      assert CommitUpdate(db, c, ids, view, ctx).rows == mutated.rows + added;
      forall r | r in added ensures Fits(db.rows, c, ids, r, added[r]) {
        assert Fits(mutated.rows, c, ids, r, added[r]);
        SameReplies(db.rows, mutated.rows, c.id, Number(added[r]));
      }
    }
  }

  /** What a commit has done to the replies. */
  ghost predicate AnswersAdded(s: State, t: State, w: Worker) {
    && HandlerAt(s, w) && s.pcs[w].step.Prepared? && Ascending(s.pcs[w].step.ids)
    && Numbered(s.db.rows, t.db.rows, s.pcs[w].update, s.pcs[w].step.ids)
    && CommitDelta(s.db.rows, t.db.rows, s.pcs[w].update, s.pcs[w].step.ids, s.pcs[w].step.view.began)
    && |t.h.effects| == |s.h.effects| + 1 && t.h.effects[..|s.h.effects|] == s.h.effects
    && t.h.effects[|s.h.effects|].answers == t.db.rows.Keys - s.db.rows.Keys
    && t.h.effects[|s.h.effects|].torn == (s.pcs[w].update.chat in s.h.tainted)
    && (forall r | r in s.h.fate :: r in t.h.fate)
  }

  lemma AnswersCommit(s: State, t: State, w: Worker, ctx: Context)
    requires DrawnSorted(s) && DrawInv(s) && CommittedStep(s, t, w, ctx)
    ensures AnswersAdded(s, t, w)
  {
    CommitDrawn(s, w, ctx);
    CommitNumbers(s.db, s.pcs[w].update, s.pcs[w].step.ids, s.pcs[w].step.view, ctx);
  }

  lemma DistinctCommit(s: State, t: State, w: Worker)
    requires Distinct(s.db.rows) && AnswersAdded(s, t, w)
    ensures Distinct(t.db.rows)
  {
    forall q, r | q in t.db.rows && r in t.db.rows && q.Answer? && r.Answer? && t.db.rows[q].kind == t.db.rows[r].kind
      ensures q == r
    {
      NewIsNew(s, t, w, q, r);
      NewIsNew(s, t, w, r, q);
    }
  }

  /** A reply that is added differs in kind from every stored one. */
  lemma NewIsNew(s: State, t: State, w: Worker, q: RowId, r: RowId)
    requires AnswersAdded(s, t, w) && q in t.db.rows && r in t.db.rows
    ensures q in s.db.rows && r !in s.db.rows ==> t.db.rows[q].kind != t.db.rows[r].kind
  {
    assert q in s.db.rows ==> s.db.rows[q].kind == t.db.rows[q].kind;
  }

  /** A reply some earlier effect inserted is not inserted again. */
  lemma AnsweredBefore(s: State, t: State, w: Worker, n: nat, r: RowId)
    requires AnswersKnown(s) && DrawInv(s) && AnswersAdded(s, t, w) && n < |s.h.effects| && r in s.h.effects[n].answers
    requires r in t.db.rows
    ensures r in s.db.rows && t.db.rows[r].kind == s.db.rows[r].kind && t.db.rows[r].chat == s.db.rows[r].chat
  {
    assert Known(s, r);
    if r !in s.db.rows { assert Drawn(s, w, r); }
  }

  lemma SiblingsCommit(s: State, t: State, w: Worker, n: nat, q: RowId, r: RowId)
    requires SequenceInv(s) && DrawInv(s) && AnswersAdded(s, t, w) && Siblings(t, n, q, r)
    ensures q.n < r.n <==> Number(t.db.rows[q]) < Number(t.db.rows[r])
  {
    if n < |s.h.effects| {
      AnsweredBefore(s, t, w, n, q);
      AnsweredBefore(s, t, w, n, r);
      assert Siblings(s, n, q, r);
    }
  }

  lemma SuccessorsCommit(s: State, t: State, w: Worker, m: nat, n: nat, q: RowId, r: RowId)
    requires SequenceInv(s) && DrawInv(s) && FifoDraws(s) && AnswersAdded(s, t, w) && Successors(t, m, n, q, r)
    ensures q.n < r.n
  {
    AnsweredBefore(s, t, w, m, q);
    if n < |s.h.effects| {
      AnsweredBefore(s, t, w, n, r);
      assert Successors(s, m, n, q, r);
    } else {
      assert Drawn(s, w, r);
      assert AnswersKnown(s) && q.Answer?;
    }
  }

  lemma SequenceCommit(s: State, t: State, w: Worker, ctx: Context)
    requires SequenceInv(s) && DrawInv(s) && FifoDraws(s) && CommittedStep(s, t, w, ctx) && DrawnSorted(t)
    ensures SequenceInv(t)
  {
    AnswersCommit(s, t, w, ctx);
    DistinctCommit(s, t, w);
    forall n, q, r | Siblings(t, n, q, r) ensures q.n < r.n <==> Number(t.db.rows[q]) < Number(t.db.rows[r]) {
      SiblingsCommit(s, t, w, n, q, r);
    }
    forall m, n, q, r | Successors(t, m, n, q, r) ensures q.n < r.n { SuccessorsCommit(s, t, w, m, n, q, r); }
    KnownCommit(s, t, w);
    OnceCommit(s, t, w);
  }

  lemma OnceCommit(s: State, t: State, w: Worker)
    requires AnsweredOnce(s.h.effects) && AnswersKnown(s) && DrawInv(s) && AnswersAdded(s, t, w)
    ensures AnsweredOnce(t.h.effects)
  {
    forall m, n, r | 0 <= m < n < |t.h.effects| && r in t.h.effects[m].answers ensures r !in t.h.effects[n].answers {
      assert t.h.effects[m] == s.h.effects[m];
      if r in t.db.rows { AnsweredBefore(s, t, w, m, r); }
    }
  }

  lemma KnownCommit(s: State, t: State, w: Worker)
    requires AnswersKnown(s) && AnswersAdded(s, t, w)
    ensures AnswersKnown(t)
  {
    forall n, r | 0 <= n < |t.h.effects| && r in t.h.effects[n].answers ensures Known(t, r) && r.Answer? {
      if n < |s.h.effects| { assert r in s.h.effects[n].answers && Known(s, r); }
    }
  }

  lemma SortedHandle(s: State, w: Worker, l: HandleStep)
    requires DrawnSorted(s) && DrawInv(s) && CanHandle(s, w, l)
    ensures DrawnSorted(NextHandle(s, w, l))
  {
    HandleShape(s, w, l);
    var t := NextHandle(s, w, l);
    if HandlerAt(t, w) && t.pcs[w].step.Prepared? { SortedOwn(s, w, l); }
  }

  lemma SortedOwn(s: State, w: Worker, l: HandleStep)
    requires DrawnSorted(s) && DrawInv(s) && CanHandle(s, w, l)
    requires HandlerAt(NextHandle(s, w, l), w) && NextHandle(s, w, l).pcs[w].step.Prepared?
    ensures Ascending(NextHandle(s, w, l).pcs[w].step.ids)
  {
    match l
    case Draw(id) =>
      forall i | 0 <= i < |s.pcs[w].step.ids| ensures s.pcs[w].step.ids[i] < id {
        assert Drawn(s, w, Answer(s.pcs[w].step.ids[i]));
      }
    case _ =>
  }

  lemma SequenceHandle(s: State, w: Worker, l: HandleStep)
    requires SequenceInv(s) && DrawInv(s) && FifoDraws(s) && CanHandle(s, w, l)
    ensures SequenceInv(NextHandle(s, w, l))
  {
    HandleShape(s, w, l);
    SortedHandle(s, w, l);
    var t := NextHandle(s, w, l);
    if Effective(s, w, l) { SequenceCommit(s, t, w, l.ctx); } else { SequenceFrame(s, t); }
  }

  /* ---- What breaks the order of sending ---- */

  /** Whatever was attempted in this chat, everything before it is closed. */
  ghost predicate InOrder(rows: map<RowId, Row>, chat: Chat) {
    forall q, r | q in rows && r in rows && q.Answer? && r.Answer? && q.n < r.n && rows[q].chat == chat == rows[r].chat
                  && rows[r].attempts > 0 ::
      !rows[q].status.Open()
  }

  /** A commit that inserts a reply of the chat under an id before that of an attempted one. */
  ghost predicate CutsIn(s: State, l: Label, chat: Chat)
    requires Can(s, l)
  {
    && l.Inbox? && Effective(s, l.w, l.handle)
    && var c, ids := s.pcs[l.w].update, s.pcs[l.w].step.ids;
    && c.chat == chat && Admits(s.db.versions, c, s.pcs[l.w].step.view)
    && exists x, r | 0 <= x < |ids| && r in s.db.rows :: Overtaken(s.db.rows, c, x, ids[x], r)
  }

  /** The x-th reply of a commit is new and gets an id before that of a stored reply of the chat. */
  ghost predicate Undercut(rows: map<RowId, Row>, c: UpdateClaim, x: nat, id: nat, r: RowId) {
    !ReplyExists(rows, c.id, x) && r in rows && r.Answer? && rows[r].chat == c.chat && id < r.n
  }

  ghost predicate Overtaken(rows: map<RowId, Row>, c: UpdateClaim, x: nat, id: nat, r: RowId) {
    Undercut(rows, c, x, id, r) && rows[r].attempts > 0
  }

  /** In an untainted chat drawn ids lie behind every stored one. */
  lemma CutIsTorn(s: State, l: Label, chat: Chat)
    requires FifoDraws(s) && Can(s, l) && CutsIn(s, l, chat)
    ensures chat in s.h.tainted
  {
    var c, ids := s.pcs[l.w].update, s.pcs[l.w].step.ids;
    var x, r :| 0 <= x < |ids| && r in s.db.rows && Overtaken(s.db.rows, c, x, ids[x], r);
    assert Drawn(s, l.w, Answer(ids[x]));
  }

  lemma OrderFrame(rows: map<RowId, Row>, rows': map<RowId, Row>, chat: Chat)
    requires InOrder(rows, chat)
    requires forall r | r in rows' && r.Answer? :: r in rows && FifoStill(rows[r], rows'[r])
    ensures InOrder(rows', chat)
  {
  }

  lemma OrderSend(s: State, w: Worker, l: SendStep, chat: Chat)
    requires InOrder(s.db.rows, chat) && CanSend(s, w, l)
    ensures InOrder(NextSend(s, w, l).db.rows, chat)
  {
    SendShape(s, w, l);
    if l.Claim? {
      OrderTaken(s.db, l.r, l.token, l.at, chat);
    } else {
      OrderFrame(s.db.rows, NextSend(s, w, l).db.rows, chat);
    }
  }

  lemma OrderTaken(db: Db, r: RowId, token: Token, at: nat, chat: Chat)
    requires InOrder(db.rows, chat) && Claimable(db.rows, r, at)
    ensures InOrder(TakeClaim(db, r, token, at).rows, chat)
  {
  }

  /** The replies a commit adds are exactly those whose numbers were not stored. */
  lemma AddedExactly(db: Db, c: UpdateClaim, ids: seq<nat>, view: View, ctx: Context, x: nat)
    requires OwnsUpdate(db.updates, c) && Admits(db.versions, c, view) && Ascending(ids) && x < |ids|
    requires !ReplyExists(db.rows, c.id, x)
    ensures var rows := CommitUpdate(db, c, ids, view, ctx).rows;
      Answer(ids[x]) in rows && rows[Answer(ids[x])] == ReplyRow(c, x, view.began)
  {
    var recorded := db.(versions := Record(db.versions, c, view));
    var mutated := Mutate(recorded, c, view, ctx);
    MutateRows(recorded, c, view, ctx);
    SameReplies(db.rows, mutated.rows, c.id, x);
    ReplyAdded(mutated.rows, c, ids, view.began, x);
    assert CommitUpdate(db, c, ids, view, ctx).rows == mutated.rows + NewReplies(mutated.rows, c, ids, view.began);
  }

  lemma OrderCommit(s: State, t: State, w: Worker, l: HandleStep, chat: Chat)
    requires InOrder(s.db.rows, chat) && DrawnSorted(s) && DrawInv(s) && CanHandle(s, w, l) && Effective(s, w, l)
    requires t == NextHandle(s, w, l)
    ensures InOrder(t.db.rows, chat) <==> !CutsIn(s, Inbox(w, l), chat)
  {
    HandleShape(s, w, l);
    AnswersCommit(s, t, w, l.ctx);
    var c, ids, view := s.pcs[w].update, s.pcs[w].step.ids, s.pcs[w].step.view;
    if CutsIn(s, Inbox(w, l), chat) {
      var x, r :| 0 <= x < |ids| && r in s.db.rows && Overtaken(s.db.rows, c, x, ids[x], r);
      AddedExactly(s.db, c, ids, view, l.ctx, x);
      CutBreaks(s.db.rows, t.db.rows, c, ids, view.began, x, r);
    } else {
      if !Admits(s.db.versions, c, view) { RefusedAddsNone(s.db, c, ids, view, l.ctx); }
      OrderKept(s.db.rows, t.db.rows, c, ids, view.began, chat);
    }
  }

  /** Additions that overtake no attempted reply keep the order. */
  lemma OrderKept(rows: map<RowId, Row>, rows': map<RowId, Row>, c: UpdateClaim, ids: seq<nat>, at: nat, chat: Chat)
    requires InOrder(rows, chat) && CommitDelta(rows, rows', c, ids, at) && Numbered(rows, rows', c, ids)
    requires chat == c.chat && rows' != rows ==>
      forall x, r | 0 <= x < |ids| && r in rows :: !Overtaken(rows, c, x, ids[x], r)
    ensures InOrder(rows', chat)
  {
    forall q, r | q in rows' && r in rows' && q.Answer? && r.Answer? && q.n < r.n
               && rows'[q].chat == chat == rows'[r].chat && rows'[r].attempts > 0
      ensures !rows'[q].status.Open()
    {
      assert q !in rows ==> Fits(rows, c, ids, q, rows'[q]);
      assert q !in rows ==> Overtaken(rows, c, Number(rows'[q]), ids[Number(rows'[q])], r);
    }
  }

  lemma CutBreaks(rows: map<RowId, Row>, rows': map<RowId, Row>, c: UpdateClaim, ids: seq<nat>, at: nat, x: nat,
      r: RowId)
    requires CommitDelta(rows, rows', c, ids, at) && x < |ids| && r in rows && Overtaken(rows, c, x, ids[x], r)
    requires Answer(ids[x]) in rows' && rows'[Answer(ids[x])] == ReplyRow(c, x, at)
    ensures !InOrder(rows', c.chat)
  {
    assert rows'[Answer(ids[x])].status.Open() && Answer(ids[x]).n < r.n && rows'[r].attempts > 0;
  }

  lemma OrderHandle(s: State, w: Worker, l: HandleStep, chat: Chat)
    requires InOrder(s.db.rows, chat) && DrawnSorted(s) && DrawInv(s) && CanHandle(s, w, l)
    ensures InOrder(NextHandle(s, w, l).db.rows, chat) <==> !CutsIn(s, Inbox(w, l), chat)
  {
    HandleShape(s, w, l);
    if Effective(s, w, l) { OrderCommit(s, NextHandle(s, w, l), w, l, chat); }
  }

  lemma OrderPrice(s: State, l: PriceStep, chat: Chat)
    requires InOrder(s.db.rows, chat) && CanPrice(s, l)
    ensures InOrder(NextPrice(s, l).db.rows, chat)
  {
    OrderFrame(s.db.rows, NextPrice(s, l).db.rows, chat);
  }

  lemma OrderWorld(s: State, l: WorldStep, chat: Chat)
    requires InOrder(s.db.rows, chat) && CanWorld(s, l)
    ensures InOrder(NextWorld(s, l).db.rows, chat)
  {
    OrderFrame(s.db.rows, NextWorld(s, l).db.rows, chat);
  }

  /** Every step keeps the order of a chat, if and only if it does not cut in. */
  lemma OrderStep(s: State, l: Label, chat: Chat)
    requires InOrder(s.db.rows, chat) && DrawnSorted(s) && DrawInv(s) && Can(s, l)
    ensures InOrder(Next(s, l).db.rows, chat) <==> !CutsIn(s, l, chat)
  {
    match l
    case Outbox(w, send) => OrderSend(s, w, send, chat);
    case Inbox(w, handle) => OrderHandle(s, w, handle, chat);
    case Prices(price) => OrderPrice(s, price, chat);
    case World(world) => OrderWorld(s, world, chat);
  }

  /* ---- What breaks the order of the ids ---- */

  /** Stored replies of one chat, of the m-th and the n-th effect. */
  ghost predicate StoredOf(s: State, m: nat, n: nat, q: RowId, r: RowId) {
    && m < |s.h.effects| && n < |s.h.effects| && q in s.h.effects[m].answers && r in s.h.effects[n].answers
    && q in s.db.rows && r in s.db.rows && s.db.rows[q].chat == s.db.rows[r].chat
  }

  /** The ids of the stored replies of a chat follow the order in which its updates took effect. */
  ghost predicate Sorted(s: State, chat: Chat) {
    forall m, n, q, r | m < n && StoredOf(s, m, n, q, r) && s.db.rows[q].chat == chat :: q.n < r.n
  }

  /** A commit that inserts a reply of the chat under an id before that of a stored one. */
  ghost predicate Undercuts(s: State, l: Label, chat: Chat)
    requires Can(s, l)
  {
    && l.Inbox? && Effective(s, l.w, l.handle)
    && var c, ids := s.pcs[l.w].update, s.pcs[l.w].step.ids;
    && c.chat == chat && Admits(s.db.versions, c, s.pcs[l.w].step.view)
    && exists x, r | 0 <= x < |ids| && r in s.db.rows :: Undercut(s.db.rows, c, x, ids[x], r)
  }

  /** In an untainted chat drawn ids lie behind every stored one. */
  lemma UndercutIsTorn(s: State, l: Label, chat: Chat)
    requires FifoDraws(s) && Can(s, l) && Undercuts(s, l, chat)
    ensures chat in s.h.tainted
  {
    var c, ids := s.pcs[l.w].update, s.pcs[l.w].step.ids;
    var x, r :| 0 <= x < |ids| && r in s.db.rows && Undercut(s.db.rows, c, x, ids[x], r);
    assert Drawn(s, l.w, Answer(ids[x]));
  }

  lemma SortedFrame(s: State, t: State, chat: Chat)
    requires Sorted(s, chat) && AnswersKept(s, t) && AnswersKnown(s)
    ensures Sorted(t, chat)
  {
    assert forall m, n, q, r | StoredOf(t, m, n, q, r) :: StoredOf(s, m, n, q, r) && q.Answer? && r.Answer?;
  }

  /** Additions that undercut no stored reply leave the ids sorted. */
  lemma SortedKept(s: State, t: State, w: Worker, chat: Chat)
    requires Sorted(s, chat) && SequenceInv(s) && DrawInv(s) && AnswersAdded(s, t, w)
    requires chat == s.pcs[w].update.chat && t.db.rows.Keys != s.db.rows.Keys ==>
      forall x, r | 0 <= x < |s.pcs[w].step.ids| && r in s.db.rows ::
        !Undercut(s.db.rows, s.pcs[w].update, x, s.pcs[w].step.ids[x], r)
    ensures Sorted(t, chat)
  {
    forall m, n, q, r | m < n && StoredOf(t, m, n, q, r) && t.db.rows[q].chat == chat ensures q.n < r.n {
      PairKept(s, t, w, chat, m, n, q, r);
    }
  }

  lemma PairKept(s: State, t: State, w: Worker, chat: Chat, m: nat, n: nat, q: RowId, r: RowId)
    requires Sorted(s, chat) && SequenceInv(s) && DrawInv(s) && AnswersAdded(s, t, w)
    requires chat == s.pcs[w].update.chat && t.db.rows.Keys != s.db.rows.Keys ==>
      forall x, r | 0 <= x < |s.pcs[w].step.ids| && r in s.db.rows ::
        !Undercut(s.db.rows, s.pcs[w].update, x, s.pcs[w].step.ids[x], r)
    requires m < n && StoredOf(t, m, n, q, r) && t.db.rows[q].chat == chat
    ensures q.n < r.n
  {
    AnsweredBefore(s, t, w, m, q);
    assert t.h.effects[m] == s.h.effects[m] && q.Answer?;
    if n < |s.h.effects| {
      AnsweredBefore(s, t, w, n, r);
      assert StoredOf(s, m, n, q, r);
    } else {
      var c, ids := s.pcs[w].update, s.pcs[w].step.ids;
      assert Fits(s.db.rows, c, ids, r, t.db.rows[r]) && q != r;
      assert !Undercut(s.db.rows, c, Number(t.db.rows[r]), ids[Number(t.db.rows[r])], q);
    }
  }

  /** A reply stored behind a greater id leaves the ids unsorted. */
  lemma SortedBroken(s: State, t: State, w: Worker, x: nat, r: RowId)
    requires AuthorInv(s) && DrawInv(s) && AnswersAdded(s, t, w) && x < |s.pcs[w].step.ids|
    requires r in s.db.rows && Undercut(s.db.rows, s.pcs[w].update, x, s.pcs[w].step.ids[x], r)
    requires Answer(s.pcs[w].step.ids[x]) in t.db.rows
    requires t.db.rows[Answer(s.pcs[w].step.ids[x])].chat == s.pcs[w].update.chat
    requires s.db.rows[r].kind.Reply?
    ensures !Sorted(t, s.pcs[w].update.chat)
  {
    var e :| e in s.h.effects && r in e.answers;
    var m :| 0 <= m < |s.h.effects| && s.h.effects[m] == e;
    var q := Answer(s.pcs[w].step.ids[x]);
    assert Drawn(s, w, q);
    assert t.h.effects[m] == s.h.effects[m];
    assert StoredOf(t, m, |s.h.effects|, r, q);
  }

  lemma SortedCommit(s: State, t: State, w: Worker, l: HandleStep, chat: Chat)
    requires Sorted(s, chat) && SequenceInv(s) && AuthorInv(s) && DrawInv(s) && RowsInv(s.db)
    requires CanHandle(s, w, l) && Effective(s, w, l) && t == NextHandle(s, w, l)
    ensures Sorted(t, chat) <==> !Undercuts(s, Inbox(w, l), chat)
  {
    HandleShape(s, w, l);
    AnswersCommit(s, t, w, l.ctx);
    var c, ids, view := s.pcs[w].update, s.pcs[w].step.ids, s.pcs[w].step.view;
    if Undercuts(s, Inbox(w, l), chat) {
      var x, r :| 0 <= x < |ids| && r in s.db.rows && Undercut(s.db.rows, c, x, ids[x], r);
      AddedExactly(s.db, c, ids, view, l.ctx, x);
      SortedBroken(s, t, w, x, r);
    } else {
      if !Admits(s.db.versions, c, view) { RefusedAddsNone(s.db, c, ids, view, l.ctx); }
      SortedKept(s, t, w, chat);
    }
  }

  lemma IdsSend(s: State, w: Worker, l: SendStep, chat: Chat)
    requires Sorted(s, chat) && AnswersKnown(s) && CanSend(s, w, l)
    ensures Sorted(NextSend(s, w, l), chat)
  {
    SendPrograms(s, w, l);
    KeptBySend(s, w, l);
    SortedFrame(s, NextSend(s, w, l), chat);
  }

  lemma IdsHandle(s: State, w: Worker, l: HandleStep, chat: Chat)
    requires Sorted(s, chat) && SequenceInv(s) && AuthorInv(s) && DrawInv(s) && RowsInv(s.db) && CanHandle(s, w, l)
    ensures Sorted(NextHandle(s, w, l), chat) <==> !Undercuts(s, Inbox(w, l), chat)
  {
    if Effective(s, w, l) {
      SortedCommit(s, NextHandle(s, w, l), w, l, chat);
    } else {
      HandleShape(s, w, l);
      SortedFrame(s, NextHandle(s, w, l), chat);
    }
  }

  lemma IdsPrice(s: State, l: PriceStep, chat: Chat)
    requires Sorted(s, chat) && AnswersKnown(s) && CanPrice(s, l)
    ensures Sorted(NextPrice(s, l), chat)
  {
    SortedFrame(s, NextPrice(s, l), chat);
  }

  lemma IdsWorld(s: State, l: WorldStep, chat: Chat)
    requires Sorted(s, chat) && SequenceInv(s) && RowsInv(s.db) && FateInv(s.db, s.h.fate) && CanWorld(s, l)
    ensures Sorted(NextWorld(s, l), chat)
  {
    WorldRows(s, l);
    WorldAnswers(s, l);
    SortedFrame(s, NextWorld(s, l), chat);
  }

  /** Every step leaves sorted ids sorted, if and only if it does not undercut. */
  lemma SortedStep(s: State, l: Label, chat: Chat)
    requires Sorted(s, chat) && SequenceInv(s) && AuthorInv(s) && DrawInv(s) && RowsInv(s.db)
    requires FateInv(s.db, s.h.fate) && Can(s, l)
    ensures Sorted(Next(s, l), chat) <==> !Undercuts(s, l, chat)
  {
    match l
    case Outbox(w, send) => IdsSend(s, w, send, chat);
    case Inbox(w, handle) => IdsHandle(s, w, handle, chat);
    case Prices(price) => IdsPrice(s, price, chat);
    case World(world) => IdsWorld(s, world, chat);
  }
}
