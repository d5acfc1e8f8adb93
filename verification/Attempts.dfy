/** Conservation of attempts: how claims, retries and sends of one row add up over its whole life. */
module Attempts {
  import opened Policy
  import opened Tables
  import opened Machine
  import opened Claims

  ghost predicate TallyOk(row: Row, t: Tally) {
    && t.sends == |t.sentOn|
    && (forall k | k in t.sentOn :: 1 <= k <= row.attempts)
    && row.attempts == t.firstClaims + t.reclaims
    && t.firstClaims <= (if row.status.Pending? then 0 else 1) + t.retries + t.overruns
    && t.retries < MAX_ATTEMPTS
    && t.retries + (if row.status.Sending? then 1 else 0) <= row.attempts
  }

  ghost predicate Unsent(pc: Pc) { pc.Sender? && (pc.phase.Claimed? || pc.phase.Vetted? || pc.phase.Checked?) }

  ghost predicate Known(s: State, r: RowId) { r in s.db.rows || r in s.h.fate }

  ghost predicate TallyInv(s: State) {
    && (forall r | r in s.h.tally :: Known(s, r))
    && (forall w | SenderAt(s, w) :: Known(s, s.pcs[w].claim.row))
    && (forall r | r in s.db.rows :: TallyOk(s.db.rows[r], TallyOf(s.h, r)))
    && (forall w | SenderAt(s, w) :: StillUnsent(s.h, s.pcs[w]))
  }

  /** Before its send an attempt was not sent on. */
  ghost predicate StillUnsent(h: History, pc: Pc) {
    Unsent(pc) ==> pc.claim.attempts !in TallyOf(h, pc.claim.row).sentOn
  }

  lemma TallyTaken(s: State, w: Worker, r: RowId, token: Token, at: nat, heard: bool)
    requires TallyInv(s) && ClaimInv(s) && w !in s.pcs && r in s.db.rows && s.db.rows[r].status.Open()
    ensures TallyInv(ClaimStep(s, w, r, token, at, heard))
  {
    var t := ClaimStep(s, w, r, token, at, heard);
    TallyClaimed(s, t, r, token, at);
    forall v | SenderAt(t, v) ensures Known(t, t.pcs[v].claim.row) && StillUnsent(t.h, t.pcs[v]) {
      TallyEntered(s, t, w, r, v);
    }
  }

  /** A new claim carries an attempt number that nothing was sent on. */
  lemma TallyEntered(s: State, t: State, w: Worker, r: RowId, v: Worker)
    requires TallyInv(s) && r in s.db.rows && t.db.rows.Keys == s.db.rows.Keys && t.h.fate == s.h.fate
    requires forall q | q in t.h.tally :: q == r || (q in s.h.tally && t.h.tally[q] == s.h.tally[q])
    requires forall q | q in s.h.tally :: q in t.h.tally
    requires TallyOf(t.h, r).sentOn == TallyOf(s.h, r).sentOn && SenderAt(t, v)
    requires if v == w then t.pcs[w].claim.row == r && t.pcs[w].claim.attempts == s.db.rows[r].attempts + 1
             else SenderAt(s, v) && t.pcs[v] == s.pcs[v]
    ensures Known(t, t.pcs[v].claim.row) && StillUnsent(t.h, t.pcs[v])
  {
    if v == w { assert TallyOk(s.db.rows[r], TallyOf(s.h, r)); } else { assert StillUnsent(s.h, s.pcs[v]); }
  }

  lemma TallyClaimed(s: State, t: State, r: RowId, token: Token, at: nat)
    requires TallyInv(s) && r in s.db.rows && s.db.rows[r].status.Open() && t.db == TakeClaim(s.db, r, token, at)
    requires var x := TallyOf(s.h, r); t.h.tally == s.h.tally[r :=
      if s.db.rows[r].status.Pending? then x.(firstClaims := x.firstClaims + 1) else x.(reclaims := x.reclaims + 1)]
    ensures forall q | q in t.db.rows :: TallyOk(t.db.rows[q], TallyOf(t.h, q))
  {
    forall q | q in t.db.rows ensures TallyOk(t.db.rows[q], TallyOf(t.h, q)) {
      assert TallyOk(s.db.rows[q], TallyOf(s.h, q));
    }
  }

  lemma TallySettled(s: State, w: Worker, v: Verdict, overrun: bool)
    requires TallyInv(s) && SenderAt(s, w) && (v.Retry? ==> overrun == (s.pcs[w].claim.attempts >= MAX_ATTEMPTS))
    ensures var t := SettleStep(s, s.pcs[w].claim, v, overrun);
      && (forall r | r in t.h.tally || Known(s, r) :: Known(t, r))
      && (forall r | r in t.db.rows :: TallyOk(t.db.rows[r], TallyOf(t.h, r)))
      && (forall r :: TallyOf(t.h, r).sentOn == TallyOf(s.h, r).sentOn)
  {
    var c := s.pcs[w].claim;
    var t := SettleStep(s, c, v, overrun);
    if Owns(s.db.rows, c) {
      assert TallyOk(s.db.rows[c.row], TallyOf(s.h, c.row));
      assert t.db.rows == s.db.rows[c.row := Settled(s.db.rows[c.row], v, s.db.now)];
      forall q | q in t.db.rows ensures TallyOk(t.db.rows[q], TallyOf(t.h, q)) {
        assert TallyOk(s.db.rows[q], TallyOf(s.h, q));
      }
    }
  }

  lemma TallySent(s: State, w: Worker)
    requires TallyInv(s) && ClaimInv(s) && UniqueInv(s) && SenderAt(s, w) && s.pcs[w].phase.Checked?
    ensures TallyInv(BeginStep(s, w))
  {
    var t, c := BeginStep(s, w), s.pcs[w].claim;
    assert ClaimOk(s.db, s.pcs[w]);
    forall q | q in t.db.rows ensures TallyOk(t.db.rows[q], TallyOf(t.h, q)) {
      assert TallyOk(s.db.rows[q], TallyOf(s.h, q));
    }
    assert forall r | Known(s, r) :: Known(t, r);
    forall v | SenderAt(t, v) ensures StillUnsent(t.h, t.pcs[v]) {
      assert v != w ==> SenderAt(s, v) && StillUnsent(s.h, s.pcs[v]);
      if v != w && s.pcs[v].claim.row == c.row { assert s.pcs[v].claim.attempts != c.attempts; }
    }
  }

  lemma TallySend(s: State, w: Worker, l: SendStep)
    requires TallyInv(s) && ClaimInv(s) && UniqueInv(s) && CanSend(s, w, l)
    ensures TallyInv(NextSend(s, w, l))
  {
    match l
    case Claim(r, token, at, heard) => TallyTaken(s, w, r, token, at, heard);
    case BeginSend => TallySent(s, w);
    case Conclude(committed) => TallyConcluded(s, w, committed);
    case Finalize(committed, heard) => TallyFinalized(s, w, committed, heard);
    case _ => TallyMoves(s, w, l);
  }

  lemma TallyConcluded(s: State, w: Worker, committed: bool)
    requires TallyInv(s) && SenderAt(s, w) && s.pcs[w].phase.Concluding?
    ensures TallyInv(ConcludeStep(s, w, committed))
  {
    TallySettled(s, w, s.pcs[w].phase.verdict, s.pcs[w].claim.attempts >= MAX_ATTEMPTS);
    TallyMoved(s, ConcludeStep(s, w, committed), w);
  }

  lemma TallyFinalized(s: State, w: Worker, committed: bool, heard: bool)
    requires TallyInv(s) && SenderAt(s, w) && s.pcs[w].phase.Confirmed?
    ensures TallyInv(FinalizeStep(s, w, committed, heard))
  {
    TallySettled(s, w, Delivered, false);
    TallyMoved(s, FinalizeStep(s, w, committed, heard), w);
  }

  lemma TallyMoves(s: State, w: Worker, l: SendStep)
    requires TallyInv(s) && CanSend(s, w, l) && !l.Claim? && !l.BeginSend? && !l.Conclude? && !l.Finalize?
    ensures TallyInv(NextSend(s, w, l))
  {
    SendPrograms(s, w, l);
    MovesQuietly(s, w, l);
    MovesUnsent(s, w, l);
    TallyMoved(s, NextSend(s, w, l), w);
  }

  lemma MovesQuietly(s: State, w: Worker, l: SendStep)
    requires CanSend(s, w, l) && !l.Claim? && !l.BeginSend? && !l.Conclude? && !l.Finalize?
    ensures var t := NextSend(s, w, l); t.db == s.db && t.h.tally == s.h.tally && t.h.fate == s.h.fate
  {
  }

  /** Nobody gets back to before the send. */
  lemma MovesUnsent(s: State, w: Worker, l: SendStep)
    requires CanSend(s, w, l) && !l.Claim?
    ensures var t := NextSend(s, w, l); w in t.pcs && Unsent(t.pcs[w]) ==> Unsent(s.pcs[w])
  {
  }

  lemma TallyMoved(s: State, t: State, w: Worker)
    requires TallyInv(s)
    requires forall r | r in t.h.tally || Known(s, r) :: Known(t, r)
    requires forall r | r in t.db.rows :: TallyOk(t.db.rows[r], TallyOf(t.h, r))
    requires forall r :: TallyOf(t.h, r).sentOn == TallyOf(s.h, r).sentOn
    requires forall v | v != w :: (v in t.pcs <==> v in s.pcs) && (v in s.pcs ==> t.pcs[v] == s.pcs[v])
    requires SenderAt(t, w) ==>
      SenderAt(s, w) && (Unsent(t.pcs[w]) ==> Unsent(s.pcs[w])) && t.pcs[w].claim == s.pcs[w].claim
    ensures TallyInv(t)
  {
  }

  /** Steps outside the sender programs: rows may close, appear fresh, or go once closed. */
  lemma TallyFrame(s: State, t: State)
    requires TallyInv(s) && t.h.tally == s.h.tally
    requires forall r | Known(s, r) :: Known(t, r)
    requires forall r | r in t.db.rows && r in s.db.rows ::
      t.db.rows[r] == s.db.rows[r] || t.db.rows[r] == CancelRow(s.db.rows[r], t.db.rows[r].closedAt)
    requires forall r | r in t.db.rows && r !in s.db.rows ::
      r !in s.h.fate && t.db.rows[r].status.Pending? && t.db.rows[r].attempts == 0
    requires forall w | SenderAt(t, w) :: SenderAt(s, w) && t.pcs[w] == s.pcs[w]
    ensures TallyInv(t)
  {
    forall r | r in t.db.rows ensures TallyOk(t.db.rows[r], TallyOf(t.h, r)) {
      if r in s.db.rows { assert TallyOk(s.db.rows[r], TallyOf(s.h, r)); }
    }
  }

  lemma TallyHandle(s: State, w: Worker, l: HandleStep)
    requires TallyInv(s) && DrawInv(s) && CanHandle(s, w, l)
    ensures TallyInv(NextHandle(s, w, l))
  {
    HandleShape(s, w, l);
    var t := NextHandle(s, w, l);
    if Effective(s, w, l) {
      CommitDrawn(s, w, l.ctx);
      TallyCommit(s, t, w);
    } else {
      TallyFrame(s, t);
    }
  }

  lemma TallyCommit(s: State, t: State, w: Worker)
    requires TallyInv(s) && DrawInv(s) && HandlerAt(s, w) && s.pcs[w].step.Prepared?
    requires CommitDelta(s.db.rows, t.db.rows, s.pcs[w].update, s.pcs[w].step.ids, s.pcs[w].step.view.began)
    requires t.h.tally == s.h.tally && t.h.fate == FateAfter(s.h.fate, s.db.rows, t.db.rows)
    requires forall v | v != w :: (v in t.pcs <==> v in s.pcs) && (v in s.pcs ==> t.pcs[v] == s.pcs[v])
    requires w in t.pcs ==> t.pcs[w].Handler?
    ensures TallyInv(t)
  {
    assert forall r | r in t.db.rows && r !in s.db.rows :: Drawn(s, w, r);
    TallyFrame(s, t);
  }

  lemma TallyPrice(s: State, l: PriceStep)
    requires TallyInv(s) && RowsInv(s.db) && FateInv(s.db, s.h.fate) && CanPrice(s, l)
    ensures TallyInv(NextPrice(s, l))
  {
    TallyFrame(s, NextPrice(s, l));
  }

  lemma TallyWorld(s: State, l: WorldStep)
    requires TallyInv(s) && RowsInv(s.db) && FateInv(s.db, s.h.fate) && CanWorld(s, l)
    ensures TallyInv(NextWorld(s, l))
  {
    WorldRows(s, l);
    TallyFrame(s, NextWorld(s, l));
  }

  /** The world changes rows only by adding a fresh one or by dropping one that is closed. */
  lemma WorldRows(s: State, l: WorldStep)
    requires RowsInv(s.db) && FateInv(s.db, s.h.fate) && CanWorld(s, l)
    ensures var t := NextWorld(s, l);
      && t.h.tally == s.h.tally && t.h.fate == s.h.fate && (forall r | Known(s, r) :: Known(t, r))
      && (forall r | r in t.db.rows && r in s.db.rows :: t.db.rows[r] == s.db.rows[r])
      && (forall r | r in t.db.rows && r !in s.db.rows ::
            r !in s.h.fate && t.db.rows[r].status.Pending? && t.db.rows[r].attempts == 0)
      && (forall w | SenderAt(t, w) :: SenderAt(s, w) && t.pcs[w] == s.pcs[w])
  {
  }

  /** A set of numbers between 1 and n has at most n members. */
  lemma {:induction false} AtMost(S: set<nat>, n: nat)
    requires forall k | k in S :: 1 <= k <= n
    ensures |S| <= n
  {
    if n == 0 {
      assert S == {};
    } else {
      AtMost(S - {n}, n - 1);
      assert S <= (S - {n}) + {n};
      assert |S| <= |S - {n}| + 1;
    }
  }

  /** Sends never outnumber claims, and claims beyond the limit are paid for by takeovers of
      unfinished claims or by retries granted at shutdown. */
  lemma Conservation(s: State, r: RowId)
    requires TallyInv(s) && r in s.db.rows
    ensures var t := TallyOf(s.h, r); t.sends <= s.db.rows[r].attempts <= MAX_ATTEMPTS + t.reclaims + t.overruns
  {
    var t := TallyOf(s.h, r);
    assert TallyOk(s.db.rows[r], t);
    AtMost(t.sentOn, s.db.rows[r].attempts);
  }
}
