/** The store as the workers use it: rows updated in place by guarded statements, each transaction
    proved equal to its function on the tables. */
module Store {
  import opened Policy
  import opened Tables
  import opened Paging
  import Claims
  import Subscribers

  datatype Outcome = Done | OwnershipLost

  /** How one finalization attempt goes: whether its commit takes effect, and whether the worker hears. */
  datatype Attempt = Attempt(committed: bool, heard: bool)

  datatype Finalization = Recorded | Lost | Unconfirmed

  /** What a claim statement accepts at its turn: a claimable row whose chat lock is free. */
  predicate Takeable(db: Db, r: RowId, free: Chat -> bool) { Claimable(db.rows, r, db.now) && free(db.rows[r].chat) }

  function JobRank(rows: map<RowId, Row>): RowId -> Rank {
    r => if r in rows then Rank(rows[r].scheduledAt, r.n) else Rank(0, 0)
  }

  /** Scheduled earlier, or at the same time with a smaller id. */
  ghost predicate Elder(rows: map<RowId, Row>, q: RowId, r: RowId) {
    && q in rows && r in rows
    && (rows[q].scheduledAt < rows[r].scheduledAt || (rows[q].scheduledAt == rows[r].scheduledAt && q.n < r.n))
  }

  function IdRank(): RowId -> Rank { (r: RowId) => Rank(r.n, 0) }

  function UpdateRank(updates: map<int, Update>): int -> Rank {
    u => if u in updates then Rank(updates[u].epoch, u) else Rank(0, u)
  }

  function ClaimableRows(db: Db, jobs: bool): set<RowId> {
    set r | r in db.rows && r.Job? == jobs && Claimable(db.rows, r, db.now)
  }

  /** `ORDER BY last_sent_at`; the statement leaves the order among equal times open, `tie` stands for it. */
  function DueRank(subs: map<Chat, Sub>, tie: Chat -> int): Chat -> Rank {
    chat => if chat in subs then Rank(subs[chat].lastSent, tie(chat)) else Rank(0, tie(chat))
  }

  function DueChats(db: Db, at: nat): set<Chat> { set chat | chat in db.subs && Due(db, chat, at) }

  /** A cron batch as one-chat transactions after another. */
  function CronBatch(db: Db, chats: seq<Chat>, at: nat): (db': Db)
    requires forall chat | chat in chats :: chat in db.subs
    ensures db'.subs.Keys == db.subs.Keys
  {
    if chats == [] then db else
      var before := CronBatch(db, chats[..|chats| - 1], at);
      CreateScheduled(before, chats[|chats| - 1], before.nextJob, at)
  }

  lemma CronBatchSnoc(db: Db, chats: seq<Chat>, i: nat, at: nat)
    requires i < |chats| && forall chat | chat in chats :: chat in db.subs
    ensures var before := CronBatch(db, chats[..i], at);
      CronBatch(db, chats[..i + 1], at) == CreateScheduled(before, chats[i], before.nextJob, at)
  {
    assert chats[..i + 1][..i] == chats[..i];
  }

  lemma DueKept(db: Db, chat: Chat, other: Chat, id: nat, at: nat)
    requires Due(db, chat, at) && other in db.subs && other != chat
    ensures Due(CreateScheduled(db, other, id, at), chat, at)
  {
  }

  /** Every one-chat transaction of a batch finds its chat still due, so the batch is nothing but a
      sequence of single cron steps. */
  lemma {:induction false} CronBatchDue(db: Db, chats: seq<Chat>, i: nat, chat: Chat, at: nat)
    requires i <= |chats| && (forall c | c in chats :: c in db.subs) && Due(db, chat, at) && chat !in chats[..i]
    ensures Due(CronBatch(db, chats[..i], at), chat, at)
  {
    if i == 0 {
      assert chats[..0] == [];
    } else {
      assert chats[..i] == chats[..i - 1] + [chats[i - 1]];
      CronBatchDue(db, chats, i - 1, chat, at);
      CronBatchSnoc(db, chats, i - 1, at);
      var before := CronBatch(db, chats[..i - 1], at);
      DueKept(before, chat, chats[i - 1], before.nextJob, at);
    }
  }

  /** All a batch does to the subscribers is to claim each of them for fifteen minutes. */
  function CronClaimed(subs: map<Chat, Sub>, chats: seq<Chat>, at: nat): map<Chat, Sub> {
    map chat | chat in subs ::
      if chat in chats then subs[chat].(cronClaimedUntil := Some(at + CRON_CLAIM)) else subs[chat]
  }

  lemma {:induction false} CronBatchSubs(db: Db, chats: seq<Chat>, at: nat)
    requires forall chat | chat in chats :: chat in db.subs
    ensures var db' := CronBatch(db, chats, at);
      && db'.subs == CronClaimed(db.subs, chats, at) && db'.nextJob == db.nextJob + |chats|
      && db' == db.(subs := db'.subs, rows := db'.rows, nextJob := db'.nextJob)
  {
    if chats != [] { CronBatchSubs(db, chats[..|chats| - 1], at); }
  }

  /** A pending job for this chat and minute, due at once. */
  ghost predicate JobStored(rows: map<RowId, Row>, id: nat, chat: Chat, at: nat) {
    Job(id) in rows && rows[Job(id)] == Row(chat, Scheduled, Pending, 0, None, None, at, at, 0)
  }

  ghost predicate JobsStored(rows: map<RowId, Row>, rows': map<RowId, Row>, first: nat, chats: seq<Chat>, at: nat) {
    && (forall i | 0 <= i < |chats| :: JobStored(rows', first + i, chats[i], at))
    && (forall r | r in rows && !(r.Job? && r.n >= first) :: r in rows' && rows'[r] == rows[r])
  }

  /** A batch adds one such job per chat and touches no other row. */
  lemma {:induction false} CronBatchRows(db: Db, chats: seq<Chat>, at: nat)
    requires forall chat | chat in chats :: chat in db.subs
    ensures JobsStored(db.rows, CronBatch(db, chats, at).rows, db.nextJob, chats, at)
  {
    if chats != [] {
      var n := |chats| - 1;
      CronBatchRows(db, chats[..n], at);
      CronBatchSubs(db, chats[..n], at);
      CronBatchSnoc(db, chats, n, at);
      assert chats[..n + 1] == chats;
      OneMore(db.rows, CronBatch(db, chats[..n], at).rows, CronBatch(db, chats, at).rows, db.nextJob, chats, at);
    }
  }

  lemma OneMore(rows: map<RowId, Row>, before: map<RowId, Row>, rows': map<RowId, Row>, first: nat, chats: seq<Chat>,
      at: nat)
    requires chats != [] && JobsStored(rows, before, first, chats[..|chats| - 1], at)
    requires rows' == before[Job(first + |chats| - 1) := NewJob(chats[|chats| - 1], Scheduled, at, at)]
    ensures JobsStored(rows, rows', first, chats, at)
  {
    var n := |chats| - 1;
    forall i | 0 <= i < |chats| ensures JobStored(rows', first + i, chats[i], at) {
      if i < n { assert JobStored(before, first + i, chats[..n][i], at); }
    }
  }

  /** Which chats a cron run picks: ripe ones, none left out unless the limit is reached, and then none that was
      served longer ago than a picked one. */
  ghost predicate Picks(db: Db, at: nat, limit: nat, chats: seq<Chat>) {
    && |chats| <= limit
    && (forall chat | chat in chats :: chat in db.subs && Subscribers.Ripe(db, chat, at))
    && (forall i, j | 0 <= i < j < |chats| ::
          chats[i] != chats[j] && db.subs[chats[i]].lastSent <= db.subs[chats[j]].lastSent)
    && (forall chat | Subscribers.Ripe(db, chat, at) && chat !in chats ::
          |chats| == limit && forall c | c in chats :: db.subs[c].lastSent <= db.subs[chat].lastSent)
  }

  lemma DuePicks(db: Db, at: nat, tie: Chat -> int, limit: nat, chats: seq<Chat>)
    requires FirstOf(DueChats(db, at), DueRank(db.subs, tie), limit, chats)
    ensures Picks(db, at, limit, chats)
  {
    forall chat ensures chat in DueChats(db, at) <==> Subscribers.Ripe(db, chat, at) {
      Subscribers.RipeIsDue(db, chat, at);
    }
    var rank := DueRank(db.subs, tie);
    forall i, j | 0 <= i < j < |chats|
      ensures chats[i] != chats[j] && db.subs[chats[i]].lastSent <= db.subs[chats[j]].lastSent
    {
      assert rank(chats[i]).Before(rank(chats[j])) && chats[i] in chats && chats[j] in chats;
    }
    forall chat, c | Subscribers.Ripe(db, chat, at) && chat !in chats && c in chats
      ensures db.subs[c].lastSent <= db.subs[chat].lastSent
    {
      assert rank(c).Before(rank(chat));
    }
  }

  /** The sequence numbers inserted so far do not hide or show a later one. */
  lemma {:induction false} RepliesBefore(rows: map<RowId, Row>, c: UpdateClaim, ids: seq<nat>, at: nat)
    requires forall id | id in ids :: Answer(id) !in rows
    ensures forall r | r in NewReplies(rows, c, ids, at) ::
      r !in rows && exists i: nat | i < |ids| :: NewReplies(rows, c, ids, at)[r].kind == Reply(c.id, i)
  {
    if ids != [] {
      var n := |ids| - 1;
      RepliesBefore(rows, c, ids[..n], at);
      assert ids[n] in ids;
    }
  }

  lemma OthersExist(rows: map<RowId, Row>, added: map<RowId, Row>, source: int, i: nat)
    requires forall r | r in added :: r !in rows && added[r].kind != Reply(source, i)
    ensures ReplyExists(rows + added, source, i) <==> ReplyExists(rows, source, i)
  {
    if ReplyExists(rows, source, i) {
      var r :| r in rows && rows[r].kind == Reply(source, i);
      assert (rows + added)[r].kind == Reply(source, i);
    }
  }

  /** One more reply: new under its drawn id, or skipped because its sequence number is stored. */
  lemma RepliesGrow(rows: map<RowId, Row>, c: UpdateClaim, ids: seq<nat>, i: nat, at: nat)
    requires i < |ids| && forall id | id in ids :: Answer(id) !in rows
    ensures var now := rows + NewReplies(rows, c, ids[..i], at);
      rows + NewReplies(rows, c, ids[..i + 1], at) ==
        if ReplyExists(now, c.id, i) then now else now[Answer(ids[i]) := ReplyRow(c, i, at)]
  {
    assert ids[..i + 1][..i] == ids[..i];
    RepliesBefore(rows, c, ids[..i], at);
    OthersExist(rows, NewReplies(rows, c, ids[..i], at), c.id, i);
  }

  /** Crossings waiting to trigger their alert. */
  function Waiting(db: Db): set<nat> { set a | a in db.crossings && a in db.alerts && db.alerts[a].status.Active? }

  function Beyond(db: Db, after: nat): set<nat> { set a | a in Waiting(db) && a > after }

  function IdOrder(): nat -> Rank { (a: nat) => Rank(a, 0) }

  /** strings.ToUpper as far as the result can be a letter of the Latin alphabet: the dotless i and the
      long s are the only other letters that become one. */
  function Upper(ch: char): char {
    if 'a' <= ch <= 'z' then 'A' + (ch - 'a')
    else if ch == '\U{0131}' then 'I' else if ch == '\U{017F}' then 'S' else ch
  }

  function Uppercase(text: string): string { seq(|text|, i requires 0 <= i < |text| => Upper(text[i])) }

  predicate EndsInUsdt(text: string) { |text| >= 4 && text[|text| - 4..] == "USDT" }

  /** alertSymbol: any spelling of a tracked coin, with or without its quote currency. */
  function AlertSymbol(raw: string): (symbol: Option<string>)
    ensures symbol.Some? ==> Tracked(symbol.value)
  {
    var text := Uppercase(raw);
    var full := if EndsInUsdt(text) then text else text + "USDT";
    if Tracked(full) then Some(full) else None
  }

  /** A tracked symbol stands for itself. */
  lemma TrackedIsSymbol(symbol: string)
    requires Tracked(symbol)
    ensures AlertSymbol(symbol) == Some(symbol)
  {
    TrackedIsUpper(symbol);
    var text := Uppercase(symbol);
    assert forall i | 0 <= i < |symbol| :: text[i] == symbol[i];
    assert text == symbol;
  }

  lemma TrackedIsUpper(symbol: string)
    requires Tracked(symbol)
    ensures EndsInUsdt(symbol) && forall i | 0 <= i < |symbol| :: Upper(symbol[i]) == symbol[i]
  {
    assert symbol == "BTCUSDT" || symbol == "ETHUSDT" || symbol == "SOLUSDT" || symbol == "BNBUSDT";
  }

  /** The letter itself, in lower case, or one of the two odd letters that become it. */
  predicate Spelled(ch: char, letter: char) {
    || ch == letter || ('A' <= letter <= 'Z' && ch == 'a' + (letter - 'A'))
    || (letter == 'I' && ch == '\U{0131}') || (letter == 'S' && ch == '\U{017F}')
  }

  predicate Spells(text: string, word: string) {
    |text| == |word| && forall i | 0 <= i < |text| :: Spelled(text[i], word[i])
  }

  lemma UppercaseSpells(text: string, word: string)
    requires forall i | 0 <= i < |word| :: 'A' <= word[i] <= 'Z'
    ensures Uppercase(text) == word <==> Spells(text, word)
  {
    forall i | 0 <= i < |text| && i < |word| ensures Upper(text[i]) == word[i] <==> Spelled(text[i], word[i]) {}
    if Uppercase(text) == word {
      forall i | 0 <= i < |text| ensures Spelled(text[i], word[i]) { assert Uppercase(text)[i] == word[i]; }
    }
  }

  lemma TrackedLetters(symbol: string)
    requires Tracked(symbol)
    ensures |symbol| == 7 && EndsInUsdt(symbol) && forall i | 0 <= i < 7 :: 'A' <= symbol[i] <= 'Z'
  {
    assert symbol == "BTCUSDT" || symbol == "ETHUSDT" || symbol == "SOLUSDT" || symbol == "BNBUSDT";
  }

  /** A text stands for a tracked symbol exactly if it spells the symbol or its coin, in any mix of cases. */
  lemma SymbolSpelled(raw: string, symbol: string)
    requires Tracked(symbol)
    ensures AlertSymbol(raw) == Some(symbol) <==> Spells(raw, symbol) || Spells(raw, symbol[..|symbol| - 4])
  {
    TrackedLetters(symbol);
    UppercaseSpells(raw, symbol);
    UppercaseSpells(raw, symbol[..3]);
    assert symbol == symbol[..3] + symbol[3..];
    var text := Uppercase(raw);
    if text + "USDT" == symbol { assert text == symbol[..3]; }
  }

  lemma CoinNames()
    ensures AlertSymbol("btc") == AlertSymbol("btcusdt") == Some("BTCUSDT")
  {
    SymbolSpelled("btc", "BTCUSDT");
    SymbolSpelled("btcusdt", "BTCUSDT");
    assert "BTCUSDT"[..3] == "BTC";
  }

  function ActiveHits(alerts: map<nat, Alert>, symbol: string, price: real, startedAt: nat): set<nat> {
    set a | a in alerts && alerts[a].status.Active? && Eligible(alerts[a], symbol, price, startedAt)
  }

  /** The active alerts an observation reaches; the statement compares the symbol as it was given. */
  function Reached(db: Db, symbol: string, price: real, startedAt: nat, storedAt: nat): set<nat> {
    if AlertSymbol(symbol).Some? && price > 0.0 && startedAt <= storedAt <= db.now <= startedAt + PRICE_FRESHNESS
    then ActiveHits(db.alerts, symbol, price, startedAt) else {}
  }

  /** Some attempt before the n-th took effect. */
  ghost predicate Landed(answer: nat -> Attempt, n: nat) { exists k: nat | k < n :: answer(k).committed }

  class Store {
    var now: nat
    var subs: map<Chat, Sub>
    var rows: map<RowId, Row>
    var alerts: map<nat, Alert>
    var crossings: map<nat, Crossing>
    var updates: map<int, Update>
    var versions: map<(Chat, Setting), Version>
    var epoch: nat
    var lastReceived: nat
    var nextJob: nat
    var nextAnswer: nat
    var nextAlert: nat

    function Snapshot(): Db
      reads this
    {
      Db(now, subs, rows, alerts, crossings, updates, versions, epoch, lastReceived, nextJob, nextAnswer, nextAlert)
    }

    constructor (db: Db)
      ensures Snapshot() == db
    {
      now, subs, rows, alerts, crossings := db.now, db.subs, db.rows, db.alerts, db.crossings;
      updates, versions, epoch, lastReceived := db.updates, db.versions, db.epoch, db.lastReceived;
      nextJob, nextAnswer, nextAlert := db.nextJob, db.nextAnswer, db.nextAlert;
    }

    /* ---- Outcomes ---- */

    method MarkSent(c: Claim) returns (o: Outcome)
      modifies this`rows, this`subs
      ensures Snapshot() == Settle(old(Snapshot()), c, Delivered)
      ensures o.Done? <==>
        && c.row in old(rows) && old(rows)[c.row].status == Sending && old(rows)[c.row].token == Some(c.token)
        && old(rows)[c.row].attempts == c.attempts
    {
      if !Owns(rows, c) { return OwnershipLost; }
      rows := rows[c.row := rows[c.row].(status := Sent, token := None, claimedUntil := None, closedAt := now)];
      if c.kind.Scheduled? && c.chat in subs {
        subs := subs[c.chat := subs[c.chat].(lastSent := 60 * Minute(c.scheduledAt), cronClaimedUntil := None,
            suspendedUntil := None)];
      }
      o := Done;
    }

    method MarkRetry(c: Claim, delay: nat) returns (o: Outcome)
      modifies this`rows, this`subs
      ensures Snapshot() == Settle(old(Snapshot()), c, Retry(delay))
      ensures Owns(old(rows), c) ==>
        rows == old(rows)[c.row := old(rows)[c.row].(status := Pending, token := None, claimedUntil := None,
                                                     nextAttempt := now + delay)]
      ensures o.Done? <==>
        && c.row in old(rows) && old(rows)[c.row].status == Sending && old(rows)[c.row].token == Some(c.token)
        && old(rows)[c.row].attempts == c.attempts
    {
      if !Owns(rows, c) { return OwnershipLost; }
      rows := rows[c.row := rows[c.row].(status := Pending, token := None, claimedUntil := None,
          nextAttempt := now + delay)];
      if c.kind.Scheduled? && c.chat in subs { subs := subs[c.chat := subs[c.chat].(cronClaimedUntil := None)]; }
      o := Done;
    }

    method MarkCanceled(c: Claim) returns (o: Outcome)
      modifies this`rows, this`subs
      ensures Snapshot() == Settle(old(Snapshot()), c, Cancel)
      ensures o.Done? <==>
        && c.row in old(rows) && old(rows)[c.row].status == Sending && old(rows)[c.row].token == Some(c.token)
        && old(rows)[c.row].attempts == c.attempts
    {
      if !Owns(rows, c) { return OwnershipLost; }
      rows := rows[c.row := rows[c.row].(status := Status.Canceled, token := None, claimedUntil := None,
          closedAt := now)];
      if c.kind.Scheduled? && c.chat in subs { subs := subs[c.chat := subs[c.chat].(cronClaimedUntil := None)]; }
      o := Done;
    }

    method MarkFailed(c: Claim, permanent: bool) returns (o: Outcome)
      modifies this`rows, this`subs
      ensures Snapshot() == Settle(old(Snapshot()), c, Fail(permanent))
      ensures o.Done? <==>
        && c.row in old(rows) && old(rows)[c.row].status == Sending && old(rows)[c.row].token == Some(c.token)
        && old(rows)[c.row].attempts == c.attempts
    {
      if !Owns(rows, c) { return OwnershipLost; }
      rows := rows[c.row := rows[c.row].(status := Failed, token := None, claimedUntil := None, closedAt := now)];
      if c.kind.Scheduled? && c.chat in subs {
        if permanent {
          subs := subs[c.chat := subs[c.chat].(subscribed := false, cronClaimedUntil := None, suspendedUntil := None)];
        } else {
          subs := subs[c.chat := subs[c.chat].(cronClaimedUntil := None,
              suspendedUntil := Some(now + FAILURE_COOLDOWN))];
        }
      }
      o := Done;
    }

    method Defer(c: Claim, delay: nat) returns (o: Outcome)
      modifies this`rows, this`subs
      ensures Snapshot() == Settle(old(Snapshot()), c, Deferral(c, delay))
      ensures o.Done? <==>
        && c.row in old(rows) && old(rows)[c.row].status == Sending && old(rows)[c.row].token == Some(c.token)
        && old(rows)[c.row].attempts == c.attempts
    {
      if c.attempts >= MAX_ATTEMPTS { o := MarkFailed(c, false); } else { o := MarkRetry(c, delay); }
    }

    /** The finalization loop after Telegram accepted a message: `alive(k)` says whether the budget
        lasts when attempt k starts and `waits(k)` whether the pause behind it fits. The row is settled
        at most once, by the first attempt whose commit took effect, heard of or not; a lost ownership
        reported to a worker that owned the row is the echo of such an unheard commit. */
    method Finalize(c: Claim, tries: nat, answer: nat -> Attempt, alive: nat -> bool, waits: nat -> bool)
        returns (attempts: nat, result: Finalization)
      requires tries >= 1
      modifies this`rows, this`subs
      ensures attempts <= tries
      ensures Snapshot() == if Owns(old(rows), c) && Landed(answer, attempts) then Settle(old(Snapshot()), c, Delivered)
        else old(Snapshot())
      ensures result.Recorded? ==>
        && Owns(old(rows), c) && attempts > 0 && answer(attempts - 1) == Attempt(true, true)
        && !Landed(answer, attempts - 1)
      ensures result.Lost? ==> attempts > 0 && answer(attempts - 1).heard
                               && (Owns(old(rows), c) ==>
                                     exists k: nat | k < attempts - 1 :: answer(k) == Attempt(true, false))
      ensures result.Unconfirmed? ==> attempts == tries || !alive(attempts) || (attempts > 0 && !waits(attempts - 1))
      ensures result.Unconfirmed? && Owns(old(rows), c) ==>
        forall k: nat | k < attempts :: answer(k) != Attempt(true, true)
    {
      attempts, result := 0, Unconfirmed;
      ghost var before := Snapshot();
      ghost var took := false;
      while attempts < tries
        invariant attempts <= tries && result.Unconfirmed?
        invariant took <==> Owns(old(rows), c) && Landed(answer, attempts)
        invariant Snapshot() == if took then Settle(before, c, Delivered) else before
        invariant Owns(rows, c) <==> Owns(old(rows), c) && !took
        invariant forall k: nat | k < attempts && answer(k).committed && Owns(old(rows), c) :: !answer(k).heard
        invariant Owns(old(rows), c) || forall k: nat | k < attempts :: !answer(k).heard
      {
        if !alive(attempts) { return; }
        var a := answer(attempts);
        var owned := Owns(rows, c);
        attempts := attempts + 1;
        if a.committed {
          var _ := MarkSent(c);
          took := took || owned;
        }
        assert a == answer(attempts - 1);
        if a.heard && a.committed && owned {
          result := Recorded;
          return;
        }
        if a.heard && !owned {
          result := Lost;
          return;
        }
        if attempts < tries && !waits(attempts - 1) { return; }
      }
    }

    /* ---- Claims ---- */

    /** The candidate loop: the first candidate that is still claimable and whose chat lock is free.
        The list may be stale; each statement repeats the whole guard. */
    method ClaimFrom(candidates: seq<RowId>, free: Chat -> bool, token: Token)
        returns (claim: Option<Claim>, ghost k: nat)
      modifies this`rows
      ensures k <= |candidates| && forall j | 0 <= j < k :: !Takeable(old(Snapshot()), candidates[j], free)
      ensures claim.None? ==> k == |candidates| && Snapshot() == old(Snapshot())
      ensures claim.Some? ==>
        && k < |candidates| && Takeable(old(Snapshot()), candidates[k], free)
        && claim.value == ClaimOf(candidates[k], old(rows)[candidates[k]], token, now)
        && Snapshot() == TakeClaim(old(Snapshot()), candidates[k], token, now)
    {
      k := 0;
      for i := 0 to |candidates|
        invariant k == i && Snapshot() == old(Snapshot())
        invariant forall j | 0 <= j < i :: !Takeable(old(Snapshot()), candidates[j], free)
      {
        var r := candidates[i];
        if r in rows && free(rows[r].chat) && Claimable(rows, r, now) {
          claim := Some(ClaimOf(r, rows[r], token, now));
          rows := rows[r := rows[r].(status := Sending, attempts := rows[r].attempts + 1, token := Some(token),
              claimedUntil := Some(now + LEASE))];
          return;
        }
        k := k + 1;
      }
      claim := None;
    }

    /** claimPendingNotificationJob: among the ten oldest claimable jobs, the first in a free chat. */
    method ClaimJob(free: Chat -> bool, token: Token)
        returns (claim: Option<Claim>, ghost page: seq<RowId>, ghost k: nat)
      modifies this`rows
      ensures FirstOf(ClaimableRows(old(Snapshot()), true), JobRank(old(rows)), CANDIDATE_LIMIT, page)
      ensures |page| <= 10 && forall r | r in page :: r.Job? && Claimable(old(rows), r, now)
      ensures forall i, j | 0 <= i < j < |page| :: Elder(old(rows), page[i], page[j])
      ensures forall r | r in old(rows) && r.Job? && Claimable(old(rows), r, now) && r !in page ::
        |page| == 10 && forall q | q in page :: Elder(old(rows), q, r)
      ensures k <= |page| && forall j | 0 <= j < k :: !Takeable(old(Snapshot()), page[j], free)
      ensures claim.None? ==> k == |page| && Snapshot() == old(Snapshot())
      ensures claim.Some? ==>
        && k < |page| && Takeable(old(Snapshot()), page[k], free)
        && claim.value == ClaimOf(page[k], old(rows)[page[k]], token, now)
        && Snapshot() == TakeClaim(old(Snapshot()), page[k], token, now)
    {
      var candidates := Select(ClaimableRows(Snapshot(), true), JobRank(rows), CANDIDATE_LIMIT);
      claim, k := ClaimFrom(candidates, free, token);
      page := candidates;
    }

    /** claimPendingTelegramReply: the same over replies in id order; the guard keeps each chat's queue. */
    method ClaimReply(free: Chat -> bool, token: Token)
        returns (claim: Option<Claim>, ghost page: seq<RowId>, ghost k: nat)
      modifies this`rows
      ensures FirstOf(ClaimableRows(old(Snapshot()), false), IdRank(), CANDIDATE_LIMIT, page)
      ensures |page| <= 10 && forall r | r in page :: r.Answer? && Claimable(old(rows), r, now)
      ensures forall i, j | 0 <= i < j < |page| :: page[i].n < page[j].n
      ensures forall r | r in old(rows) && r.Answer? && Claimable(old(rows), r, now) && r !in page ::
        |page| == 10 && forall q | q in page :: q.n < r.n
      ensures k <= |page| && forall j | 0 <= j < k :: !Takeable(old(Snapshot()), page[j], free)
      ensures claim.None? ==> k == |page| && Snapshot() == old(Snapshot())
      ensures claim.Some? ==>
        && k < |page| && Takeable(old(Snapshot()), page[k], free)
        && claim.value == ClaimOf(page[k], old(rows)[page[k]], token, now)
        && Snapshot() == TakeClaim(old(Snapshot()), page[k], token, now)
    {
      var candidates := Select(ClaimableRows(Snapshot(), false), IdRank(), CANDIDATE_LIMIT);
      claim, k := ClaimFrom(candidates, free, token);
      page := candidates;
    }

    /* ---- Cron ---- */

    method InsertJobs(due: seq<Chat>, at: nat, ghost before: Db)
      requires rows == before.rows && nextJob == before.nextJob && forall chat | chat in due :: chat in before.subs
      modifies this`rows, this`nextJob
      ensures rows == CronBatch(before, due, at).rows && nextJob == CronBatch(before, due, at).nextJob
    {
      assert due[..0] == [];
      for i := 0 to |due|
        invariant rows == CronBatch(before, due[..i], at).rows && nextJob == CronBatch(before, due[..i], at).nextJob
      {
        CronBatchSnoc(before, due, i, at);
        rows := rows[Job(nextJob) := Row(due[i], Scheduled, Pending, 0, None, None, at, at, 0)];
        nextJob := nextJob + 1;
      }
      assert due[..|due|] == due;
    }

    /** createCronNotificationJobs, in a transaction whose NOW() is `at`: claims the due subscribers in one
        statement, then inserts their jobs one by one; the batch equals one-chat transactions in the same
        order, whatever the order among equal times. */
    method CreateJobs(limit: nat, at: nat, tie: Chat -> int) returns (created: nat, ghost chats: seq<Chat>)
      requires forall x, y | tie(x) == tie(y) :: x == y
      modifies this`subs, this`rows, this`nextJob
      ensures FirstOf(DueChats(old(Snapshot()), at), DueRank(old(subs), tie), limit, chats) && created == |chats|
      ensures Snapshot() == CronBatch(old(Snapshot()), chats, at)
      ensures Picks(old(Snapshot()), at, limit, chats)
      ensures subs == CronClaimed(old(subs), chats, at) && nextJob == old(nextJob) + created
      ensures JobsStored(old(rows), rows, old(nextJob), chats, at)
    {
      var due := Select(DueChats(Snapshot(), at), DueRank(subs, tie), limit);
      ghost var before := Snapshot();
      subs := CronClaimed(subs, due, at);
      InsertJobs(due, at, before);
      CronBatchSubs(before, due, at);
      CronBatchRows(before, due, at);
      DuePicks(before, at, tie, limit, due);
      created, chats := |due|, due;
    }

    /* ---- Inbox ---- */

    /** saveTelegramUpdate: a known id changes nothing, not even the stream's epoch. */
    method Save(id: int, chat: Chat, command: Command) returns (inserted: bool)
      modifies this`updates, this`epoch, this`lastReceived
      ensures Snapshot() == SaveUpdate(old(Snapshot()), id, chat, command)
      ensures inserted <==> id !in old(updates)
      ensures !inserted ==> Snapshot() == old(Snapshot())
      ensures inserted ==>
        && epoch == old(epoch) + (if now > old(lastReceived) + 604800 then 1 else 0) && lastReceived == now
        && updates == old(updates)[id := Update(chat, epoch, command, Waiting, 0, None, now, 0)]
    {
      var next := epoch;
      if lastReceived + EPOCH_GAP < now { next := next + 1; }
      inserted := id !in updates;
      if inserted {
        updates := updates[id := Update(chat, next, command, Waiting, 0, None, now, 0)];
        epoch, lastReceived := next, now;
      }
    }

    /** claimPendingTelegramUpdateForWorker: the oldest claimable update among the worker's chats. */
    method ClaimUpdate(mine: Chat -> bool) returns (claim: Option<UpdateClaim>)
      modifies this`updates
      ensures claim.None? ==> Snapshot() == old(Snapshot())
      ensures claim.None? ==>
        forall u | u in old(updates) && mine(old(updates)[u].chat) :: !UpdateClaimable(old(updates), u, now)
      ensures claim.Some? ==> var u := claim.value.id;
        && u in old(updates) && mine(old(updates)[u].chat) && UpdateClaimable(old(updates), u, now)
        && claim.value == UpdateClaimOf(u, old(updates)[u]) && Snapshot() == TakeUpdate(old(Snapshot()), u, now)
        && (old(updates)[u].status == Waiting
            || (old(updates)[u].status == Processing
                && (old(updates)[u].claimedUntil == None || old(updates)[u].claimedUntil.value < now)))
        && old(updates)[u].nextAttempt <= now && updates[u].claimedUntil == Some(now + 45)
        && claim.value.attempts == updates[u].attempts == old(updates)[u].attempts + 1
        && forall e | e in old(updates) && mine(old(updates)[e].chat) && e != u
                      && UpdateClaimable(old(updates), e, now) ::
             Version(old(updates)[u].epoch, u).Before(Version(old(updates)[e].epoch, e))
    {
      var table := updates;
      var open := set u | u in table && mine(table[u].chat) && UpdateClaimable(table, u, now);
      assert forall u | u in table && mine(table[u].chat) && UpdateClaimable(table, u, now) :: u in open;
      if open == {} { return None; }
      var u := Least(open, UpdateRank(table));
      claim := Some(UpdateClaimOf(u, table[u]));
      updates := updates[u := updates[u].(status := Processing, attempts := updates[u].attempts + 1,
          claimedUntil := Some(now + LEASE))];
    }

    /** What the handlers of an open transaction read before they write. */
    method Read(c: UpdateClaim, began: nat) returns (view: View)
      ensures view == ViewOf(Snapshot(), c, began)
      ensures view.began == began && view.readAt == now
      ensures view.lang ==
        if c.chat in subs && subs[c.chat].lang in ["ua", "en", "ru"] then subs[c.chat].lang else "ua"
      ensures forall a :: a in view.open <==>
        && a in alerts && alerts[a].chat == c.chat
        && (alerts[a].status == Active
            || exists r | r in rows ::
                 rows[r].kind == PriceAlert(a) && (rows[r].status == Pending || rows[r].status == Sending))
      ensures view.superseded <==>
        && (c.chat, Subscription) in versions
        && var v := versions[(c.chat, Subscription)]; c.epoch < v.epoch || (c.epoch == v.epoch && c.id < v.id)
    {
      var lang := "ua";
      if c.chat in subs && AllowedLanguage(subs[c.chat].lang) { lang := subs[c.chat].lang; }
      var newer := (c.chat, Subscription) in versions && c.Ver().Before(versions[(c.chat, Subscription)]);
      view := View(began, now, lang, OpenAlerts(Snapshot(), c.chat), newer);
    }

    /** allowTelegramMutation: tests and advances the version register of the command's setting. */
    method Allow(c: UpdateClaim, view: View) returns (allowed: bool)
      modifies this`versions
      ensures allowed == Admits(old(versions), c, view)
      ensures Snapshot() == old(Snapshot()).(versions := Record(old(versions), c, view))
    {
      var setting := SettingOf(c.command);
      if setting.None? { return true; }
      if setting.value.Interval? && view.superseded { return false; }
      var key := (c.chat, setting.value);
      if key in versions && !versions[key].Before(c.Ver()) { return false; }
      versions := versions[key := c.Ver()];
      allowed := true;
    }

    /** /unsubscribe: the subscriber and its open scheduled jobs, in two statements. */
    method Unsubscribe(chat: Chat, view: View)
      modifies this`subs, this`rows
      ensures Snapshot() == old(Snapshot()).(subs := SubsAfter(old(subs), chat, Command.Unsubscribe, view),
                                             rows := RowsAfter(old(rows), view.began, chat, Command.Unsubscribe))
      ensures chat in old(subs) ==> var sub := old(subs)[chat];
        subs == old(subs)[chat := Sub(false, sub.interval, sub.lang, sub.lastSent, None, None)]
      ensures chat !in old(subs) ==> subs == old(subs)
      ensures rows.Keys == old(rows).Keys && forall r | r in old(rows) ::
        var row := old(rows)[r];
        if row.chat == chat && row.kind == Scheduled && (row.status == Pending || row.status == Sending)
        then rows[r] == row.(status := Status.Canceled, token := None, claimedUntil := None, closedAt := view.began)
        else rows[r] == row
    {
      if chat in subs {
        subs := subs[chat := subs[chat].(subscribed := false, cronClaimedUntil := None, suspendedUntil := None)];
      }
      rows := map r | r in rows ::
        if rows[r].chat == chat && rows[r].kind.Scheduled? && rows[r].status.Open()
        then CancelRow(rows[r], view.began) else rows[r];
    }

    /** Inserts one reply per drawn id; a sequence number that is already stored is skipped. */
    method InsertReplies(c: UpdateClaim, ids: seq<nat>, at: nat)
      requires forall id | id in ids :: Answer(id) !in rows
      modifies this`rows
      ensures rows == old(rows) + NewReplies(old(rows), c, ids, at)
      ensures Snapshot() == old(Snapshot()).(rows := rows)
    {
      ghost var before := rows;
      for i := 0 to |ids|
        invariant rows == before + NewReplies(before, c, ids[..i], at)
      {
        RepliesGrow(before, c, ids, i, at);
        if !ReplyExists(rows, c.id, i) { rows := rows[Answer(ids[i]) := ReplyRow(c, i, at)]; }
      }
      assert ids[..|ids|] == ids;
    }

    /** setlang_ callback: an upsert of the language alone. */
    method SetLang(chat: Chat, code: string, view: View)
      modifies this`subs
      ensures Snapshot() == old(Snapshot()).(subs := SubsAfter(old(subs), chat, SetLanguage(code), view))
      ensures code in ["ua", "en", "ru"] && chat in old(subs) ==> var sub := old(subs)[chat];
        subs == old(subs)[chat := Sub(sub.subscribed, sub.interval, code, sub.lastSent, sub.cronClaimedUntil,
                                      sub.suspendedUntil)]
      ensures code in ["ua", "en", "ru"] && chat !in old(subs) ==>
        subs == old(subs)[chat := Sub(false, 60, code, view.began - 120, None, None)]
      ensures code !in ["ua", "en", "ru"] ==> subs == old(subs)
    {
      if AllowedLanguage(code) {
        subs := subs[chat := if chat in subs then subs[chat].(lang := code)
                             else Sub(false, 60, code, view.began - 120, None, None)];
      }
    }

    /** int_ callback: only a subscribed chat has an interval to change. */
    method SetMinutes(chat: Chat, minutes: int, view: View)
      modifies this`subs
      ensures Snapshot() == old(Snapshot()).(subs := SubsAfter(old(subs), chat, SetInterval(minutes), view))
      ensures 1 <= minutes <= 1440 && chat in old(subs) && old(subs)[chat].subscribed ==> var sub := old(subs)[chat];
        subs == old(subs)[chat := Sub(true, minutes, sub.lang, view.began, sub.cronClaimedUntil, sub.suspendedUntil)]
      ensures !(1 <= minutes <= 1440 && chat in old(subs) && old(subs)[chat].subscribed) ==> subs == old(subs)
    {
      if minutes < 1 || minutes > 1440 { return; }
      if chat in subs && subs[chat].subscribed {
        subs := subs[chat := subs[chat].(interval := minutes, lastSent := view.began)];
      }
    }

    /** /subscribe: writes back the language it read and leaves interval and last_sent of a known chat. */
    method SubscribeChat(chat: Chat, view: View)
      modifies this`subs
      ensures Snapshot() == old(Snapshot()).(subs := SubsAfter(old(subs), chat, Subscribe, view))
      ensures chat in old(subs) ==> var sub := old(subs)[chat];
        subs == old(subs)[chat := Sub(true, sub.interval, view.lang, sub.lastSent, sub.cronClaimedUntil, None)]
      ensures chat !in old(subs) ==>
        subs == old(subs)[chat := Sub(true, 60, view.lang, view.began - 120, None, None)]
    {
      if chat in subs {
        subs := subs[chat := subs[chat].(lang := view.lang, subscribed := true, suspendedUntil := None)];
      } else {
        subs := subs[chat := Sub(true, 60, view.lang, view.began - 120, None, None)];
      }
    }

    method AddAlert(c: UpdateClaim, symbol: string, pct: int, view: View, ctx: Context)
      modifies this`alerts, this`nextAlert
      ensures Snapshot() == CreateAlert(old(Snapshot()), c, symbol, pct, view, ctx)
      ensures var accepted :=
          && ctx.quote.Some? && ctx.quote.value.price > 0.0
          && ctx.quote.value.at <= view.readAt && view.readAt <= ctx.quote.value.at + 60
          && (-9999 <= pct <= -1 || 1 <= pct <= 100000) && symbol in ["BTCUSDT", "ETHUSDT", "SOLUSDT", "BNBUSDT"]
          && |view.open| <= 9
          && !(exists a | a in old(alerts) :: old(alerts)[a].source == c.id)
          && !(exists a | a in old(alerts) :: old(alerts)[a].status == Active && old(alerts)[a].chat == c.chat
                 && old(alerts)[a].symbol == symbol && old(alerts)[a].pct == pct);
        if accepted
        then alerts == old(alerts)[ctx.alertId := Alert(c.chat, c.id, symbol, pct, ctx.quote.value.price,
                         ctx.quote.value.at, ctx.quote.value.price * (10000 + pct) as real / 10000.0, Active, None,
                         ctx.createdAt, view.began)]
        else alerts == old(alerts)
    {
      if ctx.quote.None? || ctx.quote.value.price <= 0.0 || !ValidPct(pct) || !Tracked(symbol) { return; }
      var base, at := ctx.quote.value.price, ctx.quote.value.at;
      if at > view.readAt || view.readAt > at + PRICE_FRESHNESS || |view.open| >= MAX_OPEN_ALERTS { return; }
      if exists a | a in alerts :: alerts[a].source == c.id || (alerts[a].status.Active?
           && alerts[a].chat == c.chat && alerts[a].symbol == symbol && alerts[a].pct == pct) { return; }
      alerts := alerts[ctx.alertId := Alert(c.chat, c.id, symbol, pct, base, at, Target(base, pct), Active, None,
                                            ctx.createdAt, view.began)];
      nextAlert := ctx.alertId + 1;
    }

    method RemoveAlert(chat: Chat, a: nat, view: View)
      modifies this`alerts, this`rows
      ensures Snapshot() == WithdrawAlert(old(Snapshot()), chat, a, view)
      ensures var mine := a in view.open && a in old(alerts) && old(alerts)[a].chat == chat;
        && alerts == (if mine then old(alerts)[a := old(alerts)[a].(status := Withdrawn, updatedAt := view.began)]
                      else old(alerts))
        && rows.Keys == old(rows).Keys && forall r | r in old(rows) ::
             var row := old(rows)[r];
             if mine && row.chat == chat && row.kind == PriceAlert(a)
                && (row.status == Pending || row.status == Sending)
             then rows[r] == row.(status := Status.Canceled, token := None, claimedUntil := None,
                                  closedAt := view.began)
             else rows[r] == row
    {
      if !(a in view.open && a in alerts && alerts[a].chat == chat) { return; }
      alerts := alerts[a := alerts[a].(status := Withdrawn, updatedAt := view.began)];
      rows := map r | r in rows ::
        if rows[r].chat == chat && rows[r].kind == PriceAlert(a) && rows[r].status.Open()
        then CancelRow(rows[r], view.began) else rows[r];
    }

    method Apply(c: UpdateClaim, view: View, ctx: Context)
      modifies this`subs, this`rows, this`alerts, this`nextAlert
      ensures Snapshot() == Mutate(old(Snapshot()), c, view, ctx)
    {
      match c.command
      case SetLanguage(code) => SetLang(c.chat, code, view);
      case SetInterval(minutes) => SetMinutes(c.chat, minutes, view);
      case Subscribe => SubscribeChat(c.chat, view);
      case Unsubscribe => Unsubscribe(c.chat, view);
      case AddAlert(symbol, pct) => AddAlert(c, symbol, pct, view, ctx);
      case CancelAlert(id) => RemoveAlert(c.chat, id, view);
      case Other =>
    }

    method Close(c: UpdateClaim, status: UpdateStatus, at: nat) returns (o: Outcome)
      modifies this`updates
      ensures Snapshot() == CloseUpdate(old(Snapshot()), c, status, at)
      ensures o.Done? <==>
        c.id in old(updates) && old(updates)[c.id].status == Processing && old(updates)[c.id].attempts == c.attempts
    {
      if !OwnsUpdate(updates, c) { return OwnershipLost; }
      updates := updates[c.id := updates[c.id].(status := status, claimedUntil := None, closedAt := at)];
      o := Done;
    }

    /** markTelegramUpdateProcessingError: rejected for good at the third attempt, otherwise retried. */
    method DeferProcessing(c: UpdateClaim) returns (o: Outcome)
      modifies this`updates
      ensures Snapshot() == DeferUpdate(old(Snapshot()), c)
      ensures OwnsUpdate(old(updates), c) ==>
        updates == old(updates)[c.id := if c.attempts >= 3
          then old(updates)[c.id].(status := Rejected, claimedUntil := None, closedAt := now)
          else old(updates)[c.id].(status := Waiting, claimedUntil := None,
                                   nextAttempt := now + if c.attempts == 2 then 120 else 60)]
      ensures o.Done? <==>
        c.id in old(updates) && old(updates)[c.id].status == Processing && old(updates)[c.id].attempts == c.attempts
    {
      if c.attempts >= MAX_ATTEMPTS {
        o := Close(c, Rejected, now);
      } else if !OwnsUpdate(updates, c) {
        o := OwnershipLost;
      } else {
        updates := updates[c.id := updates[c.id].(status := Waiting, claimedUntil := None,
            nextAttempt := now + RetryDelay(c.attempts))];
        o := Done;
      }
    }

    /** ROLLBACK of a transaction that wrote the outbox, the settings or the inbox. */
    method Rollback(db: Db)
      requires Snapshot() == db.(subs := subs, rows := rows, alerts := alerts, updates := updates, versions := versions,
                                 nextAlert := nextAlert)
      modifies this`subs, this`rows, this`alerts, this`updates, this`versions, this`nextAlert
      ensures Snapshot() == db
    {
      subs, rows, alerts, nextAlert := db.subs, db.rows, db.alerts, db.nextAlert;
      updates, versions := db.updates, db.versions;
    }

    /** The writing half of processTelegramUpdateJob's transaction, from what `Read` gave it: version check,
        handler, replies, then the processed mark; whoever lost the claim leaves nothing behind. */
    method Process(c: UpdateClaim, ids: seq<nat>, view: View, ctx: Context) returns (o: Outcome)
      requires forall id | id in ids :: Answer(id) !in rows
      modifies this
      ensures Snapshot() == CommitUpdate(old(Snapshot()), c, ids, view, ctx)
      ensures o.Done? <==>
        c.id in old(updates) && old(updates)[c.id].status == Processing && old(updates)[c.id].attempts == c.attempts
    {
      var before := Snapshot();
      var allowed := Allow(c, view);
      if allowed {
        ghost var recorded := Snapshot();
        Apply(c, view, ctx);
        Claims.MutateRows(recorded, c, view, ctx);
        InsertReplies(c, ids, view.began);
      }
      o := Close(c, Processed, view.began);
      if o.OwnershipLost? { Rollback(before); }
    }

    /* ---- Price alerts ---- */

    /** capturePriceAlertCrossings, in the transaction that stores the price: the first crossing of every
        active alert the quote reaches, unless the observation is malformed or more than a minute old. */
    method CaptureCrossings(symbol: string, price: real, startedAt: nat, storedAt: nat) returns (ok: bool)
      modifies this`crossings
      ensures ok <==> AlertSymbol(symbol).None? || (price > 0.0 && startedAt <= storedAt)
      ensures var db := old(Snapshot());
        Snapshot() == Capture(db, price, storedAt, Reached(db, symbol, price, startedAt, storedAt))
      ensures forall a :: a in crossings <==>
        || a in old(crossings)
        || (&& a in alerts && alerts[a].status == Active && alerts[a].symbol == symbol && AlertSymbol(symbol).Some?
            && price > 0.0 && startedAt <= storedAt <= now && now <= startedAt + 60
            && alerts[a].createdAt < startedAt && alerts[a].baseAt <= startedAt
            && if alerts[a].pct > 0 then price >= alerts[a].target else price <= alerts[a].target)
      ensures (forall a | a in alerts :: alerts[a].symbol in ["BTCUSDT", "ETHUSDT", "SOLUSDT", "BNBUSDT"]) ==>
        forall a | a in crossings && a !in old(crossings) :: symbol in ["BTCUSDT", "ETHUSDT", "SOLUSDT", "BNBUSDT"]
      ensures forall a | a in crossings ::
        crossings[a] == if a in old(crossings) then old(crossings)[a] else Crossing(price, storedAt)
    {
      if AlertSymbol(symbol).None? { return true; }
      if price <= 0.0 || storedAt < startedAt { return false; }
      var picked := {};
      if startedAt + PRICE_FRESHNESS >= now && storedAt <= now {
        picked := ActiveHits(alerts, symbol, price, startedAt);
      }
      crossings := crossings + map a | a in picked && a !in crossings :: Crossing(price, storedAt);
      ok := true;
    }

    /** triggerPriceAlert: status, job and crossing change together, in a free chat and only once. */
    method TriggerAlert(a: nat, chat: Chat, x: Crossing, free: Chat -> bool) returns (triggered: bool)
      modifies this`alerts, this`rows, this`crossings, this`nextJob
      ensures triggered <==> free(chat) && a in old(alerts) && old(alerts)[a].status.Active?
      ensures Snapshot() == if triggered then Trigger(old(Snapshot()), a, x, old(nextJob)) else old(Snapshot())
      ensures triggered ==> var alert := old(alerts)[a];
        && alerts == old(alerts)[a := alert.(status := Triggered, triggerPrice := Some(x.price), updatedAt := now)]
        && rows == old(rows)[Job(old(nextJob)) := Row(alert.chat, PriceAlert(a), Pending, 0, None, None, now,
                                                      x.observedAt, 0)]
        && crossings == old(crossings) - {a} && nextJob == old(nextJob) + 1
    {
      if !free(chat) || a !in alerts || !alerts[a].status.Active? { return false; }
      alerts := alerts[a := alerts[a].(status := Triggered, triggerPrice := Some(x.price), updatedAt := now)];
      rows := rows[Job(nextJob) := Row(alerts[a].chat, PriceAlert(a), Pending, 0, None, None, now, x.observedAt, 0)];
      nextJob := nextJob + 1;
      crossings := crossings - {a};
      triggered := true;
    }

    /** Crossings of alerts that are no longer active are dropped first. */
    method Purge()
      modifies this`crossings
      ensures Snapshot() == PurgeCrossings(old(Snapshot()))
      ensures forall a ::
        a in crossings <==> a in old(crossings) && (a in alerts ==> alerts[a].status == Active)
      ensures forall a | a in crossings :: crossings[a] == old(crossings)[a]
    {
      crossings := map a | a in crossings && !(a in alerts && !alerts[a].status.Active?) :: crossings[a];
    }

    /** The next page of waiting crossings beyond an id. */
    method ReadPage(after: nat, limit: nat) returns (page: seq<nat>)
      ensures FirstOf(Beyond(Snapshot(), after), IdOrder(), limit, page)
    {
      page := Select(Beyond(Snapshot(), after), IdOrder(), limit);
    }
  }
}
