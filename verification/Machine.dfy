/** The pipeline as a state machine: any number of workers on any number of replicas run their
    programs step by step over the shared tables and the per-chat advisory locks.

    A single-statement or fully row-locked transaction is one step. An inbox transaction takes several:
    it fixes its NOW(), reads, draws reply ids, and takes effect at its commit from what it has read.
    A commit whose answer is lost takes effect without the worker hearing of it. A worker may crash
    between any two steps, and its lock session may die while it keeps running. */
module Machine {
  import opened Policy
  import opened Tables

  type Worker = nat

  /* ---- Worker programs ---- */

  datatype Phase =
    | Claimed                       // claim committed; next: the chat lock
    | Vetted                        // subscription or alert found enabled
    | Checked                       // claim check passed; next: the send
    | InFlight                      // request handed to Telegram
    | Confirmed(tries: nat)         // Telegram accepted it; finalization loop
    | Concluding(verdict: Verdict)  // one outcome transaction to attempt
    | Done                          // only the lock release is left

  datatype UpdatePhase =
    | Taken                                   // claim committed; next: the chat lock
    | Begun(at: nat)                          // transaction open, its NOW() fixed
    | Prepared(ids: seq<nat>, view: View)     // handlers have read; reply ids drawn so far
    | Erring(reject: bool)
    | Finished

  datatype Pc =
    | Sender(claim: Claim, phase: Phase, locked: bool, checkedAt: Option<nat>, since: nat)
    | Handler(update: UpdateClaim, step: UpdatePhase, secured: bool)
    | Ticker(page: map<nat, Crossing>)
  {
    predicate Holding() { (Sender? && locked) || (Handler? && secured) }

    function Chat(): Chat
      requires !Ticker?
    {
      if Sender? then claim.chat else update.chat
    }
  }

  /* ---- History, for stating properties; no step reads it ---- */

  datatype Tally = Tally(sentOn: set<nat>, sends: nat, firstClaims: nat, reclaims: nat, retries: nat, overruns: nat)

  datatype Observation = Observation(price: real, startedAt: nat, storedAt: nat)

  /** A committed inbox transaction, in commit order. */
  datatype Effect = Effect(
    serial: nat,
    claim: UpdateClaim,
    applied: bool,              // admitted by the version register
    read: string,               // the chat's language as its transaction had read it
    answers: set<RowId>,        // replies it inserted
    alerts: set<nat>,           // alerts it inserted
    torn: bool)                 // took effect while its chat was tainted

  datatype History = History(
    fate: map<RowId, Status>,          // final status, kept after retention
    tally: map<RowId, Tally>,          // claim and send counts per row
    firsts: map<nat, Observation>,     // first observation captured for an alert while active
    fired: seq<nat>,                   // alerts in the order their jobs were created
    effects: seq<Effect>,
    serials: map<int, nat>,            // which save the current inbox row came from
    saves: seq<Version>,
    kicked: set<Chat>,                 // unsubscribed by a permanent send failure since the last /subscribe
    tainted: set<Chat>)                // a lock session died here and its section is not over yet

  datatype State = State(db: Db, keyOf: Chat -> int, locks: map<int, Worker>, pcs: map<Worker, Pc>, h: History)

  datatype SendOutcome = Accepted | Permanent | Transient(delay: nat)

  /** Steps of a notification or reply worker. */
  datatype SendStep =
    | Claim(r: RowId, token: Token, at: nat, heard: bool)
    | Shutdown(delay: nat)
    | Lock
    | Stumble(delay: nat)               // the lock, the subscription check or the claim check failed with an error
    | Vet
    | Check(at: nat)
    | BeginSend
    | EndSend(outcome: SendOutcome)
    | Finalize(committed: bool, heard: bool)
    | GiveUp                            // finalization budget spent
    | Conclude(committed: bool)
    | Release

  /** Steps of an inbox worker. */
  datatype HandleStep =
    | Take(u: int, at: nat, heard: bool)
    | Secure                            // chat lock acquired
    | Garbled                           // payload cannot be decoded
    | Begin                             // BEGIN: fixes the transaction's NOW()
    | Prepare                           // the handlers' SELECT statements
    | Draw(id: nat)                     // one reply INSERT draws its id
    | Commit(ctx: Context, committed: bool, heard: bool)
    | Err
    | Close(committed: bool)
    | Depart

  /** Steps of the price ticker. */
  datatype PriceStep =
    | Observe(symbol: string, o: Observation, picked: set<nat>)
    | Purge
    | ReadPage(w: Worker, ids: set<nat>)
    | Fire(w: Worker, a: nat, id: nat)

  /** Producers, retention, time and failures. */
  datatype WorldStep =
    | Tick(t: nat)
    | Crash(w: Worker)
    | LoseSession(w: Worker)
    | Cron(chat: Chat, id: nat, at: nat)
    | Save(u: int, from: Chat, command: Command)
    | DropRow(r: RowId)
    | DropUpdate(u: int)
    | DropAlert(a: nat)

  datatype Label =
    | Outbox(w: Worker, send: SendStep)
    | Inbox(w: Worker, handle: HandleStep)
    | Prices(price: PriceStep)
    | World(world: WorldStep)

  /* ---- Helpers ---- */

  ghost function Goto(s: State, w: Worker, pc: Pc): State { s.(pcs := s.pcs[w := pc]) }

  ghost function Unlock(s: State, w: Worker): map<int, Worker>
    requires w in s.pcs
  {
    var pc := s.pcs[w];
    if pc.Holding() && s.keyOf(pc.Chat()) in s.locks && s.locks[s.keyOf(pc.Chat())] == w
    then s.locks - {s.keyOf(pc.Chat())} else s.locks
  }

  /** Some other worker is inside a locked section of this chat. */
  ghost predicate Shared(s: State, w: Worker, chat: Chat) {
    exists v | v in s.pcs && v != w :: s.pcs[v].Holding() && s.pcs[v].Chat() == chat
  }

  /** A chat stays tainted until the last worker has left its locked section. */
  ghost function Untaint(s: State, w: Worker): set<Chat>
    requires w in s.pcs
  {
    if s.pcs[w].Holding() && !Shared(s, w, s.pcs[w].Chat()) then s.h.tainted - {s.pcs[w].Chat()} else s.h.tainted
  }

  ghost function Leave(s: State, w: Worker): State
    requires w in s.pcs
  {
    s.(locks := Unlock(s, w), pcs := s.pcs - {w}, h := s.h.(tainted := Untaint(s, w)))
  }

  /** A sender moves on to another phase, now. */
  ghost function Enter(s: State, w: Worker, phase: Phase): State
    requires SenderAt(s, w)
  {
    Goto(s, w, s.pcs[w].(phase := phase, since := s.db.now))
  }

  ghost predicate ChatFree(s: State, chat: Chat) { s.keyOf(chat) !in s.locks }

  ghost predicate SenderAt(s: State, w: Worker) { w in s.pcs && s.pcs[w].Sender? }
  ghost predicate HandlerAt(s: State, w: Worker) { w in s.pcs && s.pcs[w].Handler? }

  /** gen_random_uuid(): different from every token a row or a worker still carries. */
  ghost predicate FreshToken(s: State, token: Token) {
    && (forall r | r in s.db.rows :: s.db.rows[r].token != Some(token))
    && (forall w | SenderAt(s, w) :: s.pcs[w].claim.token != token)
  }

  ghost function TallyOf(h: History, r: RowId): Tally {
    if r in h.tally then h.tally[r] else Tally({}, 0, 0, 0, 0, 0)
  }

  /** History of an outcome transaction on a row the worker still owns. */
  ghost function Settling(h: History, c: Claim, v: Verdict, overrun: bool): History {
    var t := TallyOf(h, c.row);
    match v
    case Delivered => h.(fate := h.fate[c.row := Sent])
    case Retry(_) => h.(tally := h.tally[c.row := if overrun then t.(overruns := t.overruns + 1)
                                                  else t.(retries := t.retries + 1)])
    case Fail(permanent) => h.(fate := h.fate[c.row := Failed],
                               kicked := if permanent && c.kind.Scheduled? then h.kicked + {c.chat} else h.kicked)
    case Cancel => h.(fate := h.fate[c.row := Status.Canceled])
  }

  ghost function SettleStep(s: State, c: Claim, v: Verdict, overrun: bool): State {
    if Owns(s.db.rows, c) then s.(db := Settle(s.db, c, v), h := Settling(s.h, c, v, overrun)) else s
  }

  /** Rows an inbox transaction canceled get their final status recorded. */
  ghost function FateAfter(fate: map<RowId, Status>, before: map<RowId, Row>, after: map<RowId, Row>): map<RowId,
      Status> {
    fate + map r | r in before && r in after && before[r].status.Open() && !after[r].status.Open() :: after[r].status
  }

  ghost function CommitStep(s: State, c: UpdateClaim, ids: seq<nat>, view: View, ctx: Context): State
    requires OwnsUpdate(s.db.updates, c)
  {
    var db := CommitUpdate(s.db, c, ids, view, ctx);
    var applied := Admits(s.db.versions, c, view);
    var serial := if c.id in s.h.serials then s.h.serials[c.id] else 0;
    var effect := Effect(serial, c, applied, view.lang, db.rows.Keys - s.db.rows.Keys,
                         db.alerts.Keys - s.db.alerts.Keys, c.chat in s.h.tainted);
    s.(db := db,
       h := s.h.(fate := FateAfter(s.h.fate, s.db.rows, db.rows),
                 effects := s.h.effects + [effect],
                 kicked := if applied && c.command.Subscribe? then s.h.kicked - {c.chat} else s.h.kicked))
  }

  ghost function CommitTurn(s: State, w: Worker, ctx: Context, effective: bool): State
    requires HandlerAt(s, w) && s.pcs[w].step.Prepared? && (effective ==> OwnsUpdate(s.db.updates, s.pcs[w].update))
  {
    if effective then CommitStep(s, s.pcs[w].update, s.pcs[w].step.ids, s.pcs[w].step.view, ctx) else s
  }

  /** Whoever lost the claim, or heard that the commit took effect, is through; anything else is an error. */
  ghost function AfterCommit(s: State, w: Worker, committed: bool, heard: bool): UpdatePhase
    requires HandlerAt(s, w)
  {
    var c := s.pcs[w].update;
    if !OwnsUpdate(s.db.updates, c) || (committed && heard) then Finished else Erring(c.attempts >= MAX_ATTEMPTS)
  }

  /** What a processing error leaves in the inbox. */
  ghost function ErrTable(db: Db, pc: Pc, committed: bool): Db
    requires pc.Handler? && pc.step.Erring?
  {
    if !committed then db
    else if pc.step.reject then CloseUpdate(db, pc.update, Rejected, db.now) else RetryUpdate(db, pc.update)
  }

  /* ---- Notification and reply workers ---- */

  ghost predicate CanSend(s: State, w: Worker, l: SendStep) {
    if l.Claim? then
      && w !in s.pcs && l.at <= s.db.now && Claimable(s.db.rows, l.r, l.at)
      && ChatFree(s, s.db.rows[l.r].chat) && FreshToken(s, l.token)
    else
      && SenderAt(s, w)
      && var pc := s.pcs[w];
      match l
      case Claim(_, _, _, _) => false
      case Shutdown(delay) =>
        pc.phase.Claimed? && !pc.locked && !pc.claim.kind.Reply? && delay == RetryDelay(pc.claim.attempts)
      case Lock => pc.phase.Claimed? && !pc.locked && ChatFree(s, pc.claim.chat)
      case Stumble(delay) => (pc.phase.Claimed? || pc.phase.Vetted?) && delay == RetryDelay(pc.claim.attempts)
      case Vet => pc.phase.Claimed? && pc.locked && !pc.claim.kind.Reply?
      case Check(at) =>
        pc.locked && at <= s.db.now && (if pc.claim.kind.Reply? then pc.phase.Claimed? else pc.phase.Vetted?)
      case BeginSend => pc.phase.Checked?
      case EndSend(outcome) =>
        pc.phase.InFlight? && (outcome.Transient? ==> outcome.delay >= RetryDelay(pc.claim.attempts))
      case Finalize(_, _) => pc.phase.Confirmed? && pc.phase.tries < FINALIZATION_TRIES
      case GiveUp => pc.phase.Confirmed?
      case Conclude(_) => pc.phase.Concluding?
      case Release => pc.phase.Done?
  }

  ghost function NextSend(s: State, w: Worker, l: SendStep): State
    requires CanSend(s, w, l)
  {
    match l
    case Claim(r, token, at, heard) => ClaimStep(s, w, r, token, at, heard)
    case Shutdown(delay) => Enter(s, w, Concluding(Retry(delay)))
    case Lock =>
      Goto(s, w, s.pcs[w].(locked := true, since := s.db.now)).(locks := s.locks[s.keyOf(s.pcs[w].claim.chat) := w])
    case Stumble(delay) => Enter(s, w, Concluding(Deferral(s.pcs[w].claim, delay)))
    case Vet => Enter(s, w, if NotificationEnabled(s.db, s.pcs[w].claim) then Vetted else Concluding(Cancel))
    case Check(at) =>
      if ClaimCurrent(s.db.rows, s.pcs[w].claim, at)
      then Goto(s, w, s.pcs[w].(phase := Checked, checkedAt := Some(at), since := s.db.now))
      else Enter(s, w, Done)
    case BeginSend => BeginStep(s, w)
    case EndSend(outcome) =>
      Enter(s, w, match outcome
                  case Accepted => Confirmed(0)
                  case Permanent => Concluding(Fail(true))
                  case Transient(delay) => Concluding(Deferral(s.pcs[w].claim, delay)))
    case Finalize(committed, heard) => FinalizeStep(s, w, committed, heard)
    case GiveUp => Enter(s, w, Done)
    case Conclude(committed) => ConcludeStep(s, w, committed)
    case Release => Leave(s, w)
  }

  ghost function ClaimStep(s: State, w: Worker, r: RowId, token: Token, at: nat, heard: bool): State
    requires r in s.db.rows
  {
    var t := TallyOf(s.h, r);
    var first := s.db.rows[r].status.Pending?;
    var t' := if first then t.(firstClaims := t.firstClaims + 1) else t.(reclaims := t.reclaims + 1);
    var s' := s.(db := TakeClaim(s.db, r, token, at), h := s.h.(tally := s.h.tally[r := t']));
    if heard then Goto(s', w, Sender(ClaimOf(r, s.db.rows[r], token, at), Claimed, false, None, s.db.now)) else s'
  }

  ghost function BeginStep(s: State, w: Worker): State
    requires SenderAt(s, w)
  {
    var c := s.pcs[w].claim;
    var t := TallyOf(s.h, c.row);
    Enter(s, w, InFlight)
      .(h := s.h.(tally := s.h.tally[c.row := t.(sentOn := t.sentOn + {c.attempts}, sends := t.sends + 1)]))
  }

  /** One turn of the finalization loop: recorded, ownership lost, or an error worth another try. */
  ghost function FinalizeStep(s: State, w: Worker, committed: bool, heard: bool): State
    requires SenderAt(s, w) && s.pcs[w].phase.Confirmed?
  {
    Goto(if committed then SettleStep(s, s.pcs[w].claim, Delivered, false) else s, w,
         s.pcs[w].(phase := AfterFinalize(s, w, committed, heard)))
  }

  ghost function AfterFinalize(s: State, w: Worker, committed: bool, heard: bool): Phase
    requires SenderAt(s, w) && s.pcs[w].phase.Confirmed?
  {
    var k := s.pcs[w].phase.tries + 1;
    if heard && (committed || !Owns(s.db.rows, s.pcs[w].claim)) then Done
    else if k < FINALIZATION_TRIES then Confirmed(k) else Done
  }

  /** The single outcome transaction after an error or a refused delivery. A retry granted at or past
      the attempt limit, which only a shutdown does, is tallied as an overrun. */
  ghost function ConcludeStep(s: State, w: Worker, committed: bool): State
    requires SenderAt(s, w) && s.pcs[w].phase.Concluding?
  {
    var c, v := s.pcs[w].claim, s.pcs[w].phase.verdict;
    Goto(if committed then SettleStep(s, c, v, c.attempts >= MAX_ATTEMPTS) else s, w, s.pcs[w].(phase := Done))
  }

  /* ---- Inbox workers ---- */

  ghost predicate CanHandle(s: State, w: Worker, l: HandleStep) {
    if l.Take? then w !in s.pcs && l.at <= s.db.now && UpdateClaimable(s.db.updates, l.u, l.at)
    else
      && HandlerAt(s, w)
      && var pc := s.pcs[w];
      match l
      case Take(_, _, _) => false
      case Secure => pc.step.Taken? && !pc.secured && ChatFree(s, pc.update.chat)
      case Garbled => pc.step.Taken? && !pc.secured
      case Begin => pc.step.Taken? && pc.secured
      case Prepare => pc.step.Begun?
      case Draw(id) => pc.step.Prepared? && id >= s.db.nextAnswer
      case Commit(ctx, _, _) =>
        && pc.step.Prepared? && ctx.alertId >= s.db.nextAlert
        && pc.step.view.readAt <= ctx.createdAt <= s.db.now <= pc.step.view.began + TRANSACTION_TIMEOUT
      case Err => pc.step.Taken? || pc.step.Begun? || pc.step.Prepared?
      case Close(_) => pc.step.Erring?
      case Depart => pc.step.Finished?
  }

  ghost function NextHandle(s: State, w: Worker, l: HandleStep): State
    requires CanHandle(s, w, l)
  {
    match l
    case Take(u, at, heard) =>
      var t := s.(db := TakeUpdate(s.db, u, at));
      if heard then Goto(t, w, Handler(UpdateClaimOf(u, s.db.updates[u]), Taken, false)) else t
    case Secure => Goto(s, w, s.pcs[w].(secured := true)).(locks := s.locks[s.keyOf(s.pcs[w].update.chat) := w])
    case Garbled => Goto(s, w, s.pcs[w].(step := Erring(true)))
    case Begin => Goto(s, w, s.pcs[w].(step := Begun(s.db.now)))
    case Prepare => Goto(s, w, s.pcs[w].(step := Prepared([], ViewOf(s.db, s.pcs[w].update, s.pcs[w].step.at))))
    case Draw(id) =>
      Goto(s, w, s.pcs[w].(step := s.pcs[w].step.(ids := s.pcs[w].step.ids + [id]))).(db := s.db.(nextAnswer := id + 1))
    case Commit(ctx, committed, heard) =>
      var effective := committed && OwnsUpdate(s.db.updates, s.pcs[w].update);
      Goto(CommitTurn(s, w, ctx, effective), w, s.pcs[w].(step := AfterCommit(s, w, committed, heard)))
    case Err => Goto(s, w, s.pcs[w].(step := Erring(s.pcs[w].update.attempts >= MAX_ATTEMPTS)))
    case Close(committed) =>
      Goto(s, w, s.pcs[w].(step := Finished)).(db := ErrTable(s.db, s.pcs[w], committed))
    case Depart => Leave(s, w)
  }

  /* ---- Price ticker ---- */

  /** A capture takes no chat lock and may work from an old snapshot, so `picked` is any set of
      existing alerts whose fixed columns qualify. */
  ghost predicate CanPrice(s: State, l: PriceStep) {
    match l
    case Observe(symbol, o, picked) =>
      && o.price > 0.0 && o.startedAt <= o.storedAt <= s.db.now && o.storedAt <= o.startedAt + PRICE_FRESHNESS
      && Tracked(symbol)
      && forall a | a in picked :: a in s.db.alerts && Eligible(s.db.alerts[a], symbol, o.price, o.startedAt)
    case Purge => true
    case ReadPage(w, ids) =>
      && (w !in s.pcs || s.pcs[w].Ticker?)
      && forall a | a in ids :: a in s.db.crossings && a in s.db.alerts && s.db.alerts[a].status.Active?
    case Fire(w, a, id) =>
      && w in s.pcs && s.pcs[w].Ticker? && a in s.pcs[w].page && id >= s.db.nextJob
      && a in s.db.alerts && s.db.alerts[a].status.Active? && ChatFree(s, s.db.alerts[a].chat)
  }

  /** The alerts whose first crossing an observation captures while they are active. */
  ghost function FirstHits(db: Db, picked: set<nat>): set<nat> {
    set a | a in picked && a !in db.crossings && a in db.alerts && db.alerts[a].status.Active?
  }

  ghost function NextPrice(s: State, l: PriceStep): State
    requires CanPrice(s, l)
  {
    match l
    case Observe(symbol, o, picked) =>
      s.(db := Capture(s.db, o.price, o.storedAt, picked),
         h := s.h.(firsts := s.h.firsts + map a | a in FirstHits(s.db, picked) :: o))
    case Purge => s.(db := PurgeCrossings(s.db))
    case ReadPage(w, ids) => Goto(s, w, Ticker(map a | a in ids :: s.db.crossings[a]))
    case Fire(w, a, id) => s.(db := Trigger(s.db, a, s.pcs[w].page[a], id), h := s.h.(fired := s.h.fired + [a]))
  }

  /* ---- Producers, retention, time and failures ---- */

  ghost predicate CanWorld(s: State, l: WorldStep) {
    match l
    case Tick(t) => t > s.db.now
    case Crash(w) => w in s.pcs
    case LoseSession(w) => w in s.pcs && s.pcs[w].Holding()
    case Cron(chat, id, at) => at <= s.db.now && Due(s.db, chat, at) && id >= s.db.nextJob
    case Save(_, _, _) => true
    case DropRow(r) => r in s.db.rows && ExpiredRow(s.db.rows[r], s.db.now)
    case DropUpdate(u) => u in s.db.updates && ExpiredUpdate(s.db.updates[u], s.db.now)
    case DropAlert(a) => a in s.db.alerts && ExpiredAlert(s.db, a)
  }

  ghost function NextWorld(s: State, l: WorldStep): State
    requires CanWorld(s, l)
  {
    match l
    case Tick(t) => s.(db := s.db.(now := t))
    case Crash(w) => Leave(s, w)
    case LoseSession(w) => s.(locks := Unlock(s, w), h := s.h.(tainted := s.h.tainted + {s.pcs[w].Chat()}))
    case Cron(chat, id, at) => s.(db := CreateScheduled(s.db, chat, id, at))
    case Save(u, from, command) =>
      if u in s.db.updates then s else
        s.(db := SaveUpdate(s.db, u, from, command),
           h := s.h.(serials := s.h.serials[u := |s.h.saves|], saves := s.h.saves + [Version(NextEpoch(s.db), u)]))
    case DropRow(r) => s.(db := s.db.(rows := s.db.rows - {r}))
    case DropUpdate(u) => s.(db := s.db.(updates := s.db.updates - {u}))
    case DropAlert(a) => s.(db := s.db.(alerts := s.db.alerts - {a}, crossings := s.db.crossings - {a}))
  }

  /* ---- Runs ---- */

  ghost predicate Can(s: State, l: Label) {
    match l
    case Outbox(w, send) => CanSend(s, w, send)
    case Inbox(w, handle) => CanHandle(s, w, handle)
    case Prices(price) => CanPrice(s, price)
    case World(world) => CanWorld(s, world)
  }

  ghost function Next(s: State, l: Label): State
    requires Can(s, l)
  {
    match l
    case Outbox(w, send) => NextSend(s, w, send)
    case Inbox(w, handle) => NextHandle(s, w, handle)
    case Prices(price) => NextPrice(s, price)
    case World(world) => NextWorld(s, world)
  }

  ghost predicate Init(s: State) {
    && s.db == Db(s.db.now, map[], map[], map[], map[], map[], map[], 0, s.db.lastReceived, 1, 1, 1)
    && s.db.lastReceived <= s.db.now
    && s.locks == map[] && s.pcs == map[]
    && s.h == History(map[], map[], map[], [], [], map[], [], {}, {})
  }

  ghost predicate Run(states: seq<State>, labels: seq<Label>) {
    && |states| == |labels| + 1
    && Init(states[0])
    && forall i | 0 <= i < |labels| :: Can(states[i], labels[i]) && states[i + 1] == Next(states[i], labels[i])
  }
}
