/** The PostgreSQL tables as values, and every committed transaction of the pipeline
    as a function from tables to tables. */
module Tables {
  import opened Policy

  datatype Option<+T> = None | Some(value: T)

  type Chat = int
  type Token = int

  /* ---- Both outboxes: notification_jobs and telegram_replies ---- */

  datatype Status = Pending | Sending | Sent | Failed | Canceled {
    predicate Open() { Pending? || Sending? }
  }

  datatype Kind = Scheduled | PriceAlert(alert: nat) | Reply(source: int, seqNo: nat)

  /** Primary keys; the two outboxes draw from separate sequences. */
  datatype RowId = Job(n: nat) | Answer(n: nat)

  datatype Row = Row(
    chat: Chat,
    kind: Kind,
    status: Status,
    attempts: nat,
    token: Option<Token>,
    claimedUntil: Option<nat>,
    nextAttempt: nat,
    scheduledAt: nat,
    closedAt: nat)

  /** What a successful claim returns to the worker. `at` is the NOW() of the claim. */
  datatype Claim = Claim(row: RowId, chat: Chat, kind: Kind, attempts: nat, token: Token, scheduledAt: nat, at: nat)

  /* ---- Subscribers, inbox, versions ---- */

  datatype Sub = Sub(
    subscribed: bool,
    interval: nat,
    lang: string,
    lastSent: int,
    cronClaimedUntil: Option<nat>,
    suspendedUntil: Option<nat>)

  datatype Command =
    | SetLanguage(code: string)
    | SetInterval(minutes: int)
    | Subscribe
    | Unsubscribe
    | AddAlert(symbol: string, pct: int)
    | CancelAlert(id: nat)
    | Other

  datatype Setting = Subscription | Interval | Language

  datatype Version = Version(epoch: nat, id: int) {
    /** Row comparison `(epoch, id) < (epoch', id')`. */
    predicate Before(v: Version) { epoch < v.epoch || (epoch == v.epoch && id < v.id) }
  }

  datatype UpdateStatus = Waiting | Processing | Processed | Rejected {
    predicate Open() { Waiting? || Processing? }
  }

  datatype Update = Update(
    chat: Chat,
    epoch: nat,
    command: Command,
    status: UpdateStatus,
    attempts: nat,
    claimedUntil: Option<nat>,
    nextAttempt: nat,
    closedAt: nat)

  datatype UpdateClaim = UpdateClaim(id: int, chat: Chat, command: Command, attempts: nat, epoch: nat) {
    function Ver(): Version { Version(epoch, id) }
  }

  /* ---- Price alerts ---- */

  datatype AlertStatus = Active | Triggered | Withdrawn

  datatype Alert = Alert(
    chat: Chat,
    source: int,
    symbol: string,
    pct: int,
    base: real,
    baseAt: nat,
    target: real,
    status: AlertStatus,
    triggerPrice: Option<real>,
    createdAt: nat,
    updatedAt: nat)

  datatype Crossing = Crossing(price: real, observedAt: nat)

  datatype Quote = Quote(price: real, at: nat)

  datatype Db = Db(
    now: nat,
    subs: map<Chat, Sub>,
    rows: map<RowId, Row>,
    alerts: map<nat, Alert>,
    crossings: map<nat, Crossing>,
    updates: map<int, Update>,
    versions: map<(Chat, Setting), Version>,
    epoch: nat,
    lastReceived: nat,
    nextJob: nat,
    nextAnswer: nat,
    nextAlert: nat)

  /* ---- Outbox claims ---- */

  function ClaimOf(r: RowId, row: Row, token: Token, at: nat): Claim {
    Claim(r, row.chat, row.kind, row.attempts + 1, token, row.scheduledAt, at)
  }

  /** An open reply of the same chat with a smaller id blocks a reply; jobs have no such rule. */
  predicate Blocked(rows: map<RowId, Row>, r: RowId)
    requires r in rows
  {
    r.Answer? && exists e | e in rows :: e.Answer? && e.n < r.n && rows[e].chat == rows[r].chat && rows[e].status.Open()
  }

  /** The WHERE clause of both claim statements, evaluated at transaction time `at`. */
  predicate Claimable(rows: map<RowId, Row>, r: RowId, at: nat) {
    && r in rows
    && rows[r].status.Open()
    && rows[r].nextAttempt <= at
    && (rows[r].status.Pending? || rows[r].claimedUntil.None? || rows[r].claimedUntil.value < at)
    && !Blocked(rows, r)
  }

  function TakeClaim(db: Db, r: RowId, token: Token, at: nat): Db
    requires r in db.rows
  {
    db.(rows := db.rows[r := db.rows[r].(status := Sending, attempts := db.rows[r].attempts + 1,
                                         token := Some(token), claimedUntil := Some(at + LEASE))])
  }

  /** The guard of every outcome transaction: same row, still sending, same token, same attempt. */
  predicate Owns(rows: map<RowId, Row>, c: Claim) {
    && c.row in rows
    && rows[c.row].status.Sending?
    && rows[c.row].token == Some(c.token)
    && rows[c.row].attempts == c.attempts
  }

  /** The claim check made right before a send. */
  predicate ClaimCurrent(rows: map<RowId, Row>, c: Claim, at: nat) {
    && Owns(rows, c)
    && rows[c.row].claimedUntil.Some?
    && rows[c.row].claimedUntil.value > at + SEND_MARGIN
  }

  predicate NotificationEnabled(db: Db, c: Claim) {
    match c.kind
    case PriceAlert(a) => a in db.alerts && db.alerts[a].chat == c.chat && db.alerts[a].status.Triggered?
    case _ => c.chat in db.subs && db.subs[c.chat].subscribed
  }

  /* ---- Outbox outcomes; each is a no-op once the claim is lost ---- */

  datatype Verdict = Delivered | Retry(delay: nat) | Fail(permanent: bool) | Cancel

  function Settled(row: Row, v: Verdict, now: nat): Row {
    match v
    case Delivered => row.(status := Sent, token := None, claimedUntil := None, closedAt := now)
    case Retry(delay) => row.(status := Pending, token := None, claimedUntil := None, nextAttempt := now + delay)
    case Fail(_) => row.(status := Failed, token := None, claimedUntil := None, closedAt := now)
    case Cancel => row.(status := Status.Canceled, token := None, claimedUntil := None, closedAt := now)
  }

  /** The subscriber half of an outcome; only scheduled jobs have one. */
  function SettledSub(sub: Sub, v: Verdict, scheduledAt: nat, now: nat): Sub {
    match v
    case Delivered => sub.(lastSent := 60 * Minute(scheduledAt), cronClaimedUntil := None, suspendedUntil := None)
    case Fail(true) => sub.(subscribed := false, cronClaimedUntil := None, suspendedUntil := None)
    case Fail(false) => sub.(cronClaimedUntil := None, suspendedUntil := Some(now + FAILURE_COOLDOWN))
    case _ => sub.(cronClaimedUntil := None)
  }

  function Settle(db: Db, c: Claim, v: Verdict): Db {
    if !Owns(db.rows, c) then db else
      db.(rows := db.rows[c.row := Settled(db.rows[c.row], v, db.now)],
          subs := if c.kind.Scheduled? && c.chat in db.subs
                  then db.subs[c.chat := SettledSub(db.subs[c.chat], v, c.scheduledAt, db.now)] else db.subs)
  }

  /** Where a delivery error leads: give up after the last permitted attempt, otherwise retry. */
  function Deferral(c: Claim, delay: nat): Verdict {
    if c.attempts >= MAX_ATTEMPTS then Fail(false) else Retry(delay)
  }

  /* ---- Cron ---- */

  /** The cron statement's WHERE clause at the transaction's NOW(). */
  predicate Due(db: Db, chat: Chat, at: nat) {
    && chat in db.subs
    && var s := db.subs[chat];
    && s.subscribed
    && Minute(s.lastSent) <= Minute(at) - s.interval
    && (s.cronClaimedUntil.None? || s.cronClaimedUntil.value < at)
    && (s.suspendedUntil.None? || s.suspendedUntil.value <= at)
    && !exists r | r in db.rows :: db.rows[r].chat == chat && db.rows[r].kind.Scheduled? && db.rows[r].status.Open()
  }

  function NewJob(chat: Chat, kind: Kind, scheduledAt: nat, nextAttempt: nat): Row {
    Row(chat, kind, Pending, 0, None, None, nextAttempt, scheduledAt, 0)
  }

  function CreateScheduled(db: Db, chat: Chat, id: nat, at: nat): Db
    requires chat in db.subs
  {
    db.(subs := db.subs[chat := db.subs[chat].(cronClaimedUntil := Some(at + CRON_CLAIM))],
        rows := db.rows[Job(id) := NewJob(chat, Scheduled, at, at)],
        nextJob := id + 1)
  }

  /* ---- Inbox ---- */

  /** The epoch the next saved update gets: one more after seven silent days. */
  function NextEpoch(db: Db): nat {
    if db.lastReceived + EPOCH_GAP < db.now then db.epoch + 1 else db.epoch
  }

  function SaveUpdate(db: Db, id: int, chat: Chat, command: Command): Db {
    if id in db.updates then db else
      db.(updates := db.updates[id := Update(chat, NextEpoch(db), command, Waiting, 0, None, db.now, 0)],
          epoch := NextEpoch(db), lastReceived := db.now)
  }

  predicate UpdateClaimable(updates: map<int, Update>, id: int, at: nat) {
    && id in updates
    && var u := updates[id];
    && u.status.Open()
    && u.nextAttempt <= at
    && (u.status.Waiting? || u.claimedUntil.None? || u.claimedUntil.value < at)
    && !exists e | e in updates :: updates[e].chat == u.chat && updates[e].status.Open()
                                && Version(updates[e].epoch, e).Before(Version(u.epoch, id))
  }

  function TakeUpdate(db: Db, id: int, at: nat): Db
    requires id in db.updates
  {
    db.(updates := db.updates[id := db.updates[id].(status := Processing, attempts := db.updates[id].attempts + 1,
                                                    claimedUntil := Some(at + LEASE))])
  }

  function UpdateClaimOf(id: int, u: Update): UpdateClaim {
    UpdateClaim(id, u.chat, u.command, u.attempts + 1, u.epoch)
  }

  predicate OwnsUpdate(updates: map<int, Update>, c: UpdateClaim) {
    c.id in updates && updates[c.id].status.Processing? && updates[c.id].attempts == c.attempts
  }

  function CloseUpdate(db: Db, c: UpdateClaim, status: UpdateStatus, at: nat): Db {
    if !OwnsUpdate(db.updates, c) then db else
      db.(updates := db.updates[c.id := db.updates[c.id].(status := status, claimedUntil := None, closedAt := at)])
  }

  function RetryUpdate(db: Db, c: UpdateClaim): Db {
    if !OwnsUpdate(db.updates, c) then db else
      db.(updates := db.updates[c.id := db.updates[c.id].(status := Waiting, claimedUntil := None,
                                                          nextAttempt := db.now + RetryDelay(c.attempts))])
  }

  /** A processing error: rejected for good after the last permitted attempt, otherwise retried. */
  function DeferUpdate(db: Db, c: UpdateClaim): Db {
    if c.attempts >= MAX_ATTEMPTS then CloseUpdate(db, c, Rejected, db.now) else RetryUpdate(db, c)
  }

  /* ---- Mutation order ---- */

  predicate AllowedLanguage(code: string) { code in ["ua", "en", "ru"] }

  function SettingOf(cmd: Command): Option<Setting> {
    match cmd
    case SetLanguage(code) => if AllowedLanguage(code) then Some(Language) else None
    case SetInterval(m) => if 1 <= m <= 1440 then Some(Interval) else None
    case Subscribe => Some(Subscription)
    case Unsubscribe => Some(Subscription)
    case _ => None
  }

  /* ---- What an inbox transaction reads ---- */

  /** The values an open inbox transaction has read before it writes: its own NOW(), the time of its
      reads, the chat's language, its open alerts, and whether a newer subscription command is recorded.
      READ COMMITTED isolation does not protect them; the chat lock does. */
  datatype View = View(began: nat, readAt: nat, lang: string, open: set<nat>, superseded: bool)

  predicate Superseded(versions: map<(Chat, Setting), Version>, chat: Chat, v: Version) {
    (chat, Subscription) in versions && v.Before(versions[(chat, Subscription)])
  }

  function LangOf(subs: map<Chat, Sub>, chat: Chat): string {
    if chat in subs && AllowedLanguage(subs[chat].lang) then subs[chat].lang else "ua"
  }

  function ViewOf(db: Db, c: UpdateClaim, began: nat): View {
    View(began, db.now, LangOf(db.subs, c.chat), OpenAlerts(db, c.chat), Superseded(db.versions, c.chat, c.Ver()))
  }

  /** Whether a command may act: an interval choice yields to a newer subscription command that was seen,
      and the version register, whose row stays locked until the commit, admits strictly newer versions. */
  predicate Admits(versions: map<(Chat, Setting), Version>, c: UpdateClaim, view: View) {
    match SettingOf(c.command)
    case None => true
    case Some(setting) =>
      && (setting.Interval? ==> !view.superseded)
      && ((c.chat, setting) in versions ==> versions[(c.chat, setting)].Before(c.Ver()))
  }

  function Record(versions: map<(Chat, Setting), Version>, c: UpdateClaim, view: View): map<(Chat, Setting), Version> {
    if SettingOf(c.command).Some? && Admits(versions, c, view)
    then versions[(c.chat, SettingOf(c.command).value) := c.Ver()] else versions
  }

  /* ---- Command effects ---- */

  function Enroll(at: nat, lang: string, subscribed: bool): Sub {
    Sub(subscribed, 60, lang, at - 120, None, None)
  }

  /** The subscriber row after an admitted settings command; /subscribe writes back the language it read. */
  function SubsAfter(subs: map<Chat, Sub>, chat: Chat, cmd: Command, view: View): map<Chat, Sub> {
    match cmd
    case SetLanguage(code) =>
      if !AllowedLanguage(code) then subs
      else subs[chat := if chat in subs then subs[chat].(lang := code) else Enroll(view.began, code, false)]
    case SetInterval(m) =>
      if 1 <= m <= 1440 && chat in subs && subs[chat].subscribed
      then subs[chat := subs[chat].(interval := m, lastSent := view.began)] else subs
    case Subscribe =>
      subs[chat := if chat in subs then subs[chat].(lang := view.lang, subscribed := true, suspendedUntil := None)
                   else Enroll(view.began, view.lang, true)]
    case Unsubscribe =>
      if chat in subs
      then subs[chat := subs[chat].(subscribed := false, cronClaimedUntil := None, suspendedUntil := None)] else subs
    case _ => subs
  }

  function CancelRow(row: Row, now: nat): Row { Settled(row, Cancel, now) }

  /** /unsubscribe cancels the chat's open scheduled jobs in the same transaction. */
  function RowsAfter(rows: map<RowId, Row>, at: nat, chat: Chat, cmd: Command): map<RowId, Row> {
    if !cmd.Unsubscribe? then rows else
      map r | r in rows ::
        if rows[r].chat == chat && rows[r].kind.Scheduled? && rows[r].status.Open() then CancelRow(rows[r], at)
        else rows[r]
  }

  predicate OpenAlert(db: Db, a: nat)
    requires a in db.alerts
  {
    || db.alerts[a].status.Active?
    || exists r | r in db.rows :: db.rows[r].kind == PriceAlert(a) && db.rows[r].status.Open()
  }

  function OpenAlerts(db: Db, chat: Chat): set<nat> {
    set a | a in db.alerts && db.alerts[a].chat == chat && OpenAlert(db, a)
  }

  function Target(base: real, pct: int): real { base * (10000 + pct) as real / 10000.0 }

  predicate ValidPct(pct: int) { pct != 0 && -9999 <= pct <= 100000 }

  predicate Tracked(symbol: string) { symbol in ["BTCUSDT", "ETHUSDT", "SOLUSDT", "BNBUSDT"] }

  /** What the process contributes to a command: the replica's cached quote, the id a new alert gets and
      the clock_timestamp() of its insertion. */
  datatype Context = Context(quote: Option<Quote>, alertId: nat, createdAt: nat)

  /** Everything createPriceAlert checks: a cached quote that was fresh when the open alerts were counted,
      a supported threshold, that count, and the two unique indexes. */
  predicate AlertAccepted(db: Db, c: UpdateClaim, symbol: string, pct: int, view: View, ctx: Context) {
    && ctx.quote.Some? && ctx.quote.value.price > 0.0 && ValidPct(pct) && Tracked(symbol)
    && ctx.quote.value.at <= view.readAt <= ctx.quote.value.at + PRICE_FRESHNESS
    && |view.open| < MAX_OPEN_ALERTS
    && (forall a | a in db.alerts :: db.alerts[a].source != c.id)
    && (forall a | a in db.alerts && db.alerts[a].status.Active? ::
          !(db.alerts[a].chat == c.chat && db.alerts[a].symbol == symbol && db.alerts[a].pct == pct))
  }

  function NewAlert(c: UpdateClaim, symbol: string, pct: int, quote: Quote, view: View, ctx: Context): Alert {
    Alert(c.chat, c.id, symbol, pct, quote.price, quote.at, Target(quote.price, pct), Active, None, ctx.createdAt,
        view.began)
  }

  function CreateAlert(db: Db, c: UpdateClaim, symbol: string, pct: int, view: View, ctx: Context): Db {
    if !AlertAccepted(db, c, symbol, pct, view, ctx) then db else
      db.(alerts := db.alerts[ctx.alertId := NewAlert(c, symbol, pct, ctx.quote.value, view, ctx)],
          nextAlert := ctx.alertId + 1)
  }

  /** cancelPriceAlert: an alert its first statement found open, with whatever open job it has. */
  function WithdrawAlert(db: Db, chat: Chat, a: nat, view: View): Db {
    if !(a in view.open && a in db.alerts && db.alerts[a].chat == chat) then db else
      db.(alerts := db.alerts[a := db.alerts[a].(status := Withdrawn, updatedAt := view.began)],
          rows := map r | r in db.rows ::
            if db.rows[r].chat == chat && db.rows[r].kind == PriceAlert(a) && db.rows[r].status.Open()
            then CancelRow(db.rows[r], view.began) else db.rows[r])
  }

  function Mutate(db: Db, c: UpdateClaim, view: View, ctx: Context): Db {
    match c.command
    case AddAlert(symbol, pct) => CreateAlert(db, c, symbol, pct, view, ctx)
    case CancelAlert(a) => WithdrawAlert(db, c.chat, a, view)
    case cmd => db.(subs := SubsAfter(db.subs, c.chat, cmd, view), rows := RowsAfter(db.rows, view.began, c.chat, cmd))
  }

  predicate ReplyExists(rows: map<RowId, Row>, source: int, seqNo: nat) {
    exists r | r in rows :: rows[r].kind == Reply(source, seqNo)
  }

  function ReplyRow(c: UpdateClaim, seqNo: nat, at: nat): Row {
    Row(c.chat, Reply(c.id, seqNo), Pending, 0, None, None, at, at, 0)
  }

  /** `INSERT … ON CONFLICT (source_update_id, sequence_no) DO NOTHING`, one id drawn per reply. */
  function NewReplies(rows: map<RowId, Row>, c: UpdateClaim, ids: seq<nat>, at: nat): map<RowId, Row> {
    if ids == [] then map[] else
      var n := |ids| - 1;
      var before := NewReplies(rows, c, ids[..n], at);
      if ReplyExists(rows, c.id, n) then before else before[Answer(ids[n]) := ReplyRow(c, n, at)]
  }

  /** One inbox transaction as it takes effect: version check, mutation, replies and the processed mark
      together, all computed from what the transaction has read. */
  function CommitUpdate(db: Db, c: UpdateClaim, ids: seq<nat>, view: View, ctx: Context): Db {
    if !OwnsUpdate(db.updates, c) then db else
    if !Admits(db.versions, c, view) then CloseUpdate(db, c, Processed, view.began) else
      var recorded := db.(versions := Record(db.versions, c, view));
      var mutated := Mutate(recorded, c, view, ctx);
      CloseUpdate(mutated.(rows := mutated.rows + NewReplies(mutated.rows, c, ids, view.began)), c, Processed,
          view.began)
  }

  /* ---- Price observation ---- */

  predicate Crosses(a: Alert, price: real) {
    if a.pct > 0 then a.target <= price else a.target >= price
  }

  /** The alert columns a capture tests, all fixed at creation. */
  predicate Eligible(a: Alert, symbol: string, price: real, startedAt: nat) {
    a.symbol == symbol && a.createdAt < startedAt && a.baseAt <= startedAt && Crosses(a, price)
  }

  /** Inserts the crossings of `picked`; an alert keeps the crossing it already has. */
  function Capture(db: Db, price: real, storedAt: nat, picked: set<nat>): Db {
    db.(crossings := db.crossings + map a | a in picked && a !in db.crossings :: Crossing(price, storedAt))
  }

  function PurgeCrossings(db: Db): Db {
    db.(crossings := map a | a in db.crossings && !(a in db.alerts && !db.alerts[a].status.Active?) :: db.crossings[a])
  }

  /** triggerPriceAlert inside its transaction: at most one job per alert, created together with the status. */
  function Trigger(db: Db, a: nat, x: Crossing, id: nat): Db {
    if !(a in db.alerts && db.alerts[a].status.Active?) then db else
      var alert := db.alerts[a];
      db.(alerts := db.alerts[a := alert.(status := Triggered, triggerPrice := Some(x.price), updatedAt := db.now)],
          rows := db.rows[Job(id) := NewJob(alert.chat, PriceAlert(a), x.observedAt, db.now)],
          crossings := db.crossings - {a},
          nextJob := id + 1)
  }

  /* ---- Retention ---- */

  predicate ExpiredRow(r: Row, now: nat) {
    match (r.kind.Reply?, r.status)
    case (false, Sent) => r.closedAt + SENT_JOB_RETENTION < now
    case (false, Failed) => r.closedAt + FAILED_JOB_RETENTION < now
    case (false, Canceled) => r.closedAt + CANCELED_JOB_RETENTION < now
    case (true, Sent) => r.closedAt + SENT_REPLY_RETENTION < now
    case (true, Failed) => r.closedAt + FAILED_REPLY_RETENTION < now
    case _ => false
  }

  predicate ExpiredUpdate(u: Update, now: nat) {
    match u.status
    case Processed => u.closedAt + PROCESSED_UPDATE_RETENTION < now
    case Rejected => u.closedAt + FAILED_UPDATE_RETENTION < now
    case _ => false
  }

  predicate ExpiredAlert(db: Db, a: nat)
    requires a in db.alerts
  {
    && !db.alerts[a].status.Active?
    && db.alerts[a].updatedAt + ALERT_RETENTION < db.now
    && !exists r | r in db.rows :: db.rows[r].kind == PriceAlert(a)
  }
}
