/** The meaning of every SQL statement the module issues, as a function on tables. */
module Tables {
  import opened Domain
  import opened Sums
  import Plan

  datatype Db = Db(users: map<int, int>, requests: map<int, Request>,
                   messages: map<int, Message>, outbox: map<int, OutboxEvent>)

  // Leases, in milliseconds.
  const OUTBOX_CLAIM_STALE_AFTER := 60000
  const SENDING_STALE_AFTER := 120000

  function AddBalance(users: map<int, int>, user: int, amount: int): map<int, int> {
    if user in users then users[user := users[user] + amount] else users
  }

  // ---- outbox_events ----

  predicate ClaimableAfter(e: OutboxEvent, now: int, staleAfter: int) {
    || e.status.OutboxPending?
    || (e.status.OutboxPublishing? && e.lockedAt.Some? && e.lockedAt.value < now - staleAfter)
  }

  predicate Claimable(e: OutboxEvent, now: int) {
    ClaimableAfter(e, now, OUTBOX_CLAIM_STALE_AFTER)
  }

  predicate Open(e: OutboxEvent) {
    e.status.OutboxPending? || e.status.OutboxPublishing?
  }

  function ClaimedRow(e: OutboxEvent, now: int): OutboxEvent {
    e.(status := OutboxPublishing, lockedAt := Some(now), attempts := e.attempts + 1)
  }

  function ClaimRows(outbox: map<int, OutboxEvent>, ids: set<int>, now: int): map<int, OutboxEvent> {
    map id | id in outbox :: if id in ids then ClaimedRow(outbox[id], now) else outbox[id]
  }

  function MarkPublished(outbox: map<int, OutboxEvent>, id: int, now: int): map<int, OutboxEvent> {
    if id in outbox && Open(outbox[id]) then
      outbox[id := outbox[id].(status := OutboxPublished, publishedAt := Some(now), lastError := None,
                               lockedAt := None)]
    else outbox
  }

  function RecordFailure(outbox: map<int, OutboxEvent>, id: int, err: string): map<int, OutboxEvent> {
    if id in outbox && Open(outbox[id]) then
      outbox[id := outbox[id].(status := OutboxPending, lastError := Some(err), lockedAt := None)]
    else outbox
  }

  function CloseEvent(outbox: map<int, OutboxEvent>, id: int, err: string): map<int, OutboxEvent> {
    if id in outbox && Open(outbox[id]) then
      outbox[id := outbox[id].(status := OutboxFailed, lastError := Some(err), lockedAt := None)]
    else outbox
  }

  // ---- messages ----

  predicate Undelivered(messages: map<int, Message>, id: int) {
    id in messages && (messages[id].status.MessageQueued? || messages[id].status.MessageSending?)
  }

  predicate ClaimableMessage(messages: map<int, Message>, id: int, now: int) {
    id in messages &&
    (messages[id].status.MessageQueued?
     || (messages[id].status.MessageSending? && messages[id].updatedAt < now - SENDING_STALE_AFTER))
  }

  function ClaimMessage(messages: map<int, Message>, id: int, now: int): map<int, Message> {
    if ClaimableMessage(messages, id, now) then
      messages[id := messages[id].(status := MessageSending, updatedAt := now)]
    else messages
  }

  function MarkSent(messages: map<int, Message>, id: int, now: int): map<int, Message> {
    if id in messages then
      messages[id := messages[id].(status := MessageSent, errorCode := None, updatedAt := now)]
    else messages
  }

  function MarkFailed(messages: map<int, Message>, id: int, code: ErrorCode, now: int): map<int, Message> {
    if id in messages then
      messages[id := messages[id].(status := MessageFailed, errorCode := Some(code), updatedAt := now)]
    else messages
  }

  // The dead-letter transaction: close the event, fail the message, give its cost back.
  function FinalizeExhausted(db: Db, event: int, message: int, err: string, now: int): Db {
    var outbox := CloseEvent(db.outbox, event, err);
    if Undelivered(db.messages, message) then
      var m := db.messages[message];
      db.(outbox := outbox,
          messages := MarkFailed(db.messages, message, OutboxExhausted, now),
          users := if 0 < m.cost then AddBalance(db.users, m.userId, m.cost) else db.users)
    else
      db.(outbox := outbox)
  }

  // ---- requests ----

  predicate Matches(requests: map<int, Request>, id: int, user: int, key: string) {
    id in requests && requests[id].userId == user && requests[id].key == key
  }

  ghost predicate HasRequest(requests: map<int, Request>, user: int, key: string) {
    exists id :: Matches(requests, id, user, key)
  }

  ghost predicate Unique(requests: map<int, Request>) {
    forall i, j, user, key :: Matches(requests, i, user, key) && Matches(requests, j, user, key) ==> i == j
  }

  datatype Lookup = Hit(result: SendResult) | Miss | Mismatch

  function Judge(r: Request, hash: Hash): Lookup {
    if r.hash != NoHash && hash != NoHash && r.hash != hash then Mismatch
    else if r.response.None? then Miss
    else Hit(r.response.value)
  }

  // loadIdempotentFromDB, without its write to the cache.
  ghost function Load(requests: map<int, Request>, user: int, key: string, hash: Hash): Lookup {
    if HasRequest(requests, user, key) then
      var id :| Matches(requests, id, user, key);
      Judge(requests[id], hash)
    else Miss
  }

  // ---- the send transaction ----

  function MessageRows(payable: seq<Message>, requestId: int, now: int): seq<Message> {
    seq(|payable|, i requires 0 <= i < |payable| =>
      payable[i].(requestId := requestId, status := MessageQueued, updatedAt := now))
  }

  function KafkaTopic(cfg: Config, mode: DeliveryMode): string {
    if mode.Express? then cfg.topicExpress else cfg.topicNormal
  }

  function EventPayload(id: int, c: Content): SmsEvent {
    SmsEvent(id, c.requestId, c.userId, c.recipient, c.text, c.kind, c.mode, c.cost)
  }

  function EventRow(cfg: Config, id: int, c: Content): OutboxEvent {
    OutboxEvent(id, KafkaTopic(cfg, c.mode), c.recipient, EventPayload(id, c), OutboxPending, 0, None, None, None)
  }

  function EventRows(cfg: Config, ids: seq<int>, rows: seq<Message>): seq<OutboxEvent>
    requires |ids| == |rows|
  {
    seq(|ids|, i requires 0 <= i < |ids| => EventRow(cfg, ids[i], ContentOf(rows[i])))
  }

  function Lines(ids: seq<int>, rows: seq<Message>): seq<MessageResult>
    requires |ids| == |rows|
  {
    seq(|ids|, i requires 0 <= i < |ids| => ToMessageResult(ids[i], rows[i]))
  }

  function ResultOf(cfg: Config, plan: Plan.Planned, requestId: int, lines: seq<MessageResult>): SendResult {
    SendResult(requestId, Plan.TotalCost(cfg, plan), |lines|, plan.rejectedCount, plan.skippedCount, lines,
               plan.skipped)
  }

  datatype Outcome = NoSuchUser | NoMoney | Duplicate | Stored(db: Db, result: SendResult)

  function PlanFor(cfg: Config, db: Db, cmd: SendRequest, cs: seq<Message>): Plan.Planned
    requires cmd.userId in db.users
  {
    Plan.Split(cs, Plan.Affordable(cfg, db.users[cmd.userId]))
  }

  // What the transaction of persistSend commits. The database chooses the identifiers.
  ghost function SendTransaction(cfg: Config, db: Db, cmd: SendRequest, cs: seq<Message>,
                                 requestId: int, mids: seq<int>, eids: seq<int>, now: int): Outcome
    requires cmd.userId in db.users ==> |mids| == |eids| == |PlanFor(cfg, db, cmd, cs).payable|
  {
    if cmd.userId !in db.users then NoSuchUser
    else
      var plan := PlanFor(cfg, db, cmd, cs);
      var total := Plan.TotalCost(cfg, plan);
      if 0 < total && db.users[cmd.userId] < total then NoMoney
      else if HasRequest(db.requests, cmd.userId, cmd.key) then Duplicate
      else
        var rows := MessageRows(plan.payable, requestId, now);
        var result := ResultOf(cfg, plan, requestId, Lines(mids, rows));
        var request := Request(cmd.userId, cmd.key, PayloadHash(cmd), total, |rows|, plan.rejectedCount, Some(result));
        Stored(
          Db(if 0 < total then AddBalance(db.users, cmd.userId, -total) else db.users,
             db.requests[requestId := request],
             Insert(db.messages, mids, rows),
             Insert(db.outbox, eids, EventRows(cfg, mids, rows))),
          result)
  }
}
