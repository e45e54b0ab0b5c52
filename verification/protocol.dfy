/** The whole pipeline as one state machine: API instances, outbox workers and delivery
    consumers race on the tables, one step a committed statement, transaction or outside call. */
module Protocol {
  import opened Domain
  import opened Tables
  import Plan
  import Provider

  datatype Record = Record(topic: string, key: string, value: SmsEvent)

  // An outbox claim in flight, named by its event and the attempt number the claim wrote.
  datatype Claim = Claim(event: int, attempt: int)
  datatype ClaimPhase = Claimed | PublishOk | PublishErr | FinalizeErr

  // A record being processed by a consumer worker.
  datatype Delivery = Delivery(offset: nat, phase: Phase)
  datatype Phase =
    | Fetched
    | Checking                                                   // the UPDATE matched no row, the SELECT comes next
    | Calling(attempt: int, claimedAt: int, since: int)
    | Waiting(attempt: int, claimedAt: int, since: int, delay: int)
    | Accepted(claimedAt: int, since: int)                       // MarkMessageSent comes next
    | GaveUp(claimedAt: int, since: int)                         // MarkMessageFailed comes next
    | Acking                                                     // Process returned nil, the commit comes next

  // An unfinished claim on a message.
  predicate Holding(p: Phase) {
    p.Calling? || p.Waiting? || p.Accepted? || p.GaveUp?
  }

  datatype CallResult = Ok | Err | Canceled

  const MAX_PROVIDER_ATTEMPTS := 3

  // Backoff after attempt 1, 2: 100 ms and 200 ms plus at most 49 ms of jitter.
  predicate BackoffRange(attempt: int, delay: int) {
    || (attempt == 1 && 100 <= delay <= 149)
    || (attempt == 2 && 200 <= delay <= 249)
  }

  datatype CacheEntry = CacheEntry(hash: Hash, result: SendResult)

  datatype Reply = Success(result: SendResult) | Conflict | UserNotFound | InsufficientFunds | Broken

  // An API call of Send.
  datatype SendPc =
    | Resolving(cmd: SendRequest)
    | LookingUp(cmd: SendRequest)
    | Persisting(cmd: SendRequest)
    | Polling(cmd: SendRequest, polls: nat)
    | Saving(cmd: SendRequest, result: SendResult)

  const IDEMPOTENCY_POLL_ATTEMPTS := 5

  datatype Sms = Sms(key: string, messageId: int, recipient: string, text: string)
  datatype Refund = Refund(messageId: int, userId: int, amount: int)
  datatype Answer = Answer(cmd: SendRequest, reply: Reply)

  // What happened so far; no step reads it.
  datatype History = History(
    deposits: map<int, int>,    // initial balance plus top-ups
    demand: map<int, int>,      // valid recipients of all committed sends
    refunds: seq<Refund>,
    publishes: seq<Claim>,      // calls to Publish
    answers: seq<Answer>)

  datatype State = State(
    db: Db, cache: map<(int, string), CacheEntry>,
    log: seq<Record>, acked: set<nat>,
    claims: map<Claim, ClaimPhase>, deliveries: map<int, Delivery>, sends: map<int, SendPc>,
    seen: set<string>, sms: seq<Sms>,
    now: int, hist: History)

  datatype Step =
    // API
    | StartSend(pid: int, cmd: SendRequest)
    | ReadCache(pid: int, broken: bool)
    | ReadDb(pid: int, broken: bool)
    | Persist(pid: int, cs: seq<Message>, requestId: int, mids: seq<int>, eids: seq<int>, fate: Fate)
    | Poll(pid: int, broken: bool)
    | SaveCache(pid: int, saved: bool, last: bool)
    | CrashSend(pid: int)
    | Evict(user: int, key: string)
    | TopUp(user: int, amount: int)
    // outbox worker
    | ClaimBatch(ids: set<int>)
    | Publish(claim: Claim, appended: bool, ok: bool)
    | MarkPublished(claim: Claim, fate: Fate)
    | RecordFailure(claim: Claim, err: string, fate: Fate)
    | Finalize(claim: Claim, err: string, fate: Fate)
    | CrashClaim(claim: Claim)
    // delivery consumer
    | Fetch(did: int, offset: nat)
    | TryClaim(did: int, fate: Fate)
    | Check(did: int, broken: bool)
    | CallProvider(did: int, result: CallResult, reached: bool, delay: int)
    | Wake(did: int)
    | MarkSent(did: int, fate: Fate)
    | MarkFailed(did: int, fate: Fate)
    | Ack(did: int, committed: bool)
    | Drop(did: int)
    // time
    | Tick(ms: nat)

  // ---- API ----

  function Finish(s: State, pid: int, cmd: SendRequest, reply: Reply): State {
    s.(sends := s.sends - {pid}, hist := s.hist.(answers := s.hist.answers + [Answer(cmd, reply)]))
  }

  predicate CacheHit(cache: map<(int, string), CacheEntry>, user: int, key: string, hash: Hash) {
    && (user, key) in cache
    && !(hash != NoHash && cache[(user, key)].hash != NoHash && cache[(user, key)].hash != hash)
  }

  function DoReadCache(s: State, pid: int, broken: bool): State
    requires pid in s.sends && s.sends[pid].Resolving?
  {
    var cmd := s.sends[pid].cmd;
    if !broken && CacheHit(s.cache, cmd.userId, cmd.key, PayloadHash(cmd)) then
      Finish(s, pid, cmd, Success(s.cache[(cmd.userId, cmd.key)].result))
    else
      s.(sends := s.sends[pid := LookingUp(cmd)])
  }

  ghost function DoReadDb(s: State, pid: int, broken: bool): State
    requires pid in s.sends && s.sends[pid].LookingUp?
  {
    var cmd := s.sends[pid].cmd;
    if broken then Finish(s, pid, cmd, Broken)
    else
      match Load(s.db.requests, cmd.userId, cmd.key, PayloadHash(cmd))
      case Mismatch => Finish(s, pid, cmd, Conflict)
      case Miss => s.(sends := s.sends[pid := Persisting(cmd)])
      case Hit(result) => s.(sends := s.sends[pid := Saving(cmd, result)])
  }

  ghost function DoPoll(s: State, pid: int, broken: bool): State
    requires pid in s.sends && s.sends[pid].Polling?
  {
    var Polling(cmd, polls) := s.sends[pid];
    if broken then Finish(s, pid, cmd, Broken)
    else
      match Load(s.db.requests, cmd.userId, cmd.key, PayloadHash(cmd))
      case Mismatch => Finish(s, pid, cmd, Conflict)
      case Hit(result) => s.(sends := s.sends[pid := Saving(cmd, result)])
      case Miss =>
        if polls + 1 == IDEMPOTENCY_POLL_ATTEMPTS then Finish(s, pid, cmd, Conflict)
        else s.(sends := s.sends[pid := Polling(cmd, polls + 1)])
  }

  ghost predicate CanPersist(cfg: Config, s: State, pid: int, cs: seq<Message>,
                             requestId: int, mids: seq<int>, eids: seq<int>) {
    && pid in s.sends && s.sends[pid].Persisting?
    && Plan.AreCandidates(cfg, s.sends[pid].cmd, cs)
    && 0 < requestId && requestId !in s.db.requests
    && Sums.Fresh(s.db.messages, mids) && Sums.Fresh(s.db.outbox, eids)
    && (s.sends[pid].cmd.userId in s.db.users ==>
          |mids| == |eids| == |PlanFor(cfg, s.db, s.sends[pid].cmd, cs).payable|)
  }

  ghost function DoPersist(cfg: Config, s: State, pid: int, cs: seq<Message>,
                           requestId: int, mids: seq<int>, eids: seq<int>, fate: Fate): State
    requires CanPersist(cfg, s, pid, cs, requestId, mids, eids)
  {
    var cmd := s.sends[pid].cmd;
    if fate.Aborted? then Finish(s, pid, cmd, Broken)
    else
      match SendTransaction(cfg, s.db, cmd, cs, requestId, mids, eids, s.now)
      case NoSuchUser => Finish(s, pid, cmd, UserNotFound)
      case NoMoney => Finish(s, pid, cmd, InsufficientFunds)
      case Duplicate => s.(sends := s.sends[pid := Polling(cmd, 0)])
      case Stored(db, result) =>
        var asked := if cmd.userId in s.hist.demand then s.hist.demand[cmd.userId] else 0;
        var s1 := s.(db := db,
                     hist := s.hist.(demand := s.hist.demand[cmd.userId := asked + |Plan.Sendable(cs)|]));
        if fate.Done? then s1.(sends := s1.sends[pid := Saving(cmd, result)])
        else Finish(s1, pid, cmd, Broken)
  }

  function DoSaveCache(s: State, pid: int, saved: bool, last: bool): State
    requires pid in s.sends && s.sends[pid].Saving?
  {
    var Saving(cmd, result) := s.sends[pid];
    var s1 := if saved then s.(cache := s.cache[(cmd.userId, cmd.key) := CacheEntry(PayloadHash(cmd), result)]) else s;
    if last then Finish(s1, pid, cmd, Success(result)) else s1
  }

  function DoTopUp(s: State, user: int, amount: int): State
    requires user in s.hist.deposits
  {
    s.(db := s.db.(users := AddBalance(s.db.users, user, amount)),
       hist := s.hist.(deposits := s.hist.deposits[user := s.hist.deposits[user] + amount]))
  }

  // ---- outbox worker ----

  predicate CanClaimBatch(cfg: Config, s: State, ids: set<int>) {
    && |ids| <= cfg.batchSize
    && ids <= s.db.outbox.Keys
    && forall id :: id in ids ==> Claimable(s.db.outbox[id], s.now)
  }

  function ClaimsOf(outbox: map<int, OutboxEvent>, ids: set<int>): set<Claim>
    requires ids <= outbox.Keys
  {
    set id | id in ids :: Claim(id, outbox[id].attempts + 1)
  }

  function DoClaimBatch(s: State, ids: set<int>): State
    requires ids <= s.db.outbox.Keys
  {
    s.(db := s.db.(outbox := ClaimRows(s.db.outbox, ids, s.now)),
       claims := s.claims + map c | c in ClaimsOf(s.db.outbox, ids) :: Claimed)
  }

  predicate InPhase(s: State, c: Claim, p: ClaimPhase) {
    c in s.claims && s.claims[c] == p
  }

  predicate CanPublish(cfg: Config, s: State, c: Claim) {
    InPhase(s, c, Claimed) && c.event in s.db.outbox && c.attempt <= cfg.maxAttempts
  }

  function RecordFor(e: OutboxEvent): Record {
    Record(e.topic, e.partitionKey, e.payload)
  }

  function DoPublish(s: State, c: Claim, appended: bool, ok: bool): State
    requires c.event in s.db.outbox
  {
    s.(log := if appended then s.log + [RecordFor(s.db.outbox[c.event])] else s.log,
       claims := s.claims[c := if ok then PublishOk else PublishErr],
       hist := s.hist.(publishes := s.hist.publishes + [c]))
  }

  function DoMarkPublished(s: State, c: Claim, fate: Fate): State {
    s.(db := if fate.Aborted? then s.db else s.db.(outbox := Tables.MarkPublished(s.db.outbox, c.event, s.now)),
       claims := s.claims - {c})
  }

  predicate CanRecordFailure(cfg: Config, s: State, c: Claim) {
    InPhase(s, c, FinalizeErr) || (InPhase(s, c, PublishErr) && c.attempt < cfg.maxAttempts)
  }

  function DoRecordFailure(s: State, c: Claim, err: string, fate: Fate): State {
    s.(db := if fate.Aborted? then s.db else s.db.(outbox := Tables.RecordFailure(s.db.outbox, c.event, err)),
       claims := s.claims - {c})
  }

  predicate CanFinalize(cfg: Config, s: State, c: Claim) {
    && c.event in s.db.outbox
    && (|| (InPhase(s, c, Claimed) && cfg.maxAttempts < c.attempt)
        || (InPhase(s, c, PublishErr) && cfg.maxAttempts <= c.attempt))
  }

  function DoFinalize(s: State, c: Claim, err: string, fate: Fate): State
    requires c.event in s.db.outbox
  {
    var message := s.db.outbox[c.event].aggregateId;
    var claims := if fate.Done? then s.claims - {c} else s.claims[c := FinalizeErr];
    if fate.Aborted? then s.(claims := claims)
    else
      s.(db := FinalizeExhausted(s.db, c.event, message, err, s.now),
         claims := claims,
         hist := if Undelivered(s.db.messages, message) && 0 < s.db.messages[message].cost then
                   s.hist.(refunds := s.hist.refunds +
                     [Refund(message, s.db.messages[message].userId, s.db.messages[message].cost)])
                 else s.hist)
  }

  // ---- delivery consumer ----

  predicate CanFetch(s: State, did: int, offset: nat) {
    did !in s.deliveries && offset < |s.log|
  }

  predicate AtPhase(s: State, did: int) {
    did in s.deliveries && s.deliveries[did].offset < |s.log|
  }

  function EventOf(s: State, did: int): SmsEvent
    requires AtPhase(s, did)
  {
    s.log[s.deliveries[did].offset].value
  }

  function Leave(s: State, did: int): State {
    s.(deliveries := s.deliveries - {did})
  }

  function Enter(s: State, did: int, p: Phase): State
    requires did in s.deliveries
  {
    s.(deliveries := s.deliveries[did := s.deliveries[did].(phase := p)])
  }

  // The UPDATE of ClaimMessageForSending.
  function DoTryClaim(s: State, did: int, fate: Fate): State
    requires AtPhase(s, did)
  {
    var id := EventOf(s, did).messageId;
    var s1 := if fate.Aborted? then s else s.(db := s.db.(messages := ClaimMessage(s.db.messages, id, s.now)));
    if !fate.Done? then Leave(s1, did)
    else if ClaimableMessage(s.db.messages, id, s.now) then Enter(s1, did, Calling(1, s.now, s.now))
    else Enter(s1, did, Checking)
  }

  // Its SELECT, and what Process makes of the outcome.
  function Classify(messages: map<int, Message>, id: int): ClaimOutcome {
    if id !in messages then ClaimNotFound
    else
      match messages[id].status
      case MessageSent => ClaimAlreadySent
      case MessageFailed => ClaimAlreadyFailed
      case _ => ClaimInFlight
  }

  function DoCheck(s: State, did: int, broken: bool): State
    requires AtPhase(s, did)
  {
    if broken || Classify(s.db.messages, EventOf(s, did).messageId).ClaimInFlight? then Leave(s, did)
    else Enter(s, did, Acking)
  }

  // A provider that deduplicates: the first use of a key is a real SMS, later ones are not.
  function Reach(s: State, e: SmsEvent): State {
    var key := Provider.ProviderIdempotencyKey(e.messageId);
    if key in s.seen then s
    else s.(seen := s.seen + {key}, sms := s.sms + [Sms(key, e.messageId, e.recipient, e.text)])
  }

  // What sendWithRetry makes of the result of one call.
  function AfterCall(s: State, did: int, result: CallResult, delay: int): State
    requires did in s.deliveries && s.deliveries[did].phase.Calling?
  {
    var Calling(attempt, claimedAt, _) := s.deliveries[did].phase;
    match result
    case Ok => Enter(s, did, Accepted(claimedAt, s.now))
    case Canceled => Leave(s, did)
    case Err =>
      if attempt == MAX_PROVIDER_ATTEMPTS then Enter(s, did, GaveUp(claimedAt, s.now))
      else Enter(s, did, Waiting(attempt, claimedAt, s.now, delay))
  }

  function DoCallProvider(s: State, did: int, result: CallResult, reached: bool, delay: int): State
    requires AtPhase(s, did) && s.deliveries[did].phase.Calling?
  {
    AfterCall(if reached then Reach(s, EventOf(s, did)) else s, did, result, delay)
  }

  predicate CanCallProvider(s: State, did: int, result: CallResult, reached: bool, delay: int) {
    && AtPhase(s, did) && s.deliveries[did].phase.Calling?
    && (result.Ok? ==> reached)
    && (result.Err? && s.deliveries[did].phase.attempt != MAX_PROVIDER_ATTEMPTS
        ==> BackoffRange(s.deliveries[did].phase.attempt, delay))
  }

  function DoWake(s: State, did: int): State
    requires did in s.deliveries && s.deliveries[did].phase.Waiting?
  {
    var Waiting(attempt, claimedAt, _, _) := s.deliveries[did].phase;
    Enter(s, did, Calling(attempt + 1, claimedAt, s.now))
  }

  function DoMark(s: State, did: int, messages: map<int, Message>, fate: Fate): State
    requires did in s.deliveries
  {
    var s1 := if fate.Aborted? then s else s.(db := s.db.(messages := messages));
    if fate.Done? then Enter(s1, did, Acking) else Leave(s1, did)
  }

  function DoMarkSent(s: State, did: int, fate: Fate): State
    requires AtPhase(s, did)
  {
    DoMark(s, did, Tables.MarkSent(s.db.messages, EventOf(s, did).messageId, s.now), fate)
  }

  function DoMarkFailed(s: State, did: int, fate: Fate): State
    requires AtPhase(s, did)
  {
    DoMark(s, did, Tables.MarkFailed(s.db.messages, EventOf(s, did).messageId, ProviderError, s.now), fate)
  }

  function DoAck(s: State, did: int, committed: bool): State
    requires did in s.deliveries
  {
    Leave(if committed then s.(acked := s.acked + {s.deliveries[did].offset}) else s, did)
  }

  // ---- runs ----

  ghost predicate Enabled(cfg: Config, s: State, step: Step) {
    match step
    case StartSend(pid, cmd) => pid !in s.sends
    case ReadCache(pid, _) => pid in s.sends && s.sends[pid].Resolving?
    case ReadDb(pid, _) => pid in s.sends && s.sends[pid].LookingUp?
    case Persist(pid, cs, requestId, mids, eids, _) => CanPersist(cfg, s, pid, cs, requestId, mids, eids)
    case Poll(pid, _) => pid in s.sends && s.sends[pid].Polling?
    case SaveCache(pid, _, _) => pid in s.sends && s.sends[pid].Saving?
    case CrashSend(pid) => true
    case Evict(_, _) => true
    case TopUp(user, amount) => user in s.hist.deposits && user in s.db.users && 0 < amount
    case ClaimBatch(ids) => CanClaimBatch(cfg, s, ids)
    case Publish(c, appended, ok) => CanPublish(cfg, s, c) && (ok ==> appended)
    case MarkPublished(c, _) => InPhase(s, c, PublishOk)
    case RecordFailure(c, _, _) => CanRecordFailure(cfg, s, c)
    case Finalize(c, _, _) => CanFinalize(cfg, s, c)
    case CrashClaim(c) => true
    case Fetch(did, offset) => CanFetch(s, did, offset)
    case TryClaim(did, _) => AtPhase(s, did) && s.deliveries[did].phase.Fetched?
    case Check(did, _) => AtPhase(s, did) && s.deliveries[did].phase.Checking?
    case CallProvider(did, result, reached, delay) => CanCallProvider(s, did, result, reached, delay)
    case Wake(did) => did in s.deliveries && s.deliveries[did].phase.Waiting?
    case MarkSent(did, _) => AtPhase(s, did) && s.deliveries[did].phase.Accepted?
    case MarkFailed(did, _) => AtPhase(s, did) && s.deliveries[did].phase.GaveUp?
    case Ack(did, _) => did in s.deliveries && s.deliveries[did].phase.Acking?
    case Drop(did) => true
    case Tick(_) => true
  }

  ghost function Apply(cfg: Config, s: State, step: Step): State
    requires Enabled(cfg, s, step)
  {
    match step
    case StartSend(pid, cmd) => s.(sends := s.sends[pid := Resolving(cmd)])
    case ReadCache(pid, broken) => DoReadCache(s, pid, broken)
    case ReadDb(pid, broken) => DoReadDb(s, pid, broken)
    case Persist(pid, cs, requestId, mids, eids, fate) => DoPersist(cfg, s, pid, cs, requestId, mids, eids, fate)
    case Poll(pid, broken) => DoPoll(s, pid, broken)
    case SaveCache(pid, saved, last) => DoSaveCache(s, pid, saved, last)
    case CrashSend(pid) => s.(sends := s.sends - {pid})
    case Evict(user, key) => s.(cache := s.cache - {(user, key)})
    case TopUp(user, amount) => DoTopUp(s, user, amount)
    case ClaimBatch(ids) => DoClaimBatch(s, ids)
    case Publish(c, appended, ok) => DoPublish(s, c, appended, ok)
    case MarkPublished(c, fate) => DoMarkPublished(s, c, fate)
    case RecordFailure(c, err, fate) => DoRecordFailure(s, c, err, fate)
    case Finalize(c, err, fate) => DoFinalize(s, c, err, fate)
    case CrashClaim(c) => s.(claims := s.claims - {c})
    case Fetch(did, offset) => s.(deliveries := s.deliveries[did := Delivery(offset, Fetched)])
    case TryClaim(did, fate) => DoTryClaim(s, did, fate)
    case Check(did, broken) => DoCheck(s, did, broken)
    case CallProvider(did, result, reached, delay) => DoCallProvider(s, did, result, reached, delay)
    case Wake(did) => DoWake(s, did)
    case MarkSent(did, fate) => DoMarkSent(s, did, fate)
    case MarkFailed(did, fate) => DoMarkFailed(s, did, fate)
    case Ack(did, committed) => DoAck(s, did, committed)
    case Drop(did) => Leave(s, did)
    case Tick(ms) => s.(now := s.now + ms)
  }

  // Any users with non-negative balances, nothing else.
  ghost predicate Init(s: State) {
    && (forall u :: u in s.db.users ==> 0 <= s.db.users[u])
    && s == State(Db(s.db.users, map[], map[], map[]), map[], [], {}, map[], map[], map[], {}, [], s.now,
                  History(s.db.users, map[], [], [], []))
  }

  // ss[i] becomes ss[i + 1] by steps[i].
  ghost predicate IsRun(cfg: Config, ss: seq<State>, steps: seq<Step>) {
    && |ss| == |steps| + 1
    && forall i {:trigger steps[i]} :: 0 <= i < |steps| ==>
         Enabled(cfg, ss[i], steps[i]) && ss[i + 1] == Apply(cfg, ss[i], steps[i])
  }

  ghost predicate IsExecution(cfg: Config, ss: seq<State>, steps: seq<Step>) {
    IsRun(cfg, ss, steps) && Init(ss[0])
  }
}
