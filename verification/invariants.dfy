/** What holds in every reachable state, component by component. Facts about columns that
    never change are stated on Contents and Headers, so that status updates leave them alone. */
module Invariants {
  import opened Domain
  import opened Sums
  import opened Tables
  import opened Protocol
  import Provider

  function Contents(messages: map<int, Message>): map<int, Content> {
    map id | id in messages :: ContentOf(messages[id])
  }

  datatype Header = Header(aggregateId: int, topic: string, partitionKey: string, payload: SmsEvent)

  function HeaderOf(e: OutboxEvent): Header {
    Header(e.aggregateId, e.topic, e.partitionKey, e.payload)
  }

  function Headers(outbox: map<int, OutboxEvent>): map<int, Header> {
    map id | id in outbox :: HeaderOf(outbox[id])
  }

  // ---- rows ----

  ghost predicate HasEvent(headers: map<int, Header>, message: int) {
    exists e :: e in headers && headers[e].aggregateId == message
  }

  ghost predicate LineOk(requestId: int, line: MessageResult, contents: map<int, Content>) {
    && line.id in contents
    && contents[line.id] == Content(requestId, contents[line.id].userId, line.recipient, line.kind, line.mode,
                                    line.text, line.cost)
    && line.status == MessageQueued && line.errorCode == None
  }

  ghost predicate IsLine(lines: seq<MessageResult>, id: int) {
    exists i :: 0 <= i < |lines| && lines[i].id == id
  }

  // The stored lines are exactly the message rows of the request.
  ghost predicate LinesAgree(requestId: int, lines: seq<MessageResult>, contents: map<int, Content>) {
    && (forall i :: 0 <= i < |lines| ==> LineOk(requestId, lines[i], contents))
    && (forall i, j :: 0 <= i < j < |lines| ==> lines[i].id != lines[j].id)
    && (forall m :: m in contents && contents[m].requestId == requestId ==> IsLine(lines, m))
  }

  ghost predicate RequestOk(cfg: Config, id: int, r: Request, contents: map<int, Content>) {
    && r.hash.Digest? && r.response.Some?
    && var res := r.response.value;
    && res.requestId == id
    && r.totalCost == res.totalCost == |res.messages| * cfg.smsCost
    && r.accepted == res.acceptedCount == |res.messages|
    && r.rejected == res.rejectedCount
    && res.rejectedCount + res.skippedCount == |res.skipped|
    && LinesAgree(id, res.messages, contents)
  }

  ghost predicate ContentsOk(cfg: Config, users: set<int>, requests: map<int, Request>, contents: map<int, Content>) {
    && (forall m :: m in contents ==>
          && 0 < m && contents[m].cost == cfg.smsCost && contents[m].userId in users
          && contents[m].requestId in requests && requests[contents[m].requestId].userId == contents[m].userId)
    && (forall r :: r in requests ==> requests[r].userId in users)
  }

  ghost predicate HeaderOk(cfg: Config, h: Header, contents: map<int, Content>) {
    h.aggregateId in contents && h == HeaderOf(EventRow(cfg, h.aggregateId, contents[h.aggregateId]))
  }

  // Messages and outbox events are in bijection, and each event carries its message.
  ghost predicate EventsOk(cfg: Config, contents: map<int, Content>, headers: map<int, Header>) {
    && (forall e :: e in headers ==> HeaderOk(cfg, headers[e], contents))
    && (forall e, f :: e in headers && f in headers && headers[e].aggregateId == headers[f].aggregateId ==> e == f)
    && (forall m :: m in contents ==> HasEvent(headers, m))
  }

  ghost predicate RowsOk(cfg: Config, users: set<int>, requests: map<int, Request>,
                         contents: map<int, Content>, headers: map<int, Header>) {
    && ContentsOk(cfg, users, requests, contents)
    && EventsOk(cfg, contents, headers)
    && (forall r :: r in requests ==> RequestOk(cfg, r, requests[r], contents))
    && Unique(requests)
  }

  // ---- money ----

  function CostsOf(contents: map<int, Content>, user: int): map<int, int> {
    map m | m in contents && contents[m].userId == user :: contents[m].cost
  }

  // What the messages of a user cost.
  ghost function Spent(contents: map<int, Content>, user: int): int {
    Sum(CostsOf(contents, user))
  }

  function Refunded(refunds: seq<Refund>, user: int): int {
    if refunds == [] then 0
    else Refunded(refunds[..|refunds| - 1], user)
         + if refunds[|refunds| - 1].userId == user then refunds[|refunds| - 1].amount else 0
  }

  ghost predicate MoneyOk(users: map<int, int>, contents: map<int, Content>, deposits: map<int, int>,
                          refunds: seq<Refund>) {
    && users.Keys == deposits.Keys
    && forall u :: u in users ==>
         0 <= users[u] && users[u] + Spent(contents, u) == deposits[u] + Refunded(refunds, u)
  }

  ghost predicate IsRefunded(refunds: seq<Refund>, message: int) {
    exists i :: 0 <= i < |refunds| && refunds[i].messageId == message
  }

  ghost predicate RefundsOk(messages: map<int, Message>, refunds: seq<Refund>) {
    && (forall i, j :: 0 <= i < j < |refunds| ==> refunds[i].messageId != refunds[j].messageId)
    && (forall i :: 0 <= i < |refunds| ==>
          var r := refunds[i];
          && r.messageId in messages && Terminal(messages[r.messageId])
          && r.userId == messages[r.messageId].userId && r.amount == messages[r.messageId].cost)
    && (forall m :: m in messages ==>
          && !messages[m].status.MessageRejected?
          && (messages[m].errorCode == Some(OutboxExhausted) ==>
                messages[m].status.MessageFailed? && IsRefunded(refunds, m)))
  }

  // ---- outbox ----

  ghost predicate InLog(log: seq<Record>, message: int) {
    exists i :: 0 <= i < |log| && log[i].value.messageId == message
  }

  ghost predicate LogOk(cfg: Config, log: seq<Record>, contents: map<int, Content>) {
    forall i :: 0 <= i < |log| ==>
      var m := log[i].value.messageId;
      m in contents && log[i] == RecordFor(EventRow(cfg, m, contents[m]))
  }

  ghost predicate EventOk(e: OutboxEvent, messages: map<int, Message>, log: seq<Record>) {
    && 0 <= e.attempts
    && e.aggregateId in messages
    && (e.status.OutboxPublished? ==> InLog(log, e.aggregateId))
    && (e.status.OutboxFailed? ==> Terminal(messages[e.aggregateId]))
  }

  ghost predicate ClaimOk(cfg: Config, c: Claim, p: ClaimPhase, outbox: map<int, OutboxEvent>, log: seq<Record>,
                          publishes: seq<Claim>) {
    && c.event in outbox && 1 <= c.attempt <= outbox[c.event].attempts
    && (p.PublishOk? ==> InLog(log, outbox[c.event].aggregateId))
    && (p.Claimed? ==> c !in publishes)
  }

  ghost predicate PublishesOk(cfg: Config, publishes: seq<Claim>, outbox: map<int, OutboxEvent>) {
    && (forall i, j :: 0 <= i < j < |publishes| ==> publishes[i] != publishes[j])
    && (forall i :: 0 <= i < |publishes| ==>
          && publishes[i].event in outbox
          && 1 <= publishes[i].attempt <= cfg.maxAttempts
          && publishes[i].attempt <= outbox[publishes[i].event].attempts)
  }

  ghost predicate OutboxOk(cfg: Config, outbox: map<int, OutboxEvent>, messages: map<int, Message>, log: seq<Record>,
                           claims: map<Claim, ClaimPhase>, publishes: seq<Claim>) {
    && (forall e :: e in outbox ==> EventOk(outbox[e], messages, log))
    && (forall c :: c in claims ==> ClaimOk(cfg, c, claims[c], outbox, log, publishes))
    && PublishesOk(cfg, publishes, outbox)
  }

  // ---- delivery ----

  function KeyOf(message: int): string {
    Provider.ProviderIdempotencyKey(message)
  }

  ghost predicate DeliveryOk(d: Delivery, log: seq<Record>, messages: map<int, Message>, seen: set<string>) {
    && d.offset < |log|
    && var m := log[d.offset].value.messageId;
    && m in messages
    && (d.phase.Checking? || Holding(d.phase) ==> !messages[m].status.MessageQueued?)
    && (d.phase.Calling? ==> 1 <= d.phase.attempt <= MAX_PROVIDER_ATTEMPTS)
    && (d.phase.Waiting? ==> 1 <= d.phase.attempt < MAX_PROVIDER_ATTEMPTS)
    && (d.phase.Accepted? ==> KeyOf(m) in seen)
    && (d.phase.Acking? ==> Terminal(messages[m]))
  }

  ghost predicate DeliveryStateOk(deliveries: map<int, Delivery>, acked: set<nat>, log: seq<Record>,
                                  messages: map<int, Message>, seen: set<string>) {
    && (forall d :: d in deliveries ==> DeliveryOk(deliveries[d], log, messages, seen))
    && (forall o :: o in acked ==>
          o < |log| && log[o].value.messageId in messages && Terminal(messages[log[o].value.messageId]))
    && (forall m :: m in messages && messages[m].status.MessageSent? ==> KeyOf(m) in seen)
  }

  ghost predicate ProviderOk(seen: set<string>, sms: seq<Sms>, contents: map<int, Content>) {
    && (forall i :: 0 <= i < |sms| ==>
          && sms[i].messageId in contents
          && sms[i] == Sms(KeyOf(sms[i].messageId), sms[i].messageId,
                           contents[sms[i].messageId].recipient, contents[sms[i].messageId].text))
    && (forall i, j :: 0 <= i < j < |sms| ==> sms[i].key != sms[j].key)
    && (forall k :: k in seen <==> exists i :: 0 <= i < |sms| && sms[i].key == k)
  }

  // ---- idempotency ----

  ghost predicate BoundAt(requests: map<int, Request>, id: int, user: int, key: string, hash: Hash,
                          result: SendResult) {
    && Matches(requests, id, user, key)
    && requests[id].hash == hash && hash != NoHash && requests[id].response == Some(result)
  }

  // The stored request of this key has this body and this answer.
  ghost predicate Bound(requests: map<int, Request>, user: int, key: string, hash: Hash, result: SendResult) {
    exists id :: BoundAt(requests, id, user, key, hash, result)
  }

  ghost predicate ClashAt(requests: map<int, Request>, id: int, user: int, key: string, hash: Hash) {
    Matches(requests, id, user, key) && requests[id].hash != hash
  }

  ghost predicate Clash(requests: map<int, Request>, user: int, key: string, hash: Hash) {
    exists id :: ClashAt(requests, id, user, key, hash)
  }

  ghost predicate SendOk(requests: map<int, Request>, pc: SendPc) {
    && (pc.Saving? ==> Bound(requests, pc.cmd.userId, pc.cmd.key, PayloadHash(pc.cmd), pc.result))
    && (pc.Polling? ==> HasRequest(requests, pc.cmd.userId, pc.cmd.key))
  }

  ghost predicate AnswerOk(requests: map<int, Request>, users: set<int>, a: Answer) {
    match a.reply
    case Success(result) => Bound(requests, a.cmd.userId, a.cmd.key, PayloadHash(a.cmd), result)
    case Conflict => Clash(requests, a.cmd.userId, a.cmd.key, PayloadHash(a.cmd))
    case UserNotFound => a.cmd.userId !in users
    case InsufficientFunds => false
    case Broken => true
  }

  ghost predicate CacheOk(requests: map<int, Request>, cache: map<(int, string), CacheEntry>) {
    forall user, key :: (user, key) in cache ==>
      Bound(requests, user, key, cache[(user, key)].hash, cache[(user, key)].result)
  }

  ghost predicate ApiOk(requests: map<int, Request>, users: set<int>, cache: map<(int, string), CacheEntry>,
                        sends: map<int, SendPc>, answers: seq<Answer>) {
    && CacheOk(requests, cache)
    && (forall p :: p in sends ==> SendOk(requests, sends[p]))
    && (forall i :: 0 <= i < |answers| ==> AnswerOk(requests, users, answers[i]))
  }

  ghost predicate Inv(cfg: Config, s: State) {
    && RowsOk(cfg, s.db.users.Keys, s.db.requests, Contents(s.db.messages), Headers(s.db.outbox))
    && MoneyOk(s.db.users, Contents(s.db.messages), s.hist.deposits, s.hist.refunds)
    && RefundsOk(s.db.messages, s.hist.refunds)
    && LogOk(cfg, s.log, Contents(s.db.messages))
    && OutboxOk(cfg, s.db.outbox, s.db.messages, s.log, s.claims, s.hist.publishes)
    && DeliveryStateOk(s.deliveries, s.acked, s.log, s.db.messages, s.seen)
    && ProviderOk(s.seen, s.sms, Contents(s.db.messages))
    && ApiOk(s.db.requests, s.db.users.Keys, s.cache, s.sends, s.hist.answers)
  }

  lemma InitHolds(cfg: Config, s: State)
    requires Init(s)
    ensures Inv(cfg, s)
  {
    assert Contents(s.db.messages) == map[];
    assert Headers(s.db.outbox) == map[];
    forall u | u in s.db.users ensures Spent(map[], u) == 0 {
      assert CostsOf(map[], u) == map[];
    }
  }

  // ---- how tables move ----

  // No message is lost, none changes its content, terminal ones stay terminal, none is queued again.
  ghost predicate Evolves(a: map<int, Message>, b: map<int, Message>) {
    forall m :: m in a ==>
      && m in b && ContentOf(b[m]) == ContentOf(a[m])
      && (Terminal(a[m]) ==> Terminal(b[m]))
      && (!a[m].status.MessageQueued? ==> !b[m].status.MessageQueued?)
  }

  // No event is lost, none changes its header, attempts grow, published and failed are absorbing.
  ghost predicate OutboxEvolves(a: map<int, OutboxEvent>, b: map<int, OutboxEvent>) {
    forall e :: e in a ==>
      && e in b && HeaderOf(b[e]) == HeaderOf(a[e])
      && a[e].attempts <= b[e].attempts
      && (!Open(a[e]) ==> b[e].status == a[e].status)
  }

  lemma SameContents(a: map<int, Message>, b: map<int, Message>)
    requires Evolves(a, b) && a.Keys == b.Keys
    ensures Contents(a) == Contents(b)
  {
    var x, y := Contents(a), Contents(b);
    assert x.Keys == a.Keys && y.Keys == b.Keys;
    assert forall m :: m in x ==> x[m] == y[m];
  }

  lemma SameHeaders(a: map<int, OutboxEvent>, b: map<int, OutboxEvent>)
    requires OutboxEvolves(a, b) && a.Keys == b.Keys
    ensures Headers(a) == Headers(b)
  {
    var x, y := Headers(a), Headers(b);
    assert x.Keys == a.Keys && y.Keys == b.Keys;
    assert forall e :: e in x ==> x[e] == y[e];
  }

  lemma InLogGrows(log: seq<Record>, more: seq<Record>, m: int)
    requires InLog(log, m)
    ensures InLog(log + more, m)
  {
    var i :| 0 <= i < |log| && log[i].value.messageId == m;
    assert (log + more)[i] == log[i];
  }

  lemma DeliveryFrame(deliveries: map<int, Delivery>, acked: set<nat>, log: seq<Record>, more: seq<Record>,
                      a: map<int, Message>, b: map<int, Message>, seen: set<string>, seen': set<string>)
    requires DeliveryStateOk(deliveries, acked, log, a, seen)
    requires Evolves(a, b) && seen <= seen'
    requires forall m :: m in b && b[m].status.MessageSent? ==> KeyOf(m) in seen'
    ensures DeliveryStateOk(deliveries, acked, log + more, b, seen')
  {
    var log' := log + more;
    assert forall i :: 0 <= i < |log| ==> log'[i] == log[i];
    forall d | d in deliveries ensures DeliveryOk(deliveries[d], log', b, seen') {
      assert DeliveryOk(deliveries[d], log, a, seen);
    }
  }

  lemma OutboxFrame(cfg: Config, outbox: map<int, OutboxEvent>, a: map<int, Message>, b: map<int, Message>,
                    log: seq<Record>, claims: map<Claim, ClaimPhase>, publishes: seq<Claim>)
    requires OutboxOk(cfg, outbox, a, log, claims, publishes)
    requires Evolves(a, b)
    ensures OutboxOk(cfg, outbox, b, log, claims, publishes)
  {
    forall e | e in outbox ensures EventOk(outbox[e], b, log) {
      assert EventOk(outbox[e], a, log);
    }
  }
}
