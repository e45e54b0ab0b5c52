/** Every step except the send transaction keeps the invariant. */
module Preservation {
  import opened Domain
  import opened Tables
  import opened Protocol
  import opened Invariants

  // ---- API ----

  /** Load under the invariant: it misses exactly when there is no request, a hit is the stored
      answer of the same body, and a mismatch is a stored request with another body. */
  lemma LoadMeaning(cfg: Config, requests: map<int, Request>, user: int, key: string, hash: Hash)
    requires Unique(requests) && hash != NoHash
    requires forall r :: r in requests ==> requests[r].hash.Digest? && requests[r].response.Some?
    ensures Load(requests, user, key, hash).Miss? <==> !HasRequest(requests, user, key)
    ensures Load(requests, user, key, hash).Mismatch? <==> Clash(requests, user, key, hash)
    ensures forall result ::
              Load(requests, user, key, hash) == Hit(result) <==> Bound(requests, user, key, hash, result)
  {
    if HasRequest(requests, user, key) {
      var id :| Matches(requests, id, user, key) && Load(requests, user, key, hash) == Judge(requests[id], hash);
      if requests[id].hash == hash {
        assert BoundAt(requests, id, user, key, hash, requests[id].response.value);
      } else {
        assert ClashAt(requests, id, user, key, hash);
      }
      forall j | Matches(requests, j, user, key) ensures j == id {}
    }
  }

  lemma FinishKeeps(cfg: Config, s: State, pid: int, cmd: SendRequest, reply: Reply)
    requires Inv(cfg, s) && AnswerOk(s.db.requests, s.db.users.Keys, Answer(cmd, reply))
    ensures Inv(cfg, Finish(s, pid, cmd, reply))
  {
    hide RowsOk, MoneyOk, RefundsOk, LogOk, OutboxOk, DeliveryStateOk, ProviderOk, CacheOk, SendOk;
  }

  lemma MoveSendKeeps(cfg: Config, s: State, pid: int, pc: SendPc)
    requires Inv(cfg, s) && SendOk(s.db.requests, pc)
    ensures Inv(cfg, s.(sends := s.sends[pid := pc]))
  {
    hide RowsOk, MoneyOk, RefundsOk, LogOk, OutboxOk, DeliveryStateOk, ProviderOk, CacheOk, AnswerOk;
  }

  lemma ReadCacheKeeps(cfg: Config, s: State, pid: int, broken: bool)
    requires Inv(cfg, s) && Enabled(cfg, s, ReadCache(pid, broken))
    ensures Inv(cfg, DoReadCache(s, pid, broken))
  {
    hide RowsOk, MoneyOk, RefundsOk, LogOk, OutboxOk, DeliveryStateOk, ProviderOk;
    var cmd := s.sends[pid].cmd;
    if !broken && CacheHit(s.cache, cmd.userId, cmd.key, PayloadHash(cmd)) {
      var entry := s.cache[(cmd.userId, cmd.key)];
      assert Bound(s.db.requests, cmd.userId, cmd.key, entry.hash, entry.result);
      assert entry.hash == PayloadHash(cmd);
      FinishKeeps(cfg, s, pid, cmd, Success(entry.result));
    } else {
      MoveSendKeeps(cfg, s, pid, LookingUp(cmd));
    }
  }

  lemma StoredComplete(cfg: Config, s: State)
    requires Inv(cfg, s)
    ensures forall r :: r in s.db.requests ==> s.db.requests[r].hash.Digest? && s.db.requests[r].response.Some?
    ensures Unique(s.db.requests)
  {
    forall r | r in s.db.requests ensures s.db.requests[r].hash.Digest? && s.db.requests[r].response.Some? {
      assert RequestOk(cfg, r, s.db.requests[r], Contents(s.db.messages));
    }
  }

  lemma ReadDbKeeps(cfg: Config, s: State, pid: int, broken: bool)
    requires Inv(cfg, s) && Enabled(cfg, s, ReadDb(pid, broken))
    ensures Inv(cfg, DoReadDb(s, pid, broken))
  {
    var cmd := s.sends[pid].cmd;
    StoredComplete(cfg, s);
    LoadMeaning(cfg, s.db.requests, cmd.userId, cmd.key, PayloadHash(cmd));
    if broken {
      FinishKeeps(cfg, s, pid, cmd, Broken);
    } else {
      match Load(s.db.requests, cmd.userId, cmd.key, PayloadHash(cmd))
      case Mismatch => FinishKeeps(cfg, s, pid, cmd, Conflict);
      case Miss => MoveSendKeeps(cfg, s, pid, Persisting(cmd));
      case Hit(result) => MoveSendKeeps(cfg, s, pid, Saving(cmd, result));
    }
  }

  /** After a unique conflict the first poll answers: the winner's request is visible and complete. */
  lemma FirstPollAnswers(cfg: Config, s: State, pid: int)
    requires Inv(cfg, s) && Enabled(cfg, s, Poll(pid, false))
    ensures var cmd := s.sends[pid].cmd;
            !Load(s.db.requests, cmd.userId, cmd.key, PayloadHash(cmd)).Miss?
  {
    var cmd := s.sends[pid].cmd;
    StoredComplete(cfg, s);
    assert SendOk(s.db.requests, s.sends[pid]);
    LoadMeaning(cfg, s.db.requests, cmd.userId, cmd.key, PayloadHash(cmd));
  }

  lemma PollKeeps(cfg: Config, s: State, pid: int, broken: bool)
    requires Inv(cfg, s) && Enabled(cfg, s, Poll(pid, broken))
    ensures Inv(cfg, DoPoll(s, pid, broken))
  {
    var cmd := s.sends[pid].cmd;
    StoredComplete(cfg, s);
    LoadMeaning(cfg, s.db.requests, cmd.userId, cmd.key, PayloadHash(cmd));
    FirstPollAnswers(cfg, s, pid);
    if broken {
      FinishKeeps(cfg, s, pid, cmd, Broken);
    } else if Load(s.db.requests, cmd.userId, cmd.key, PayloadHash(cmd)).Mismatch? {
      FinishKeeps(cfg, s, pid, cmd, Conflict);
    } else {
      MoveSendKeeps(cfg, s, pid, Saving(cmd, Load(s.db.requests, cmd.userId, cmd.key, PayloadHash(cmd)).result));
    }
  }

  lemma SaveCacheKeeps(cfg: Config, s: State, pid: int, saved: bool, last: bool)
    requires Inv(cfg, s) && Enabled(cfg, s, SaveCache(pid, saved, last))
    ensures Inv(cfg, DoSaveCache(s, pid, saved, last))
  {
    hide RowsOk, MoneyOk, RefundsOk, LogOk, OutboxOk, DeliveryStateOk, ProviderOk;
    var Saving(cmd, result) := s.sends[pid];
    assert SendOk(s.db.requests, s.sends[pid]);
    var entry := CacheEntry(PayloadHash(cmd), result);
    var s1 := if saved then s.(cache := s.cache[(cmd.userId, cmd.key) := entry]) else s;
    assert Inv(cfg, s1);
    if last { FinishKeeps(cfg, s1, pid, cmd, Success(result)); }
  }

  lemma CrashSendKeeps(cfg: Config, s: State, pid: int)
    requires Inv(cfg, s)
    ensures Inv(cfg, s.(sends := s.sends - {pid}))
  {
    hide RowsOk, MoneyOk, RefundsOk, LogOk, OutboxOk, DeliveryStateOk, ProviderOk, CacheOk, SendOk, AnswerOk;
  }

  lemma EvictKeeps(cfg: Config, s: State, user: int, key: string)
    requires Inv(cfg, s)
    ensures Inv(cfg, s.(cache := s.cache - {(user, key)}))
  {
    hide RowsOk, MoneyOk, RefundsOk, LogOk, OutboxOk, DeliveryStateOk, ProviderOk, SendOk, AnswerOk, Bound;
  }

  lemma TickKeeps(cfg: Config, s: State, ms: nat)
    requires Inv(cfg, s)
    ensures Inv(cfg, s.(now := s.now + ms))
  {
    hide RowsOk, MoneyOk, RefundsOk, LogOk, OutboxOk, DeliveryStateOk, ProviderOk, ApiOk;
  }

  lemma TopUpKeeps(cfg: Config, s: State, user: int, amount: int)
    requires Inv(cfg, s) && Enabled(cfg, s, TopUp(user, amount))
    ensures Inv(cfg, DoTopUp(s, user, amount))
  {
    hide RowsOk, RefundsOk, LogOk, OutboxOk, DeliveryStateOk, ProviderOk, ApiOk;
    assert DoTopUp(s, user, amount).db.users.Keys == s.db.users.Keys;
  }

  // ---- outbox worker ----

  lemma UpdateOutboxKeeps(cfg: Config, s: State, outbox: map<int, OutboxEvent>)
    requires Inv(cfg, s)
    requires outbox.Keys == s.db.outbox.Keys && OutboxEvolves(s.db.outbox, outbox)
    requires forall e :: e in outbox ==> EventOk(outbox[e], s.db.messages, s.log)
    ensures Inv(cfg, s.(db := s.db.(outbox := outbox)))
  {
    hide RowsOk, MoneyOk, RefundsOk, LogOk, DeliveryStateOk, ProviderOk, ApiOk;
    SameHeaders(s.db.outbox, outbox);
    forall c | c in s.claims ensures ClaimOk(cfg, c, s.claims[c], outbox, s.log, s.hist.publishes) {
      assert ClaimOk(cfg, c, s.claims[c], s.db.outbox, s.log, s.hist.publishes);
      assert HeaderOf(outbox[c.event]) == HeaderOf(s.db.outbox[c.event]);
    }
  }

  lemma DropClaimKeeps(cfg: Config, s: State, c: Claim)
    requires Inv(cfg, s)
    ensures Inv(cfg, s.(claims := s.claims - {c}))
  {
    hide RowsOk, MoneyOk, RefundsOk, LogOk, DeliveryStateOk, ProviderOk, ApiOk;
  }

  // New claims carry the attempt number just written, which no call to Publish has used.
  lemma NewClaimsOk(cfg: Config, outbox: map<int, OutboxEvent>, messages: map<int, Message>, log: seq<Record>,
                    claims: map<Claim, ClaimPhase>, publishes: seq<Claim>, ids: set<int>, now: int)
    requires OutboxOk(cfg, outbox, messages, log, claims, publishes) && ids <= outbox.Keys
    ensures OutboxOk(cfg, ClaimRows(outbox, ids, now), messages, log,
                     claims + (map c | c in ClaimsOf(outbox, ids) :: Claimed), publishes)
  {
    var outbox' := ClaimRows(outbox, ids, now);
    var claims' := claims + map c | c in ClaimsOf(outbox, ids) :: Claimed;
    forall e | e in outbox' ensures EventOk(outbox'[e], messages, log) {
      assert EventOk(outbox[e], messages, log);
    }
    forall c | c in claims' ensures ClaimOk(cfg, c, claims'[c], outbox', log, publishes) {
      if c in ClaimsOf(outbox, ids) {
        assert EventOk(outbox[c.event], messages, log);
      } else {
        assert ClaimOk(cfg, c, claims[c], outbox, log, publishes);
      }
    }
  }

  lemma ClaimRowsEvolve(outbox: map<int, OutboxEvent>, ids: set<int>, now: int)
    requires forall id :: id in ids ==> id in outbox && Open(outbox[id])
    ensures OutboxEvolves(outbox, ClaimRows(outbox, ids, now))
    ensures Headers(ClaimRows(outbox, ids, now)) == Headers(outbox)
  {
    assert ClaimRows(outbox, ids, now).Keys == outbox.Keys;
    SameHeaders(outbox, ClaimRows(outbox, ids, now));
  }

  lemma ClaimBatchKeeps(cfg: Config, s: State, ids: set<int>)
    requires Inv(cfg, s) && Enabled(cfg, s, ClaimBatch(ids))
    ensures Inv(cfg, DoClaimBatch(s, ids))
  {
    hide RowsOk, MoneyOk, RefundsOk, LogOk, DeliveryStateOk, ProviderOk, ApiOk;
    ClaimRowsEvolve(s.db.outbox, ids, s.now);
    NewClaimsOk(cfg, s.db.outbox, s.db.messages, s.log, s.claims, s.hist.publishes, ids, s.now);
  }

  lemma PublishOutboxOk(cfg: Config, outbox: map<int, OutboxEvent>, messages: map<int, Message>, log: seq<Record>,
                        claims: map<Claim, ClaimPhase>, publishes: seq<Claim>, c: Claim, more: seq<Record>, ok: bool)
    requires OutboxOk(cfg, outbox, messages, log, claims, publishes)
    requires c in claims && claims[c].Claimed? && c.attempt <= cfg.maxAttempts
    requires ok ==> InLog(more, outbox[c.event].aggregateId)
    ensures OutboxOk(cfg, outbox, messages, log + more, claims[c := if ok then PublishOk else PublishErr],
                     publishes + [c])
  {
    var log', claims' := log + more, claims[c := if ok then PublishOk else PublishErr];
    assert ClaimOk(cfg, c, claims[c], outbox, log, publishes);
    forall x | x in outbox ensures EventOk(outbox[x], messages, log') {
      assert EventOk(outbox[x], messages, log);
      if InLog(log, outbox[x].aggregateId) { InLogGrows(log, more, outbox[x].aggregateId); }
    }
    forall x | x in claims' ensures ClaimOk(cfg, x, claims'[x], outbox, log', publishes + [c]) {
      assert ClaimOk(cfg, x, claims[x], outbox, log, publishes);
      if InLog(log, outbox[x.event].aggregateId) { InLogGrows(log, more, outbox[x.event].aggregateId); }
      if x == c && ok {
        var i :| 0 <= i < |more| && more[i].value.messageId == outbox[c.event].aggregateId;
        assert log'[|log| + i] == more[i];
      }
    }
  }

  lemma PublishKeeps(cfg: Config, s: State, c: Claim, appended: bool, ok: bool)
    requires Inv(cfg, s) && Enabled(cfg, s, Publish(c, appended, ok))
    ensures Inv(cfg, DoPublish(s, c, appended, ok))
  {
    hide MoneyOk, RefundsOk, ProviderOk, ApiOk;
    var e := s.db.outbox[c.event];
    var more := if appended then [RecordFor(e)] else [];
    var s1 := DoPublish(s, c, appended, ok);
    assert s1.log == s.log + more;
    assert EventOk(e, s.db.messages, s.log);
    assert Headers(s.db.outbox)[c.event] == HeaderOf(e);
    DeliveryFrame(s.deliveries, s.acked, s.log, more, s.db.messages, s.db.messages, s.seen, s.seen);
    if appended { assert more[0].value.messageId == e.aggregateId; }
    PublishOutboxOk(cfg, s.db.outbox, s.db.messages, s.log, s.claims, s.hist.publishes, c, more, ok);
  }

  lemma MarkPublishedKeeps(cfg: Config, s: State, c: Claim, fate: Fate)
    requires Inv(cfg, s) && Enabled(cfg, s, Step.MarkPublished(c, fate))
    ensures Inv(cfg, DoMarkPublished(s, c, fate))
  {
    hide RowsOk, MoneyOk, RefundsOk, LogOk, DeliveryStateOk, ProviderOk, ApiOk;
    if !fate.Aborted? {
      var outbox := Tables.MarkPublished(s.db.outbox, c.event, s.now);
      assert ClaimOk(cfg, c, s.claims[c], s.db.outbox, s.log, s.hist.publishes);
      assert outbox.Keys == s.db.outbox.Keys;
      forall e | e in outbox ensures EventOk(outbox[e], s.db.messages, s.log) {
        assert EventOk(s.db.outbox[e], s.db.messages, s.log);
      }
      UpdateOutboxKeeps(cfg, s, outbox);
      DropClaimKeeps(cfg, s.(db := s.db.(outbox := outbox)), c);
    } else {
      DropClaimKeeps(cfg, s, c);
    }
  }

  lemma RecordFailureKeeps(cfg: Config, s: State, c: Claim, err: string, fate: Fate)
    requires Inv(cfg, s) && Enabled(cfg, s, Step.RecordFailure(c, err, fate))
    ensures Inv(cfg, DoRecordFailure(s, c, err, fate))
  {
    hide RowsOk, MoneyOk, RefundsOk, LogOk, DeliveryStateOk, ProviderOk, ApiOk;
    if !fate.Aborted? {
      var outbox := Tables.RecordFailure(s.db.outbox, c.event, err);
      assert outbox.Keys == s.db.outbox.Keys by {
        assert ClaimOk(cfg, c, s.claims[c], s.db.outbox, s.log, s.hist.publishes);
      }
      forall e | e in outbox ensures EventOk(outbox[e], s.db.messages, s.log) {
        assert EventOk(s.db.outbox[e], s.db.messages, s.log);
      }
      UpdateOutboxKeeps(cfg, s, outbox);
      DropClaimKeeps(cfg, s.(db := s.db.(outbox := outbox)), c);
    } else {
      DropClaimKeeps(cfg, s, c);
    }
  }

  // ---- delivery ----

  lemma LeaveKeeps(cfg: Config, s: State, did: int)
    requires Inv(cfg, s)
    ensures Inv(cfg, Leave(s, did))
  {
    hide RowsOk, MoneyOk, RefundsOk, LogOk, OutboxOk, ProviderOk, ApiOk;
  }

  lemma EnterKeeps(cfg: Config, s: State, did: int, p: Phase)
    requires Inv(cfg, s) && did in s.deliveries
    requires DeliveryOk(s.deliveries[did].(phase := p), s.log, s.db.messages, s.seen)
    ensures Inv(cfg, Enter(s, did, p))
  {
    hide RowsOk, MoneyOk, RefundsOk, LogOk, OutboxOk, ProviderOk, ApiOk;
  }

  lemma UpdateMessagesKeeps(cfg: Config, s: State, messages: map<int, Message>)
    requires Inv(cfg, s)
    requires messages.Keys == s.db.messages.Keys && Evolves(s.db.messages, messages)
    requires RefundsOk(messages, s.hist.refunds)
    requires forall m :: m in messages && messages[m].status.MessageSent? ==> KeyOf(m) in s.seen
    ensures Inv(cfg, s.(db := s.db.(messages := messages)))
  {
    hide RowsOk, MoneyOk, RefundsOk, LogOk, OutboxOk, DeliveryStateOk, ProviderOk, ApiOk;
    SameContents(s.db.messages, messages);
    assert s.log + [] == s.log;
    DeliveryFrame(s.deliveries, s.acked, s.log, [], s.db.messages, messages, s.seen, s.seen);
    OutboxFrame(cfg, s.db.outbox, s.db.messages, messages, s.log, s.claims, s.hist.publishes);
  }

  // One row gets a new status that is not queued, not rejected, and does not leave {sent, failed}.
  lemma UpdateRowKeeps(cfg: Config, s: State, id: int, row: Message)
    requires Inv(cfg, s) && id in s.db.messages
    requires ContentOf(row) == ContentOf(s.db.messages[id])
    requires !row.status.MessageQueued? && !row.status.MessageRejected?
    requires Terminal(s.db.messages[id]) ==> Terminal(row)
    requires row.errorCode == Some(OutboxExhausted) ==> row.status.MessageFailed? && IsRefunded(s.hist.refunds, id)
    requires row.status.MessageSent? ==> KeyOf(id) in s.seen
    ensures Inv(cfg, s.(db := s.db.(messages := s.db.messages[id := row])))
  {
    hide RowsOk, MoneyOk, LogOk, OutboxOk, ProviderOk, ApiOk;
    UpdateMessagesKeeps(cfg, s, s.db.messages[id := row]);
  }

  lemma TryClaimKeeps(cfg: Config, s: State, did: int, fate: Fate)
    requires Inv(cfg, s) && Enabled(cfg, s, TryClaim(did, fate))
    ensures Inv(cfg, DoTryClaim(s, did, fate))
  {
    hide RowsOk, MoneyOk, LogOk, OutboxOk, ProviderOk, ApiOk;
    var id := EventOf(s, did).messageId;
    assert DeliveryOk(s.deliveries[did], s.log, s.db.messages, s.seen);
    var s1 := if fate.Aborted? then s else s.(db := s.db.(messages := ClaimMessage(s.db.messages, id, s.now)));
    if !fate.Aborted? && ClaimableMessage(s.db.messages, id, s.now) {
      UpdateRowKeeps(cfg, s, id, s.db.messages[id].(status := MessageSending, updatedAt := s.now));
    }
    assert Inv(cfg, s1);
    if !fate.Done? {
      LeaveKeeps(cfg, s1, did);
    } else if ClaimableMessage(s.db.messages, id, s.now) {
      EnterKeeps(cfg, s1, did, Calling(1, s.now, s.now));
    } else {
      EnterKeeps(cfg, s1, did, Checking);
    }
  }

  lemma CheckKeeps(cfg: Config, s: State, did: int, broken: bool)
    requires Inv(cfg, s) && Enabled(cfg, s, Check(did, broken))
    ensures Inv(cfg, DoCheck(s, did, broken))
  {
    hide RowsOk, MoneyOk, LogOk, OutboxOk, ProviderOk, ApiOk;
    assert DeliveryOk(s.deliveries[did], s.log, s.db.messages, s.seen);
    if broken || Classify(s.db.messages, EventOf(s, did).messageId).ClaimInFlight? {
      LeaveKeeps(cfg, s, did);
    } else {
      EnterKeeps(cfg, s, did, Acking);
    }
  }

  lemma OneMoreSms(seen: set<string>, sms: seq<Sms>, contents: map<int, Content>, m: int)
    requires ProviderOk(seen, sms, contents) && m in contents && KeyOf(m) !in seen
    ensures ProviderOk(seen + {KeyOf(m)}, sms + [Sms(KeyOf(m), m, contents[m].recipient, contents[m].text)], contents)
  {
    var key := KeyOf(m);
    var sms' := sms + [Sms(key, m, contents[m].recipient, contents[m].text)];
    assert sms'[|sms|].key == key;
    assert forall i :: 0 <= i < |sms| ==> sms'[i] == sms[i];
    forall k | k in seen + {key} ensures exists i :: 0 <= i < |sms'| && sms'[i].key == k {
      if k in seen {
        var i :| 0 <= i < |sms| && sms[i].key == k;
        assert sms'[i].key == k;
      }
    }
  }

  lemma ReachKeeps(cfg: Config, s: State, did: int)
    requires Inv(cfg, s) && AtPhase(s, did)
    ensures Inv(cfg, Reach(s, EventOf(s, did)))
  {
    hide RowsOk, MoneyOk, RefundsOk, OutboxOk, ApiOk;
    var e := EventOf(s, did);
    var m := e.messageId;
    assert s.log[s.deliveries[did].offset] == RecordFor(EventRow(cfg, m, Contents(s.db.messages)[m]));
    if KeyOf(m) !in s.seen {
      OneMoreSms(s.seen, s.sms, Contents(s.db.messages), m);
      assert s.log + [] == s.log;
      DeliveryFrame(s.deliveries, s.acked, s.log, [], s.db.messages, s.db.messages, s.seen, Reach(s, e).seen);
    }
  }

  lemma AfterCallKeeps(cfg: Config, s: State, did: int, result: CallResult, delay: int)
    requires Inv(cfg, s) && did in s.deliveries && s.deliveries[did].phase.Calling?
    requires result.Ok? ==> AtPhase(s, did) && KeyOf(EventOf(s, did).messageId) in s.seen
    ensures Inv(cfg, AfterCall(s, did, result, delay))
  {
    hide RowsOk, MoneyOk, RefundsOk, LogOk, OutboxOk, ProviderOk, ApiOk;
    assert DeliveryOk(s.deliveries[did], s.log, s.db.messages, s.seen);
    var Calling(attempt, claimedAt, _) := s.deliveries[did].phase;
    match result
    case Ok => EnterKeeps(cfg, s, did, Accepted(claimedAt, s.now));
    case Canceled => LeaveKeeps(cfg, s, did);
    case Err =>
      if attempt == MAX_PROVIDER_ATTEMPTS {
        EnterKeeps(cfg, s, did, GaveUp(claimedAt, s.now));
      } else {
        EnterKeeps(cfg, s, did, Phase.Waiting(attempt, claimedAt, s.now, delay));
      }
  }

  lemma CallProviderKeeps(cfg: Config, s: State, did: int, result: CallResult, reached: bool, delay: int)
    requires Inv(cfg, s) && CanCallProvider(s, did, result, reached, delay)
    ensures Inv(cfg, DoCallProvider(s, did, result, reached, delay))
  {
    hide Inv;
    if reached { ReachKeeps(cfg, s, did); }
    AfterCallKeeps(cfg, if reached then Reach(s, EventOf(s, did)) else s, did, result, delay);
  }

  lemma WakeKeeps(cfg: Config, s: State, did: int)
    requires Inv(cfg, s) && did in s.deliveries && s.deliveries[did].phase.Waiting?
    ensures Inv(cfg, DoWake(s, did))
  {
    hide RowsOk, MoneyOk, LogOk, OutboxOk, ProviderOk, ApiOk;
    assert DeliveryOk(s.deliveries[did], s.log, s.db.messages, s.seen);
    var Waiting(attempt, claimedAt, _, _) := s.deliveries[did].phase;
    EnterKeeps(cfg, s, did, Calling(attempt + 1, claimedAt, s.now));
  }

  lemma MarkKeeps(cfg: Config, s: State, did: int, row: Message, fate: Fate)
    requires Inv(cfg, s) && AtPhase(s, did) && EventOf(s, did).messageId in s.db.messages
    requires ContentOf(row) == ContentOf(s.db.messages[EventOf(s, did).messageId])
    requires Terminal(row) && row.errorCode != Some(OutboxExhausted)
    requires row.status.MessageSent? ==> KeyOf(EventOf(s, did).messageId) in s.seen
    ensures Inv(cfg, DoMark(s, did, s.db.messages[EventOf(s, did).messageId := row], fate))
  {
    hide RowsOk, MoneyOk, LogOk, OutboxOk, ProviderOk, ApiOk;
    var id := EventOf(s, did).messageId;
    var s1 := if fate.Aborted? then s else s.(db := s.db.(messages := s.db.messages[id := row]));
    UpdateRowKeeps(cfg, s, id, row);
    assert DeliveryOk(s1.deliveries[did], s1.log, s1.db.messages, s1.seen);
    if fate.Done? { EnterKeeps(cfg, s1, did, Acking); } else { LeaveKeeps(cfg, s1, did); }
  }

  lemma MarkSentKeeps(cfg: Config, s: State, did: int, fate: Fate)
    requires Inv(cfg, s) && Enabled(cfg, s, Step.MarkSent(did, fate))
    ensures Inv(cfg, DoMarkSent(s, did, fate))
  {
    hide RowsOk, MoneyOk, LogOk, OutboxOk, ProviderOk, ApiOk;
    assert DeliveryOk(s.deliveries[did], s.log, s.db.messages, s.seen);
    var id := EventOf(s, did).messageId;
    MarkKeeps(cfg, s, did, s.db.messages[id].(status := MessageSent, errorCode := None, updatedAt := s.now), fate);
  }

  lemma MarkFailedKeeps(cfg: Config, s: State, did: int, fate: Fate)
    requires Inv(cfg, s) && Enabled(cfg, s, Step.MarkFailed(did, fate))
    ensures Inv(cfg, DoMarkFailed(s, did, fate))
  {
    hide RowsOk, MoneyOk, LogOk, OutboxOk, ProviderOk, ApiOk;
    assert DeliveryOk(s.deliveries[did], s.log, s.db.messages, s.seen);
    var id := EventOf(s, did).messageId;
    MarkKeeps(cfg, s, did,
              s.db.messages[id].(status := MessageFailed, errorCode := Some(ProviderError), updatedAt := s.now), fate);
  }

  lemma AckKeeps(cfg: Config, s: State, did: int, committed: bool)
    requires Inv(cfg, s) && Enabled(cfg, s, Ack(did, committed))
    ensures Inv(cfg, DoAck(s, did, committed))
  {
    hide RowsOk, MoneyOk, RefundsOk, LogOk, OutboxOk, ProviderOk, ApiOk;
    assert DeliveryOk(s.deliveries[did], s.log, s.db.messages, s.seen);
  }

  // ---- dead letter ----

  lemma RefundedSnoc(refunds: seq<Refund>, r: Refund, user: int)
    ensures Refunded(refunds + [r], user) == Refunded(refunds, user) + if r.userId == user then r.amount else 0
  {
    assert (refunds + [r])[..|refunds|] == refunds;
  }

  // Failing the message and refunding it, in one transaction.
  function Compensate(s: State, id: int): State
    requires id in s.db.messages
  {
    var m := s.db.messages[id];
    s.(db := s.db.(messages := Tables.MarkFailed(s.db.messages, id, OutboxExhausted, s.now),
                   users := AddBalance(s.db.users, m.userId, m.cost)),
       hist := s.hist.(refunds := s.hist.refunds + [Refund(id, m.userId, m.cost)]))
  }

  lemma CompensateMoney(cfg: Config, s: State, id: int)
    requires Inv(cfg, s) && Undelivered(s.db.messages, id)
    ensures var s1 := Compensate(s, id);
            && s1.db.users.Keys == s.db.users.Keys
            && MoneyOk(s1.db.users, Contents(s.db.messages), s1.hist.deposits, s1.hist.refunds)
  {
    var m := s.db.messages[id];
    var s1 := Compensate(s, id);
    assert Contents(s.db.messages)[id].userId == m.userId && m.cost == cfg.smsCost;
    assert s1.db.users.Keys == s.db.users.Keys;
    forall u | u in s1.db.users
      ensures 0 <= s1.db.users[u]
           && s1.db.users[u] + Spent(Contents(s.db.messages), u) == s1.hist.deposits[u] + Refunded(s1.hist.refunds, u)
    {
      RefundedSnoc(s.hist.refunds, Refund(id, m.userId, m.cost), u);
    }
  }

  lemma CompensateRefunds(cfg: Config, s: State, id: int)
    requires Inv(cfg, s) && Undelivered(s.db.messages, id)
    ensures var s1 := Compensate(s, id); RefundsOk(s1.db.messages, s1.hist.refunds)
  {
    var s1 := Compensate(s, id);
    var n := |s.hist.refunds|;
    var rs := s1.hist.refunds;
    assert rs[n].messageId == id && forall i :: 0 <= i < n ==> rs[i] == s.hist.refunds[i];
    forall m | m in s1.db.messages && s1.db.messages[m].errorCode == Some(OutboxExhausted)
      ensures s1.db.messages[m].status.MessageFailed? && IsRefunded(rs, m)
    {
      if m != id {
        var i :| 0 <= i < n && s.hist.refunds[i].messageId == m;
        assert rs[i].messageId == m;
      }
    }
  }

  lemma CompensateKeeps(cfg: Config, s: State, id: int)
    requires Inv(cfg, s) && Undelivered(s.db.messages, id)
    ensures Inv(cfg, Compensate(s, id))
  {
    hide RowsOk, MoneyOk, RefundsOk, LogOk, OutboxOk, ProviderOk, ApiOk;
    var s1 := Compensate(s, id);
    CompensateMoney(cfg, s, id);
    CompensateRefunds(cfg, s, id);
    SameContents(s.db.messages, s1.db.messages);
    assert s.log + [] == s.log;
    DeliveryFrame(s.deliveries, s.acked, s.log, [], s.db.messages, s1.db.messages, s.seen, s.seen);
    OutboxFrame(cfg, s.db.outbox, s.db.messages, s1.db.messages, s.log, s.claims, s.hist.publishes);
  }

  // Closing an event is sound once its message is terminal.
  lemma CloseKeeps(cfg: Config, s: State, c: Claim, err: string)
    requires Inv(cfg, s) && c.event in s.db.outbox
    requires s.db.outbox[c.event].aggregateId in s.db.messages
    requires Terminal(s.db.messages[s.db.outbox[c.event].aggregateId])
    ensures Inv(cfg, s.(db := s.db.(outbox := CloseEvent(s.db.outbox, c.event, err))))
  {
    hide RowsOk, MoneyOk, RefundsOk, LogOk, DeliveryStateOk, ProviderOk, ApiOk;
    var outbox := CloseEvent(s.db.outbox, c.event, err);
    assert outbox.Keys == s.db.outbox.Keys;
    forall e | e in outbox ensures EventOk(outbox[e], s.db.messages, s.log) {
      assert EventOk(s.db.outbox[e], s.db.messages, s.log);
    }
    UpdateOutboxKeeps(cfg, s, outbox);
  }

  // A dead letter as the two halves of its transaction.
  lemma FinalizeShape(cfg: Config, s: State, c: Claim, err: string, fate: Fate)
    requires Inv(cfg, s) && Enabled(cfg, s, Finalize(c, err, fate)) && !fate.Aborted?
    ensures var id := s.db.outbox[c.event].aggregateId;
            && id in s.db.messages
            && (var s1 := if Undelivered(s.db.messages, id) then Compensate(s, id) else s;
                var s2 := s1.(db := s1.db.(outbox := CloseEvent(s.db.outbox, c.event, err)));
                && DoFinalize(s, c, err, fate)
                     == s2.(claims := if fate.Done? then s.claims - {c} else s.claims[c := FinalizeErr])
                && Terminal(s1.db.messages[id]))
  {
    var id := s.db.outbox[c.event].aggregateId;
    assert EventOk(s.db.outbox[c.event], s.db.messages, s.log);
    assert Contents(s.db.messages)[id].cost == cfg.smsCost;
  }

  lemma FinalizeKeeps(cfg: Config, s: State, c: Claim, err: string, fate: Fate)
    requires Inv(cfg, s) && Enabled(cfg, s, Finalize(c, err, fate))
    ensures Inv(cfg, DoFinalize(s, c, err, fate))
  {
    assert ClaimOk(cfg, c, s.claims[c], s.db.outbox, s.log, s.hist.publishes);
    if !fate.Aborted? {
      FinalizeShape(cfg, s, c, err, fate);
      var id := s.db.outbox[c.event].aggregateId;
      var s1 := if Undelivered(s.db.messages, id) then Compensate(s, id) else s;
      if Undelivered(s.db.messages, id) { CompensateKeeps(cfg, s, id); }
      CloseKeeps(cfg, s1, c, err);
      var s2 := s1.(db := s1.db.(outbox := CloseEvent(s.db.outbox, c.event, err)));
      if fate.Done? { DropClaimKeeps(cfg, s2, c); } else { MoveClaimKeeps(cfg, s2, c); }
    } else {
      MoveClaimKeeps(cfg, s, c);
    }
  }

  lemma MoveClaimKeeps(cfg: Config, s: State, c: Claim)
    requires Inv(cfg, s) && c in s.claims
    ensures Inv(cfg, s.(claims := s.claims[c := FinalizeErr]))
  {
    hide RowsOk, MoneyOk, RefundsOk, LogOk, DeliveryStateOk, ProviderOk, ApiOk;
    assert ClaimOk(cfg, c, s.claims[c], s.db.outbox, s.log, s.hist.publishes);
  }
}
