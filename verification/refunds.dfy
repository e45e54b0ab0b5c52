/** When a refund is final: runs without outbox takeovers never deliver a refunded message, and
    a refund without an unfinished delivery claim is never overwritten. */
module Refunds {
  import opened Domain
  import opened Sums
  import opened Tables
  import opened Protocol
  import opened Invariants
  import opened Runs
  import opened Shapes
  import Persisting
  import Provider

  // ---- never delivered ----

  // No outbox lease goes stale, an error of Publish means nothing was appended, and neither a crash
  // nor a database error separates a successful Publish from its mark.
  ghost predicate Careful(s: State, step: Step) {
    match step
    case ClaimBatch(ids) => forall e :: e in ids && e in s.db.outbox ==> s.db.outbox[e].status.OutboxPending?
    case Publish(_, appended, ok) => appended == ok
    case MarkPublished(_, fate) => !fate.Aborted?
    case CrashClaim(c) => !InPhase(s, c, PublishOk)
    case _ => true
  }

  ghost predicate CleanClaim(c: Claim, p: ClaimPhase, outbox: map<int, OutboxEvent>) {
    && c.event in outbox && c.attempt == outbox[c.event].attempts
    && (outbox[c.event].status.OutboxPublishing? || (p.FinalizeErr? && outbox[c.event].status.OutboxFailed?))
  }

  ghost predicate CleanEvent(id: int, e: OutboxEvent, claims: map<Claim, ClaimPhase>, log: seq<Record>,
                             refunds: seq<Refund>) {
    var c := Claim(id, e.attempts);
    && (InLog(log, e.aggregateId) ==>
          e.status.OutboxPublished? || (e.status.OutboxPublishing? && c in claims && claims[c].PublishOk?))
    && (IsRefunded(refunds, e.aggregateId) ==> e.status.OutboxFailed?)
  }

  ghost predicate Clean(outbox: map<int, OutboxEvent>, claims: map<Claim, ClaimPhase>, log: seq<Record>,
                        refunds: seq<Refund>, sms: seq<Sms>) {
    && (forall c :: c in claims ==> CleanClaim(c, claims[c], outbox))
    && (forall e :: e in outbox ==> CleanEvent(e, outbox[e], claims, log, refunds))
    && (forall i :: 0 <= i < |sms| ==> InLog(log, sms[i].messageId))
  }

  ghost predicate CleanState(s: State) {
    Clean(s.db.outbox, s.claims, s.log, s.hist.refunds, s.sms)
  }

  // One event of each message.
  ghost predicate OneEventEach(outbox: map<int, OutboxEvent>) {
    forall e, f :: e in outbox && f in outbox && e != f ==> outbox[e].aggregateId != outbox[f].aggregateId
  }

  lemma EventsAreDistinct(cfg: Config, s: State)
    requires Inv(cfg, s)
    ensures OneEventEach(s.db.outbox)
  {
    hide MoneyOk, RefundsOk, LogOk, OutboxOk, DeliveryStateOk, ProviderOk, ApiOk;
    var h := Headers(s.db.outbox);
    forall e, f | e in s.db.outbox && f in s.db.outbox && e != f
      ensures s.db.outbox[e].aggregateId != s.db.outbox[f].aggregateId
    {
      assert h[e].aggregateId != h[f].aggregateId;
    }
  }

  lemma CleanClaimBatch(outbox: map<int, OutboxEvent>, claims: map<Claim, ClaimPhase>, log: seq<Record>,
                        refunds: seq<Refund>, sms: seq<Sms>, ids: set<int>, now: int)
    requires Clean(outbox, claims, log, refunds, sms)
    requires ids <= outbox.Keys && forall e :: e in ids ==> outbox[e].status.OutboxPending?
    ensures Clean(ClaimRows(outbox, ids, now), claims + (map c | c in ClaimsOf(outbox, ids) :: Claimed), log, refunds,
                  sms)
  {
    var o := ClaimRows(outbox, ids, now);
    var cs := claims + map c | c in ClaimsOf(outbox, ids) :: Claimed;
    forall c | c in cs ensures CleanClaim(c, cs[c], o) {
      if c !in ClaimsOf(outbox, ids) { assert CleanClaim(c, claims[c], outbox); }
    }
    forall e | e in o ensures CleanEvent(e, o[e], cs, log, refunds) {
      assert CleanEvent(e, outbox[e], claims, log, refunds);
      if e !in ids {
        var c := Claim(e, outbox[e].attempts);
        assert c !in ClaimsOf(outbox, ids);
      }
    }
  }

  lemma CleanPublish(outbox: map<int, OutboxEvent>, claims: map<Claim, ClaimPhase>, log: seq<Record>,
                     refunds: seq<Refund>, sms: seq<Sms>, c: Claim, ok: bool)
    requires Clean(outbox, claims, log, refunds, sms) && OneEventEach(outbox)
    requires c in claims && claims[c].Claimed? && c.event in outbox
    requires outbox[c.event].payload.messageId == outbox[c.event].aggregateId
    ensures Clean(outbox, claims[c := if ok then PublishOk else PublishErr],
                  if ok then log + [RecordFor(outbox[c.event])] else log, refunds, sms)
  {
    var cs := claims[c := if ok then PublishOk else PublishErr];
    var more := if ok then [RecordFor(outbox[c.event])] else [];
    assert (if ok then log + [RecordFor(outbox[c.event])] else log) == log + more;
    assert CleanClaim(c, claims[c], outbox);
    forall x | x in cs ensures CleanClaim(x, cs[x], outbox) {
      assert CleanClaim(x, claims[x], outbox);
    }
    forall e | e in outbox ensures CleanEvent(e, outbox[e], cs, log + more, refunds) {
      assert CleanEvent(e, outbox[e], claims, log, refunds);
      if InLog(log + more, outbox[e].aggregateId) && !InLog(log, outbox[e].aggregateId) {
        InLogTail(log, more, outbox[e].aggregateId);
        assert e == c.event;
      }
    }
    forall i | 0 <= i < |sms| ensures InLog(log + more, sms[i].messageId) {
      InLogGrows(log, more, sms[i].messageId);
    }
  }

  lemma InLogTail(log: seq<Record>, more: seq<Record>, m: int)
    requires InLog(log + more, m)
    ensures InLog(log, m) || InLog(more, m)
  {
    var i :| 0 <= i < |log + more| && (log + more)[i].value.messageId == m;
    if i < |log| { assert log[i].value.messageId == m; } else { assert more[i - |log|].value.messageId == m; }
  }

  // The claim ends; its event is now marked, reopened, or left alone.
  lemma CleanEnd(outbox: map<int, OutboxEvent>, claims: map<Claim, ClaimPhase>, log: seq<Record>,
                 refunds: seq<Refund>, sms: seq<Sms>, c: Claim, row: OutboxEvent)
    requires Clean(outbox, claims, log, refunds, sms) && c in claims && c.event in outbox
    requires row.aggregateId == outbox[c.event].aggregateId && row.attempts == outbox[c.event].attempts
    requires claims[c].PublishOk? ==> row.status.OutboxPublished?
    requires !claims[c].PublishOk? ==> row.status == outbox[c.event].status
                                       || (outbox[c.event].status.OutboxPublishing? && row.status.OutboxPending?)
    ensures Clean(outbox[c.event := row], claims - {c}, log, refunds, sms)
  {
    var o, cs := outbox[c.event := row], claims - {c};
    assert CleanClaim(c, claims[c], outbox);
    forall x | x in cs ensures CleanClaim(x, cs[x], o) {
      assert CleanClaim(x, claims[x], outbox);
      assert x.event != c.event;
    }
    forall e | e in o ensures CleanEvent(e, o[e], cs, log, refunds) {
      assert CleanEvent(e, outbox[e], claims, log, refunds);
      if e != c.event { assert Claim(e, outbox[e].attempts) != c; }
    }
  }

  lemma CleanFinalize(outbox: map<int, OutboxEvent>, claims: map<Claim, ClaimPhase>, log: seq<Record>,
                      refunds: seq<Refund>, sms: seq<Sms>, c: Claim, row: OutboxEvent, more: seq<Refund>, gone: bool)
    requires Clean(outbox, claims, log, refunds, sms) && OneEventEach(outbox) && c in claims && c.event in outbox
    requires claims[c].Claimed? || claims[c].PublishErr?
    requires row.aggregateId == outbox[c.event].aggregateId && row.attempts == outbox[c.event].attempts
    requires row.status.OutboxFailed? || (row == outbox[c.event] && more == [])
    requires forall i :: 0 <= i < |more| ==> more[i].messageId == row.aggregateId
    ensures Clean(outbox[c.event := row], if gone then claims - {c} else claims[c := FinalizeErr], log, refunds + more,
                  sms)
  {
    var o, cs := outbox[c.event := row], if gone then claims - {c} else claims[c := FinalizeErr];
    assert CleanClaim(c, claims[c], outbox);
    forall x | x in cs ensures CleanClaim(x, cs[x], o) {
      assert CleanClaim(x, claims[x], outbox);
      if x != c { assert x.event != c.event; }
    }
    forall e | e in o ensures CleanEvent(e, o[e], cs, log, refunds + more) {
      assert CleanEvent(e, outbox[e], claims, log, refunds);
      if IsRefunded(refunds + more, o[e].aggregateId) {
        var i :| 0 <= i < |refunds + more| && (refunds + more)[i].messageId == o[e].aggregateId;
        if i < |refunds| { assert refunds[i].messageId == o[e].aggregateId; }
        else { assert more[i - |refunds|].messageId == o[e].aggregateId; assert e == c.event; }
      }
      if e != c.event { assert Claim(e, outbox[e].attempts) != c; }
    }
  }

  lemma CleanPersist(cfg: Config, s: State, cmd: SendRequest, cs: seq<Message>, requestId: int, mids: seq<int>,
                     eids: seq<int>, db: Db, result: SendResult)
    requires Inv(cfg, s) && CleanState(s)
    requires Persisting.StoredBy(cfg, s, cmd, cs, requestId, mids, eids, db, result)
    ensures Clean(db.outbox, s.claims, s.log, s.hist.refunds, s.sms)
  {
    hide RowsOk, MoneyOk, OutboxOk, DeliveryStateOk, ProviderOk, ApiOk, SendTransaction, HasRequest;
    var rows := Persisting.StoredShape(cfg, s, cmd, cs, requestId, mids, eids, db, result);
    InsertFacts(s.db.outbox, eids, EventRows(cfg, mids, rows));
    forall c | c in s.claims ensures CleanClaim(c, s.claims[c], db.outbox) {
      assert CleanClaim(c, s.claims[c], s.db.outbox);
    }
    forall e | e in db.outbox ensures CleanEvent(e, db.outbox[e], s.claims, s.log, s.hist.refunds) {
      if e in s.db.outbox {
        assert CleanEvent(e, s.db.outbox[e], s.claims, s.log, s.hist.refunds);
      } else {
        var i :| 0 <= i < |eids| && eids[i] == e;
        assert db.outbox[e].aggregateId == mids[i] && mids[i] !in s.db.messages;
        assert mids[i] !in Contents(s.db.messages);
      }
    }
  }

  lemma PublishClean(cfg: Config, s: State, c: Claim, ok: bool)
    requires Inv(cfg, s) && CleanState(s) && CanPublish(cfg, s, c)
    ensures CleanState(DoPublish(s, c, ok, ok))
  {
    hide Clean, MoneyOk, RefundsOk, LogOk, OutboxOk, DeliveryStateOk, ProviderOk, ApiOk;
    EventsAreDistinct(cfg, s);
    assert HeaderOk(cfg, Headers(s.db.outbox)[c.event], Contents(s.db.messages));
    CleanPublish(s.db.outbox, s.claims, s.log, s.hist.refunds, s.sms, c, ok);
  }

  lemma EndClean(s: State, c: Claim, outbox: map<int, OutboxEvent>)
    requires CleanState(s) && c in s.claims && c.event in s.db.outbox
    requires outbox == s.db.outbox[c.event := if c.event in outbox then outbox[c.event] else s.db.outbox[c.event]]
    requires s.claims[c].PublishOk? ==> outbox == Tables.MarkPublished(s.db.outbox, c.event, s.now)
    requires !s.claims[c].PublishOk? ==>
               outbox == s.db.outbox || exists err :: outbox == Tables.RecordFailure(s.db.outbox, c.event, err)
    ensures CleanState(s.(db := s.db.(outbox := outbox), claims := s.claims - {c}))
  {
    hide Clean, CleanEvent;
    CleanClaimStatus(s.db.outbox, s.claims, s.log, s.hist.refunds, s.sms, c);
    CleanEnd(s.db.outbox, s.claims, s.log, s.hist.refunds, s.sms, c, outbox[c.event]);
  }

  lemma WorkerStepClean(cfg: Config, s: State, step: Step)
    requires Inv(cfg, s) && CleanState(s) && Enabled(cfg, s, step) && Careful(s, step)
    requires step.Publish? || step.MarkPublished? || step.RecordFailure? || step.CrashClaim?
    ensures CleanState(Apply(cfg, s, step))
  {
    hide Clean, RowsOk, MoneyOk, RefundsOk, LogOk, DeliveryStateOk, ProviderOk, ApiOk;
    var c := step.claim;
    if c !in s.claims {
      assert s.claims - {c} == s.claims;
    } else {
      assert ClaimOk(cfg, c, s.claims[c], s.db.outbox, s.log, s.hist.publishes);
      if step.Publish? {
        PublishClean(cfg, s, c, step.ok);
      } else {
        EndClean(s, c, Apply(cfg, s, step).db.outbox);
      }
    }
  }

  lemma CleanClaimStatus(outbox: map<int, OutboxEvent>, claims: map<Claim, ClaimPhase>, log: seq<Record>,
                         refunds: seq<Refund>, sms: seq<Sms>, c: Claim)
    requires Clean(outbox, claims, log, refunds, sms) && c in claims
    ensures CleanClaim(c, claims[c], outbox)
  {
  }

  lemma FinalizeClean(cfg: Config, s: State, c: Claim, err: string, fate: Fate)
    requires Inv(cfg, s) && CleanState(s) && CanFinalize(cfg, s, c)
    ensures CleanState(DoFinalize(s, c, err, fate))
  {
    hide Clean, CleanEvent, RowsOk, MoneyOk, RefundsOk, LogOk, OutboxOk, DeliveryStateOk, ProviderOk, ApiOk;
    EventsAreDistinct(cfg, s);
    CleanClaimStatus(s.db.outbox, s.claims, s.log, s.hist.refunds, s.sms, c);
    var s1 := DoFinalize(s, c, err, fate);
    var row := s1.db.outbox[c.event];
    var more := s1.hist.refunds[|s.hist.refunds|..];
    assert s1.hist.refunds == s.hist.refunds + more;
    CleanFinalize(s.db.outbox, s.claims, s.log, s.hist.refunds, s.sms, c, row, more, fate.Done?);
    assert s1.db.outbox == s.db.outbox[c.event := row];
  }

  lemma CallClean(s: State, did: int, result: CallResult, reached: bool, delay: int)
    requires CleanState(s) && CanCallProvider(s, did, result, reached, delay)
    ensures CleanState(DoCallProvider(s, did, result, reached, delay))
  {
    hide CleanClaim, CleanEvent;
    var e := EventOf(s, did);
    assert InLog(s.log, e.messageId);
  }

  /** Every careful step keeps the outbox clean. */
  lemma StepClean(cfg: Config, s: State, step: Step)
    requires Inv(cfg, s) && CleanState(s) && Enabled(cfg, s, step) && Careful(s, step)
    ensures CleanState(Apply(cfg, s, step))
  {
    hide Clean, Inv;
    if step.Publish? || step.MarkPublished? || step.RecordFailure? || step.CrashClaim? {
      WorkerStepClean(cfg, s, step);
    } else if step.Finalize? {
      FinalizeClean(cfg, s, step.claim, step.err, step.fate);
    } else if step.CallProvider? {
      CallClean(s, step.did, step.result, step.reached, step.delay);
    } else if step.ClaimBatch? {
      CleanClaimBatch(s.db.outbox, s.claims, s.log, s.hist.refunds, s.sms, step.ids, s.now);
    } else if step.Persist? {
      PersistClean(cfg, s, step.pid, step.cs, step.requestId, step.mids, step.eids, step.fate);
    } else {
      OtherClean(cfg, s, step);
    }
  }

  lemma PersistClean(cfg: Config, s: State, pid: int, cs: seq<Message>, requestId: int, mids: seq<int>, eids: seq<int>,
                     fate: Fate)
    requires Inv(cfg, s) && CleanState(s) && CanPersist(cfg, s, pid, cs, requestId, mids, eids)
    ensures CleanState(DoPersist(cfg, s, pid, cs, requestId, mids, eids, fate))
  {
    hide Clean, Inv;
    var cmd := s.sends[pid].cmd;
    match SendTransaction(cfg, s.db, cmd, cs, requestId, mids, eids, s.now)
    case Stored(db, result) => CleanPersist(cfg, s, cmd, cs, requestId, mids, eids, db, result);
    case _ =>
  }

  lemma OtherClean(cfg: Config, s: State, step: Step)
    requires CleanState(s) && Enabled(cfg, s, step)
    requires step.StartSend? || step.ReadCache? || step.ReadDb? || step.Poll? || step.SaveCache? || step.CrashSend?
             || step.Evict? || step.TopUp? || step.Fetch? || step.TryClaim? || step.Check? || step.Wake?
             || step.MarkSent? || step.MarkFailed? || step.Ack? || step.Drop? || step.Tick?
    ensures CleanState(Apply(cfg, s, step))
  {
    hide Clean, Enabled, Apply;
    StepShape(cfg, s, step);
  }

  // An execution that is careful up to its i-th state.
  ghost predicate IsCareful(cfg: Config, ss: seq<State>, steps: seq<Step>, i: nat)
    requires |ss| == |steps| + 1 && i < |ss|
  {
    IsExecution(cfg, ss, steps) && forall k :: 0 <= k < i ==> Careful(ss[k], steps[k])
  }

  lemma {:induction false} RunClean(cfg: Config, ss: seq<State>, steps: seq<Step>, i: nat)
    requires |ss| == |steps| + 1 && i < |ss| && IsCareful(cfg, ss, steps, i)
    ensures CleanState(ss[i])
  {
    hide CleanState, Careful, Inv, Init, Enabled, Apply;
    if i == 0 {
      InitClean(ss[0]);
    } else {
      RunClean(cfg, ss, steps, i - 1);
      ExecutionKeeps(cfg, ss, steps, i - 1);
      StepClean(cfg, ss[i - 1], steps[i - 1]);
    }
  }

  lemma InitClean(s: State)
    requires Init(s)
    ensures CleanState(s)
  {
  }

  /** In a careful run a refunded message was never appended to Kafka, no SMS of it ever left, and
      its outbox event is failed: also when finalizations fail and are retried. */
  lemma RefundedNeverDelivered(cfg: Config, ss: seq<State>, steps: seq<Step>, i: nat, m: int)
    requires |ss| == |steps| + 1 && i < |ss| && IsCareful(cfg, ss, steps, i)
    requires IsRefunded(ss[i].hist.refunds, m)
    ensures !InLog(ss[i].log, m)
    ensures forall k :: 0 <= k < |ss[i].sms| ==> ss[i].sms[k].messageId != m
    ensures exists e :: e in ss[i].db.outbox && ss[i].db.outbox[e].aggregateId == m
                        && ss[i].db.outbox[e].status.OutboxFailed?
  {
    hide Enabled, Apply;
    RunClean(cfg, ss, steps, i);
    ExecutionKeeps(cfg, ss, steps, i);
    var s := ss[i];
    FailedEvent(cfg, s, m);
  }

  lemma FailedEvent(cfg: Config, s: State, m: int)
    requires Inv(cfg, s) && CleanState(s) && IsRefunded(s.hist.refunds, m)
    ensures !InLog(s.log, m)
    ensures exists e :: e in s.db.outbox && s.db.outbox[e].aggregateId == m && s.db.outbox[e].status.OutboxFailed?
  {
    hide MoneyOk, LogOk, OutboxOk, DeliveryStateOk, ProviderOk, ApiOk;
    var k :| 0 <= k < |s.hist.refunds| && s.hist.refunds[k].messageId == m;
    assert m in Contents(s.db.messages) && HasEvent(Headers(s.db.outbox), m);
    var e :| e in Headers(s.db.outbox) && Headers(s.db.outbox)[e].aggregateId == m;
    assert CleanEvent(e, s.db.outbox[e], s.claims, s.log, s.hist.refunds);
  }

  // ---- never overwritten ----

  ghost predicate Exhausted(s: State, m: int) {
    m in s.db.messages && s.db.messages[m].status.MessageFailed? && s.db.messages[m].errorCode == Some(OutboxExhausted)
  }

  // No consumer holds an unfinished claim on the message.
  ghost predicate Unclaimed(deliveries: map<int, Delivery>, log: seq<Record>, m: int) {
    forall d :: d in deliveries && Holding(deliveries[d].phase) && deliveries[d].offset < |log| ==>
      log[deliveries[d].offset].value.messageId != m
  }

  ghost predicate Sealed(s: State, m: int) {
    Exhausted(s, m) && Unclaimed(s.deliveries, s.log, m)
  }

  lemma SealedCall(s: State, did: int, result: CallResult, reached: bool, delay: int, m: int)
    requires Sealed(s, m) && CanCallProvider(s, did, result, reached, delay)
    ensures Sealed(DoCallProvider(s, did, result, reached, delay), m)
  {
    hide Provider.ProviderIdempotencyKey;
  }

  lemma SealedMark(s: State, did: int, row: Message, fate: Fate, m: int)
    requires Sealed(s, m) && AtPhase(s, did) && Holding(s.deliveries[did].phase)
    requires EventOf(s, did).messageId in s.db.messages
    ensures Sealed(DoMark(s, did, s.db.messages[EventOf(s, did).messageId := row], fate), m)
  {
  }

  lemma SealedTryClaim(s: State, did: int, fate: Fate, m: int)
    requires Sealed(s, m) && AtPhase(s, did)
    ensures Sealed(DoTryClaim(s, did, fate), m)
  {
  }

  lemma SealedWake(s: State, did: int, m: int)
    requires Sealed(s, m) && did in s.deliveries && s.deliveries[did].phase.Waiting?
    ensures Sealed(DoWake(s, did), m)
  {
  }

  lemma SealedConsumer(cfg: Config, s: State, step: Step, m: int)
    requires Enabled(cfg, s, step) && Sealed(s, m)
    requires step.TryClaim? || step.MarkSent? || step.MarkFailed? || step.CallProvider? || step.Wake?
    requires OffsetsOk(s)
    ensures Sealed(Apply(cfg, s, step), m)
  {
    hide Sealed;
    match step
    case TryClaim(did, fate) => SealedTryClaim(s, did, fate, m);
    case Wake(did) => SealedWake(s, did, m);
    case CallProvider(did, result, reached, delay) => SealedCall(s, did, result, reached, delay, m);
    case MarkSent(did, fate) =>
      var id := EventOf(s, did).messageId;
      SealedMark(s, did, s.db.messages[id].(status := MessageSent, errorCode := None, updatedAt := s.now), fate, m);
    case MarkFailed(did, fate) =>
      var id := EventOf(s, did).messageId;
      SealedMark(s, did,
                 s.db.messages[id].(status := MessageFailed, errorCode := Some(ProviderError), updatedAt := s.now),
                 fate, m);
  }

  lemma SealedRecord(cfg: Config, s: State, step: Step, m: int)
    requires Enabled(cfg, s, step) && Sealed(s, m)
    requires step.Fetch? || step.Check? || step.Ack? || step.Drop? || step.Tick?
    ensures Sealed(Apply(cfg, s, step), m)
  {
    hide Classify;
  }

  lemma SealedWorker(cfg: Config, s: State, step: Step, m: int)
    requires Enabled(cfg, s, step) && Sealed(s, m) && OffsetsOk(s)
    requires IsClaim(step) || step.Finalize?
    ensures Sealed(Apply(cfg, s, step), m)
  {
    hide ClaimRows, Tables.MarkPublished, Tables.RecordFailure, CloseEvent, ClaimsOf;
  }

  lemma SealedPersist(cfg: Config, s: State, pid: int, cs: seq<Message>, requestId: int, mids: seq<int>, eids: seq<int>,
                      fate: Fate, m: int)
    requires CanPersist(cfg, s, pid, cs, requestId, mids, eids) && Sealed(s, m)
    ensures Sealed(DoPersist(cfg, s, pid, cs, requestId, mids, eids, fate), m)
  {
    hide Unclaimed;
    var cmd := s.sends[pid].cmd;
    match SendTransaction(cfg, s.db, cmd, cs, requestId, mids, eids, s.now)
    case Stored(db, result) =>
      var rows := Persisting.StoredShape(cfg, s, cmd, cs, requestId, mids, eids, db, result);
      InsertFacts(s.db.messages, mids, rows);
    case _ =>
  }

  lemma SealedApi(cfg: Config, s: State, step: Step, m: int)
    requires Enabled(cfg, s, step) && Sealed(s, m)
    requires step.StartSend? || step.ReadCache? || step.ReadDb? || step.Poll? || step.SaveCache? || step.CrashSend?
             || step.Evict? || step.TopUp?
    ensures Sealed(Apply(cfg, s, step), m)
  {
    hide Unclaimed, Enabled, Apply;
    StepShape(cfg, s, step);
  }

  lemma StepSealed(cfg: Config, s: State, step: Step, m: int)
    requires Inv(cfg, s) && Enabled(cfg, s, step) && Sealed(s, m)
    ensures Sealed(Apply(cfg, s, step), m)
  {
    hide Inv, Sealed;
    OffsetsInLog(cfg, s);
    if IsClaim(step) || step.Finalize? {
      SealedWorker(cfg, s, step, m);
    } else if step.TryClaim? || step.MarkSent? || step.MarkFailed? || step.CallProvider? || step.Wake? {
      SealedConsumer(cfg, s, step, m);
    } else if step.Persist? {
      SealedPersist(cfg, s, step.pid, step.cs, step.requestId, step.mids, step.eids, step.fate, m);
    } else if step.Fetch? || step.Check? || step.Ack? || step.Drop? || step.Tick? {
      SealedRecord(cfg, s, step, m);
    } else {
      SealedApi(cfg, s, step, m);
    }
  }

  ghost predicate OffsetsOk(s: State) {
    forall d :: d in s.deliveries ==>
      s.deliveries[d].offset < |s.log| && s.log[s.deliveries[d].offset].value.messageId in s.db.messages
  }

  lemma OffsetsInLog(cfg: Config, s: State)
    requires Inv(cfg, s)
    ensures OffsetsOk(s)
  {
    hide RowsOk, MoneyOk, RefundsOk, LogOk, OutboxOk, ProviderOk, ApiOk;
    forall d | d in s.deliveries
      ensures s.deliveries[d].offset < |s.log| && s.log[s.deliveries[d].offset].value.messageId in s.db.messages
    {
      assert DeliveryOk(s.deliveries[d], s.log, s.db.messages, s.seen);
    }
  }

  lemma {:induction false} RunSealed(cfg: Config, ss: seq<State>, steps: seq<Step>, i: nat, m: int)
    requires IsRun(cfg, ss, steps) && Inv(cfg, ss[0]) && i < |ss| && Sealed(ss[0], m)
    ensures Sealed(ss[i], m)
  {
    hide Sealed, Inv, Enabled, Apply;
    if i != 0 {
      RunSealed(cfg, ss, steps, i - 1, m);
      RunKeeps(cfg, ss, steps, i - 1);
      NextSealed(cfg, ss, steps, i - 1, m);
    }
  }

  lemma NextSealed(cfg: Config, ss: seq<State>, steps: seq<Step>, i: nat, m: int)
    requires IsRun(cfg, ss, steps) && i < |steps| && Inv(cfg, ss[i]) && Sealed(ss[i], m)
    ensures Sealed(ss[i + 1], m)
  {
    hide Sealed, Inv, Enabled, Apply;
    StepSealed(cfg, ss[i], steps[i], m);
  }

  lemma SealedFollows(cfg: Config, s: State, t: State, m: int)
    requires Inv(cfg, s) && Sealed(s, m) && Leads(cfg, s, t)
    ensures Sealed(t, m)
  {
    hide Sealed, Inv, IsRun;
    var ss, steps :| RunFromTo(cfg, ss, steps, s, t);
    RunLength(cfg, ss, steps);
    RunSealed(cfg, ss, steps, |steps|, m);
  }

  /** A message refunded while no consumer held an unfinished claim on it stays failed with
      outbox_exhausted forever. */
  lemma RefundSticks(cfg: Config, ss: seq<State>, steps: seq<Step>, i: nat, j: nat, m: int)
    requires IsExecution(cfg, ss, steps) && i < j < |ss|
    requires !IsRefunded(ss[i].hist.refunds, m) && IsRefunded(ss[i + 1].hist.refunds, m)
    requires Unclaimed(ss[i].deliveries, ss[i].log, m)
    ensures Exhausted(ss[j], m) && IsRefunded(ss[j].hist.refunds, m)
  {
    hide Enabled, Apply, Inv, Leads, Init;
    RefundStep(cfg, ss[i], steps[i], m);
    ExecutionKeeps(cfg, ss, steps, i + 1);
    LeadsAlong(cfg, ss, steps, i + 1, j);
    SealedFollows(cfg, ss[i + 1], ss[j], m);
    RunProgress(cfg, ss, steps, i + 1, j);
    var k :| 0 <= k < |ss[i + 1].hist.refunds| && ss[i + 1].hist.refunds[k].messageId == m;
    assert ss[j].hist.refunds[k].messageId == m;
  }

  // Only a finalization refunds, and it leaves the message failed with outbox_exhausted.
  lemma RefundStep(cfg: Config, s: State, step: Step, m: int)
    requires Enabled(cfg, s, step)
    requires !IsRefunded(s.hist.refunds, m) && IsRefunded(Apply(cfg, s, step).hist.refunds, m)
    requires Unclaimed(s.deliveries, s.log, m)
    ensures step.Finalize? && Sealed(Apply(cfg, s, step), m)
  {
    if step.Finalize? {
      FinalizeRefunds(s, step.claim, step.err, step.fate, m);
    } else {
      RefundsUnmoved(cfg, s, step);
    }
  }

  lemma FinalizeRefunds(s: State, c: Claim, err: string, fate: Fate, m: int)
    requires c.event in s.db.outbox
    requires !IsRefunded(s.hist.refunds, m) && IsRefunded(DoFinalize(s, c, err, fate).hist.refunds, m)
    ensures Exhausted(DoFinalize(s, c, err, fate), m)
    ensures DoFinalize(s, c, err, fate).deliveries == s.deliveries && DoFinalize(s, c, err, fate).log == s.log
  {
    var s1 := DoFinalize(s, c, err, fate);
    var i :| 0 <= i < |s1.hist.refunds| && s1.hist.refunds[i].messageId == m;
    assert |s.hist.refunds| <= i;
  }

  lemma RefundsUnmoved(cfg: Config, s: State, step: Step)
    requires Enabled(cfg, s, step) && !step.Finalize?
    ensures Apply(cfg, s, step).hist.refunds == s.hist.refunds
  {
    hide Enabled, Apply;
    StepShape(cfg, s, step);
  }
}
