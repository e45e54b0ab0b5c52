/** What the steps of an execution write, row by row in the fields and numbers of the schema, and what the
    counters of the rows count. */
module Writes {
  import opened Domain
  import opened Tables
  import opened Protocol
  import opened Invariants
  import opened Runs
  import opened Shapes
  import opened Columns
  import Finality
  import Persisting
  import Plan
  import Sums
  import Theorems

  // ---- deliveries ----

  /** In every execution: MarkSent leaves its message sent, without an error code, updated now. */
  lemma MarkSentStep(cfg: Config, ss: seq<State>, steps: seq<Step>, i: nat)
    requires IsExecution(cfg, ss, steps) && i < |steps| && steps[i].MarkSent?
    ensures AtPhase(ss[i], steps[i].did)
    ensures var id := EventOf(ss[i], steps[i].did).messageId;
            && id in ss[i].db.messages
            && ss[i + 1].db.messages
               == if steps[i].fate == Aborted then ss[i].db.messages
                  else ss[i].db.messages[id := ss[i].db.messages[id].(status := MessageSent, errorCode := None,
                                                                      updatedAt := ss[i].now)]
  {
    hide Inv, Init;
    ExecutionKeeps(cfg, ss, steps, i);
    EventsAreKnown(cfg, ss[i]);
    assert ss[i + 1] == DoMarkSent(ss[i], steps[i].did, steps[i].fate);
    MarkSentWrites(ss[i], steps[i].did, steps[i].fate);
  }

  /** In every execution: MarkFailed leaves its message failed with provider_error, updated now. */
  lemma MarkFailedStep(cfg: Config, ss: seq<State>, steps: seq<Step>, i: nat)
    requires IsExecution(cfg, ss, steps) && i < |steps| && steps[i].MarkFailed?
    ensures AtPhase(ss[i], steps[i].did)
    ensures var id := EventOf(ss[i], steps[i].did).messageId;
            && id in ss[i].db.messages
            && ss[i + 1].db.messages
               == if steps[i].fate == Aborted then ss[i].db.messages
                  else ss[i].db.messages[id := ss[i].db.messages[id].(status := MessageFailed,
                                                                      errorCode := Some(ProviderError),
                                                                      updatedAt := ss[i].now)]
  {
    hide Inv, Init;
    ExecutionKeeps(cfg, ss, steps, i);
    EventsAreKnown(cfg, ss[i]);
    assert ss[i + 1] == DoMarkFailed(ss[i], steps[i].did, steps[i].fate);
    MarkFailedWrites(ss[i], steps[i].did, steps[i].fate);
  }

  lemma TryClaimWrites(s: State, did: int, fate: Fate)
    requires AtPhase(s, did) && EventOf(s, did).messageId in s.db.messages
    ensures var id := EventOf(s, did).messageId;
            var row := s.db.messages[id];
            var t := DoTryClaim(s, did, fate);
            var free := row.status == MessageQueued || (row.status == MessageSending && 120000 < s.now - row.updatedAt);
            && t.db.messages == (if fate != Aborted && free
                                 then s.db.messages[id := row.(status := MessageSending, updatedAt := s.now)]
                                 else s.db.messages)
            && (fate == Done ==>
                  && did in t.deliveries
                  && t.deliveries[did].phase == if free then Calling(1, s.now, s.now) else Checking)
            && (fate != Done ==> did !in t.deliveries)
  {
  }

  /** In every execution: a queued row, or one sending for more than 120000 ms, is acquired and leased now; any
      other row, one sending for 120000 ms or less among them, is not acquired and stays as it is. */
  lemma TryClaimStep(cfg: Config, ss: seq<State>, steps: seq<Step>, i: nat)
    requires IsExecution(cfg, ss, steps) && i < |steps| && steps[i].TryClaim?
    ensures AtPhase(ss[i], steps[i].did)
    ensures var id := EventOf(ss[i], steps[i].did).messageId;
            && id in ss[i].db.messages
            && var row := ss[i].db.messages[id];
            && var free := row.status == MessageQueued
                           || (row.status == MessageSending && 120000 < ss[i].now - row.updatedAt);
            && ss[i + 1].db.messages
               == (if steps[i].fate != Aborted && free
                   then ss[i].db.messages[id := row.(status := MessageSending, updatedAt := ss[i].now)]
                   else ss[i].db.messages)
            && (steps[i].fate == Done ==>
                  && steps[i].did in ss[i + 1].deliveries
                  && ss[i + 1].deliveries[steps[i].did].phase
                     == if free then Calling(1, ss[i].now, ss[i].now) else Checking)
  {
    hide Inv, Init, DoTryClaim;
    ExecutionKeeps(cfg, ss, steps, i);
    EventsAreKnown(cfg, ss[i]);
    assert ss[i + 1] == DoTryClaim(ss[i], steps[i].did, steps[i].fate);
    TryClaimWrites(ss[i], steps[i].did, steps[i].fate);
  }

  // ---- the outbox worker ----

  // Pending, or publishing with a lease of more than a minute.
  ghost predicate Eligible(e: OutboxEvent, now: int) {
    e.status == OutboxPending || (e.status == OutboxPublishing && e.lockedAt.Some? && 60000 < now - e.lockedAt.value)
  }

  /** In every execution: a batch takes only events that are pending or leased for more than 60000 ms; they are
      publishing from now on with one more attempt, and no other event changes. */
  lemma ClaimBatchStep(cfg: Config, ss: seq<State>, steps: seq<Step>, i: nat)
    requires IsExecution(cfg, ss, steps) && i < |steps| && steps[i].ClaimBatch?
    ensures |steps[i].ids| <= cfg.batchSize && ss[i + 1].db.outbox.Keys == ss[i].db.outbox.Keys
    ensures forall e :: e in steps[i].ids ==>
              && e in ss[i].db.outbox && Eligible(ss[i].db.outbox[e], ss[i].now)
              && ss[i + 1].db.outbox[e]
                 == ss[i].db.outbox[e].(status := OutboxPublishing, lockedAt := Some(ss[i].now),
                                        attempts := ss[i].db.outbox[e].attempts + 1)
    ensures forall e :: e in ss[i].db.outbox && e !in steps[i].ids ==> ss[i + 1].db.outbox[e] == ss[i].db.outbox[e]
  {
    hide Init;
    assert ss[i + 1] == DoClaimBatch(ss[i], steps[i].ids);
  }

  // The row of an event after an update that only an open event takes.
  ghost predicate OpenRowBecomes(a: map<int, OutboxEvent>, b: map<int, OutboxEvent>, e: int, row: OutboxEvent) {
    && e in a
    && b == if a[e].status == OutboxPending || a[e].status == OutboxPublishing then a[e := row] else a
  }

  lemma WorkerWrites(s: State, c: Claim, err: string, fate: Fate)
    requires c.event in s.db.outbox
    ensures fate != Aborted ==>
              OpenRowBecomes(s.db.outbox, DoMarkPublished(s, c, fate).db.outbox, c.event,
                             s.db.outbox[c.event].(status := OutboxPublished, publishedAt := Some(s.now),
                                                   lastError := None, lockedAt := None))
    ensures fate != Aborted ==>
              OpenRowBecomes(s.db.outbox, DoRecordFailure(s, c, err, fate).db.outbox, c.event,
                             s.db.outbox[c.event].(status := OutboxPending, lastError := Some(err), lockedAt := None))
    ensures fate == Aborted ==>
              DoMarkPublished(s, c, fate).db == s.db && DoRecordFailure(s, c, err, fate).db == s.db
  {
  }

  lemma FinalizeWrites(s: State, c: Claim, err: string, fate: Fate)
    requires c.event in s.db.outbox && fate != Aborted
    ensures OpenRowBecomes(s.db.outbox, DoFinalize(s, c, err, fate).db.outbox, c.event,
                           s.db.outbox[c.event].(status := OutboxFailed, lastError := Some(err), lockedAt := None))
    ensures var m := s.db.outbox[c.event].aggregateId;
            m in s.db.messages ==>
              var row := s.db.messages[m];
              DoFinalize(s, c, err, fate).db.messages
              == if row.status == MessageQueued || row.status == MessageSending
                 then s.db.messages[m := row.(status := MessageFailed, errorCode := Some(OutboxExhausted),
                                              updatedAt := s.now)]
                 else s.db.messages
  {
  }

  lemma ClaimsAreKnown(cfg: Config, s: State, c: Claim)
    requires Inv(cfg, s) && c in s.claims
    ensures c.event in s.db.outbox && 1 <= c.attempt <= s.db.outbox[c.event].attempts
    ensures s.db.outbox[c.event].aggregateId in s.db.messages
  {
    hide RowsOk, MoneyOk, RefundsOk, LogOk, DeliveryStateOk, ProviderOk, ApiOk;
    assert ClaimOk(cfg, c, s.claims[c], s.db.outbox, s.log, s.hist.publishes);
    assert EventOk(s.db.outbox[c.event], s.db.messages, s.log);
  }

  /** In every execution: the columns that marking, retrying and dead-lettering write, on an open event only. */
  lemma WorkerStep(cfg: Config, ss: seq<State>, steps: seq<Step>, i: nat)
    requires IsExecution(cfg, ss, steps) && i < |steps|
    requires (steps[i].MarkPublished? || steps[i].RecordFailure? || steps[i].Finalize?) && steps[i].fate != Aborted
    ensures var a, b, e := ss[i].db.outbox, ss[i + 1].db.outbox, steps[i].claim.event;
            && e in a
            && OpenRowBecomes(a, b, e,
                              if steps[i].MarkPublished?
                              then a[e].(status := OutboxPublished, publishedAt := Some(ss[i].now), lastError := None,
                                         lockedAt := None)
                              else if steps[i].RecordFailure?
                              then a[e].(status := OutboxPending, lastError := Some(steps[i].err), lockedAt := None)
                              else a[e].(status := OutboxFailed, lastError := Some(steps[i].err), lockedAt := None))
  {
    hide Inv, Init, OpenRowBecomes, DoMarkPublished, DoRecordFailure, DoFinalize;
    ExecutionKeeps(cfg, ss, steps, i);
    var c := steps[i].claim;
    ClaimsAreKnown(cfg, ss[i], c);
    assert ss[i + 1] == Apply(cfg, ss[i], steps[i]);
    if steps[i].Finalize? {
      FinalizeWrites(ss[i], c, steps[i].err, steps[i].fate);
    } else {
      WorkerWrites(ss[i], c, if steps[i].RecordFailure? then steps[i].err else "", steps[i].fate);
    }
  }

  /** In every execution: a refund happens only when the attempts of its event are used up. */
  lemma OnlyExhaustedIsRefunded(cfg: Config, ss: seq<State>, steps: seq<Step>, i: nat, m: int)
    requires IsExecution(cfg, ss, steps) && i < |steps|
    requires !IsRefunded(ss[i].hist.refunds, m) && IsRefunded(ss[i + 1].hist.refunds, m)
    ensures exists e :: e in ss[i].db.outbox && ss[i].db.outbox[e].aggregateId == m
                        && cfg.maxAttempts <= ss[i].db.outbox[e].attempts
  {
    hide Inv, Init, IsRefunded, Apply;
    ExecutionKeeps(cfg, ss, steps, i);
    assert ss[i + 1] == Apply(cfg, ss[i], steps[i]);
    Finality.RefundExhausts(cfg, ss[i], steps[i], m);
    var c := steps[i].claim;
    ClaimsAreKnown(cfg, ss[i], c);
    assert ss[i + 1] == DoFinalize(ss[i], c, steps[i].err, steps[i].fate) by { FinalizeApplies(cfg, ss[i], steps[i]); }
    RefundIsOfEvent(ss[i], c, steps[i].err, steps[i].fate, m);
    assert cfg.maxAttempts <= ss[i].db.outbox[c.event].attempts;
  }

  lemma FinalizeApplies(cfg: Config, s: State, step: Step)
    requires Enabled(cfg, s, step) && step.Finalize?
    ensures CanFinalize(cfg, s, step.claim)
    ensures Apply(cfg, s, step) == DoFinalize(s, step.claim, step.err, step.fate)
  {
  }

  lemma RefundIsOfEvent(s: State, c: Claim, err: string, fate: Fate, m: int)
    requires c.event in s.db.outbox
    requires !IsRefunded(s.hist.refunds, m) && IsRefunded(DoFinalize(s, c, err, fate).hist.refunds, m)
    ensures s.db.outbox[c.event].aggregateId == m
  {
    var t := DoFinalize(s, c, err, fate);
    var k :| 0 <= k < |t.hist.refunds| && t.hist.refunds[k].messageId == m;
    assert |s.hist.refunds| <= k;
  }

  // ---- the send transaction ----

  // New messages and events as they are born, and the others as they were.
  ghost predicate MessagesBorn(a: map<int, Message>, b: map<int, Message>, request: int, now: int) {
    && (forall m :: m in a ==> m in b && b[m] == a[m])
    && (forall m :: m in b && m !in a ==>
          b[m].status == MessageQueued && b[m].errorCode == None && b[m].updatedAt == now && b[m].requestId == request)
  }

  ghost predicate EventsBorn(a: map<int, OutboxEvent>, b: map<int, OutboxEvent>, known: set<int>, messages: set<int>) {
    && (forall e :: e in a ==> e in b && b[e] == a[e])
    && (forall e :: e in b && e !in a ==>
          && b[e].status == OutboxPending && b[e].attempts == 0 && b[e].lastError == None
          && b[e].publishedAt == None && b[e].lockedAt == None
          && b[e].aggregateId in messages && b[e].aggregateId !in known)
  }

  ghost predicate Born(s: State, db: Db, request: int) {
    && MessagesBorn(s.db.messages, db.messages, request, s.now)
    && EventsBorn(s.db.outbox, db.outbox, s.db.messages.Keys, db.messages.Keys)
  }

  lemma InsertedMessagesBorn(messages: map<int, Message>, mids: seq<int>, rows: seq<Message>, request: int, now: int)
    requires |mids| == |rows| && Sums.Fresh(messages, mids)
    requires forall i :: 0 <= i < |rows| ==>
               rows[i].status == MessageQueued && rows[i].errorCode == None && rows[i].updatedAt == now
               && rows[i].requestId == request
    ensures MessagesBorn(messages, Sums.Insert(messages, mids, rows), request, now)
    ensures forall i :: 0 <= i < |mids| ==> mids[i] in Sums.Insert(messages, mids, rows)
  {
    Sums.InsertFacts(messages, mids, rows);
    var b := Sums.Insert(messages, mids, rows);
    forall m | m in b && m !in messages
      ensures && b[m].status == MessageQueued && b[m].errorCode == None && b[m].updatedAt == now
              && b[m].requestId == request
    {
      var i :| 0 <= i < |mids| && mids[i] == m;
    }
  }

  lemma InsertedEventsBorn(cfg: Config, outbox: map<int, OutboxEvent>, eids: seq<int>, mids: seq<int>,
                           rows: seq<Message>, known: set<int>, messages: set<int>)
    requires |eids| == |mids| == |rows| && Sums.Fresh(outbox, eids)
    requires forall i :: 0 <= i < |mids| ==> mids[i] in messages && mids[i] !in known
    ensures EventsBorn(outbox, Sums.Insert(outbox, eids, EventRows(cfg, mids, rows)), known, messages)
  {
    Sums.InsertFacts(outbox, eids, EventRows(cfg, mids, rows));
    var b := Sums.Insert(outbox, eids, EventRows(cfg, mids, rows));
    forall e | e in b && e !in outbox
      ensures && b[e].status == OutboxPending && b[e].attempts == 0 && b[e].lastError == None
              && b[e].publishedAt == None && b[e].lockedAt == None
              && b[e].aggregateId in messages && b[e].aggregateId !in known
    {
      var i :| 0 <= i < |eids| && eids[i] == e;
    }
  }

  lemma StoredBorn(cfg: Config, s: State, cmd: SendRequest, cs: seq<Message>, requestId: int, mids: seq<int>,
                   eids: seq<int>, db: Db, result: SendResult)
    requires Persisting.StoredBy(cfg, s, cmd, cs, requestId, mids, eids, db, result)
    ensures Born(s, db, requestId)
  {
    hide SendTransaction, HasRequest, MessagesBorn, EventsBorn, Sums.Insert;
    var rows := Persisting.StoredShape(cfg, s, cmd, cs, requestId, mids, eids, db, result);
    InsertedMessagesBorn(s.db.messages, mids, rows, requestId, s.now);
    InsertedEventsBorn(cfg, s.db.outbox, eids, mids, rows, s.db.messages.Keys, db.messages.Keys);
  }

  /** In every execution: a send adds queued messages dated now, each with a pending event without attempts, and
      changes no other row. */
  lemma PersistStep(cfg: Config, ss: seq<State>, steps: seq<Step>, i: nat)
    requires IsExecution(cfg, ss, steps) && i < |steps| && steps[i].Persist?
    ensures Born(ss[i], ss[i + 1].db, steps[i].requestId)
  {
    hide Init, Born, Plan.AreCandidates, Plan.Sendable, Plan.Split;
    var s, p := ss[i], steps[i];
    NothingBorn(s, p.requestId);
    assert ss[i + 1] == DoPersist(cfg, s, p.pid, p.cs, p.requestId, p.mids, p.eids, p.fate);
    var cmd := s.sends[p.pid].cmd;
    match SendTransaction(cfg, s.db, cmd, p.cs, p.requestId, p.mids, p.eids, s.now)
    case Stored(db, result) => StoredBorn(cfg, s, cmd, p.cs, p.requestId, p.mids, p.eids, db, result);
    case _ =>
  }

  lemma NothingBorn(s: State, request: int)
    ensures Born(s, s.db, request)
  {
  }

  // ---- counters ----

  // The claims of an event among the steps.
  function ClaimsOn(steps: seq<Step>, e: int): nat {
    if steps == [] then 0
    else
      var last := steps[|steps| - 1];
      ClaimsOn(steps[..|steps| - 1], e) + if last.ClaimBatch? && e in last.ids then 1 else 0
  }

  // The calls of Publish for an event among the steps.
  function PublishesOf(steps: seq<Step>, e: int): nat {
    if steps == [] then 0
    else
      var last := steps[|steps| - 1];
      PublishesOf(steps[..|steps| - 1], e) + if last.Publish? && last.claim.event == e then 1 else 0
  }

  ghost predicate AttemptsAre(a: map<int, OutboxEvent>, b: map<int, OutboxEvent>, ids: set<int>) {
    && (forall e :: e in a ==> e in b && b[e].attempts == a[e].attempts + if e in ids then 1 else 0)
    && (forall e :: e in b && e !in a ==> b[e].attempts == 0)
  }

  lemma StoredAttempts(cfg: Config, s: State, cmd: SendRequest, cs: seq<Message>, requestId: int, mids: seq<int>,
                       eids: seq<int>, db: Db, result: SendResult)
    requires Persisting.StoredBy(cfg, s, cmd, cs, requestId, mids, eids, db, result)
    ensures AttemptsAre(s.db.outbox, db.outbox, {})
  {
    hide SendTransaction, HasRequest;
    var rows := Persisting.StoredShape(cfg, s, cmd, cs, requestId, mids, eids, db, result);
    Sums.InsertFacts(s.db.outbox, eids, EventRows(cfg, mids, rows));
    forall e | e in db.outbox && e !in s.db.outbox ensures db.outbox[e].attempts == 0 {
      var i :| 0 <= i < |eids| && eids[i] == e;
    }
  }

  lemma PersistAttempts(cfg: Config, s: State, pid: int, cs: seq<Message>, requestId: int, mids: seq<int>,
                        eids: seq<int>, fate: Fate)
    requires CanPersist(cfg, s, pid, cs, requestId, mids, eids)
    ensures AttemptsAre(s.db.outbox, DoPersist(cfg, s, pid, cs, requestId, mids, eids, fate).db.outbox, {})
  {
    hide AttemptsAre, Plan.AreCandidates, Plan.Sendable, Plan.Split;
    SameAttempts(s.db.outbox);
    var cmd := s.sends[pid].cmd;
    match SendTransaction(cfg, s.db, cmd, cs, requestId, mids, eids, s.now)
    case Stored(db, result) => StoredAttempts(cfg, s, cmd, cs, requestId, mids, eids, db, result);
    case _ =>
  }

  lemma SameAttempts(outbox: map<int, OutboxEvent>)
    ensures AttemptsAre(outbox, outbox, {})
  {
  }

  lemma ClaimBatchAttempts(s: State, ids: set<int>)
    requires ids <= s.db.outbox.Keys
    ensures AttemptsAre(s.db.outbox, DoClaimBatch(s, ids).db.outbox, ids)
  {
  }

  lemma MarkAttempts(s: State, c: Claim, fate: Fate)
    ensures AttemptsAre(s.db.outbox, DoMarkPublished(s, c, fate).db.outbox, {})
  {
  }

  lemma FailureAttempts(s: State, c: Claim, err: string, fate: Fate)
    ensures AttemptsAre(s.db.outbox, DoRecordFailure(s, c, err, fate).db.outbox, {})
  {
  }

  lemma FinalizeAttempts(s: State, c: Claim, err: string, fate: Fate)
    requires c.event in s.db.outbox
    ensures AttemptsAre(s.db.outbox, DoFinalize(s, c, err, fate).db.outbox, {})
  {
  }

  lemma WorkerAttempts(cfg: Config, s: State, step: Step)
    requires Enabled(cfg, s, step) && (IsClaim(step) || step.Finalize?)
    ensures AttemptsAre(s.db.outbox, Apply(cfg, s, step).db.outbox, if step.ClaimBatch? then step.ids else {})
  {
    hide AttemptsAre, Tables.MarkPublished, Tables.RecordFailure, FinalizeExhausted, ClaimRows, ClaimsOf;
    match step
    case ClaimBatch(ids) => ClaimBatchAttempts(s, ids);
    case MarkPublished(c, fate) => MarkAttempts(s, c, fate);
    case RecordFailure(c, err, fate) => FailureAttempts(s, c, err, fate);
    case Finalize(c, err, fate) => FinalizeAttempts(s, c, err, fate);
    case _ => SameAttempts(s.db.outbox);
  }

  lemma StepAttempts(cfg: Config, s: State, step: Step)
    requires Enabled(cfg, s, step)
    ensures AttemptsAre(s.db.outbox, Apply(cfg, s, step).db.outbox, if step.ClaimBatch? then step.ids else {})
  {
    hide AttemptsAre;
    if IsClaim(step) || step.Finalize? {
      WorkerAttempts(cfg, s, step);
    } else if step.Persist? {
      PersistAttempts(cfg, s, step.pid, step.cs, step.requestId, step.mids, step.eids, step.fate);
    } else {
      OtherAttempts(cfg, s, step);
    }
  }

  lemma OtherAttempts(cfg: Config, s: State, step: Step)
    requires Enabled(cfg, s, step) && !IsClaim(step) && !step.Finalize? && !step.Persist?
    ensures AttemptsAre(s.db.outbox, Apply(cfg, s, step).db.outbox, {})
  {
    hide Enabled, Apply, AttemptsAre;
    StepShape(cfg, s, step);
    SameAttempts(s.db.outbox);
  }

  /** In every execution: the attempts of an event are the number of times it was claimed. */
  lemma {:induction false} AttemptsCountClaims(cfg: Config, ss: seq<State>, steps: seq<Step>, i: nat, e: int)
    requires IsExecution(cfg, ss, steps) && i < |ss|
    ensures e in ss[i].db.outbox ==> ss[i].db.outbox[e].attempts == ClaimsOn(steps[..i], e)
    ensures e !in ss[i].db.outbox ==> ClaimsOn(steps[..i], e) == 0
  {
    hide Enabled, Apply;
    if i != 0 {
      AttemptsCountClaims(cfg, ss, steps, i - 1, e);
      assert steps[..i][..i - 1] == steps[..i - 1];
      StepAttempts(cfg, ss[i - 1], steps[i - 1]);
      if steps[i - 1].ClaimBatch? { ClaimsExisting(cfg, ss[i - 1], steps[i - 1]); }
    }
  }

  lemma ClaimsExisting(cfg: Config, s: State, step: Step)
    requires Enabled(cfg, s, step) && step.ClaimBatch?
    ensures step.ids <= s.db.outbox.Keys
  {
  }

  lemma ClaimPublishes(cfg: Config, s: State, step: Step)
    requires Enabled(cfg, s, step) && IsClaim(step)
    ensures Apply(cfg, s, step).hist.publishes == s.hist.publishes + if step.Publish? then [step.claim] else []
  {
    hide ClaimRows, ClaimsOf, Tables.MarkPublished, Tables.RecordFailure;
  }

  lemma StepPublishes(cfg: Config, s: State, step: Step)
    requires Enabled(cfg, s, step)
    ensures Apply(cfg, s, step).hist.publishes == s.hist.publishes + if step.Publish? then [step.claim] else []
  {
    if IsClaim(step) {
      ClaimPublishes(cfg, s, step);
    } else {
      hide Enabled, Apply;
      StepShape(cfg, s, step);
    }
  }

  lemma {:induction false} PublishesCounted(cfg: Config, ss: seq<State>, steps: seq<Step>, i: nat, e: int)
    requires IsExecution(cfg, ss, steps) && i < |ss|
    ensures |Theorems.CallsFor(ss[i].hist.publishes, e)| == PublishesOf(steps[..i], e)
  {
    hide Enabled, Apply;
    if i != 0 {
      PublishesCounted(cfg, ss, steps, i - 1, e);
      assert steps[..i][..i - 1] == steps[..i - 1];
      StepPublishes(cfg, ss[i - 1], steps[i - 1]);
      var before, after := ss[i - 1].hist.publishes, ss[i].hist.publishes;
      if steps[i - 1].Publish? { assert after[..|after| - 1] == before; } else { assert after == before; }
    }
  }

  /** In every execution: among the steps so far there are at most maxAttempts calls of Publish for an event. */
  lemma PublishCallsBounded(cfg: Config, ss: seq<State>, steps: seq<Step>, i: nat, e: int)
    requires IsExecution(cfg, ss, steps) && i < |ss|
    ensures PublishesOf(steps[..i], e) <= cfg.maxAttempts
  {
    hide IsExecution;
    PublishesCounted(cfg, ss, steps, i, e);
    Theorems.PublishBound(cfg, ss, steps, i, e);
  }

  // ---- the cache ----

  /** In every execution: a lookup in a working Redis answers at once exactly when there is an entry for this user
      and key whose hash is that of the body; otherwise the call goes on to the database. */
  lemma ReadCacheStep(cfg: Config, ss: seq<State>, steps: seq<Step>, i: nat)
    requires IsExecution(cfg, ss, steps) && i < |steps| && steps[i].ReadCache?
    ensures steps[i].pid in ss[i].sends
    ensures var cmd := ss[i].sends[steps[i].pid].cmd;
            var hash := Digest(cmd.userId, cmd.otp, cmd.text);
            var s, t, k := ss[i], ss[i + 1], (cmd.userId, cmd.key);
            if !steps[i].broken && k in s.cache && s.cache[k].hash == hash
            then && steps[i].pid !in t.sends
                 && t.hist.answers == s.hist.answers + [Answer(cmd, Success(s.cache[k].result))]
            else steps[i].pid in t.sends && t.sends[steps[i].pid] == LookingUp(cmd) && t.hist.answers == s.hist.answers
  {
    hide Inv, Init, Invariants.RowsOk;
    ExecutionKeeps(cfg, ss, steps, i);
    EntriesHaveHashes(cfg, ss[i]);
    assert ss[i + 1] == DoReadCache(ss[i], steps[i].pid, steps[i].broken);
  }

  lemma EntriesHaveHashes(cfg: Config, s: State)
    requires Inv(cfg, s)
    ensures forall user, key :: (user, key) in s.cache ==> s.cache[(user, key)].hash != NoHash
  {
    hide RowsOk, MoneyOk, RefundsOk, LogOk, OutboxOk, DeliveryStateOk, ProviderOk;
    forall user, key | (user, key) in s.cache ensures s.cache[(user, key)].hash != NoHash {
      assert Bound(s.db.requests, user, key, s.cache[(user, key)].hash, s.cache[(user, key)].result);
    }
  }

  // ---- causes ----

  // The step that put a claim into its phase.
  ghost predicate Caused(step: Step, c: Claim, p: ClaimPhase) {
    match p
    case Claimed => step.ClaimBatch? && c.event in step.ids
    case PublishOk => step.Publish? && step.claim == c && step.ok
    case PublishErr => step.Publish? && step.claim == c && !step.ok
    case FinalizeErr => step.Finalize? && step.claim == c && step.fate != Done
  }

  ghost predicate PhaseFrom(s: State, step: Step, t: State, c: Claim) {
    c in t.claims ==> (c in s.claims && t.claims[c] == s.claims[c]) || Caused(step, c, t.claims[c])
  }

  lemma ClaimPhaseFrom(cfg: Config, s: State, step: Step, c: Claim)
    requires Enabled(cfg, s, step) && IsClaim(step)
    ensures PhaseFrom(s, step, Apply(cfg, s, step), c)
  {
    hide ClaimRows, Tables.MarkPublished, Tables.RecordFailure;
  }

  lemma StepPhase(cfg: Config, s: State, step: Step, c: Claim)
    requires Enabled(cfg, s, step)
    ensures PhaseFrom(s, step, Apply(cfg, s, step), c)
  {
    if IsClaim(step) {
      hide PhaseFrom;
      ClaimPhaseFrom(cfg, s, step, c);
    } else if step.Finalize? {
      hide FinalizeExhausted, Undelivered;
    } else {
      hide Enabled, Apply;
      StepShape(cfg, s, step);
    }
  }

  ghost predicate CausedBefore(steps: seq<Step>, i: nat, c: Claim, p: ClaimPhase)
    requires i <= |steps|
  {
    exists k :: 0 <= k < i && Caused(steps[k], c, p)
  }

  /** In every execution: a claim is in its phase because of an earlier step on this very claim. */
  lemma {:induction false} PhasesHaveCauses(cfg: Config, ss: seq<State>, steps: seq<Step>, i: nat, c: Claim)
    requires IsExecution(cfg, ss, steps) && i < |ss| && c in ss[i].claims
    ensures CausedBefore(steps, i, c, ss[i].claims[c])
  {
    hide Enabled, Apply, Caused;
    if i != 0 {
      StepPhase(cfg, ss[i - 1], steps[i - 1], c);
      if c in ss[i - 1].claims && ss[i].claims[c] == ss[i - 1].claims[c] {
        PhasesHaveCauses(cfg, ss, steps, i - 1, c);
      }
    }
  }

  lemma WorkerGuards(cfg: Config, s: State, step: Step)
    requires Enabled(cfg, s, step) && (step.MarkPublished? || step.RecordFailure? || step.Finalize?)
    ensures step.claim in s.claims
    ensures step.MarkPublished? ==> s.claims[step.claim] == PublishOk
    ensures step.RecordFailure? ==>
              (s.claims[step.claim] == PublishErr && step.claim.attempt < cfg.maxAttempts)
              || s.claims[step.claim] == FinalizeErr
    ensures step.Finalize? ==>
              (s.claims[step.claim] == PublishErr && cfg.maxAttempts <= step.claim.attempt)
              || (s.claims[step.claim] == Claimed && cfg.maxAttempts < step.claim.attempt)
  {
  }

  /** In every execution: an event is marked published only after a successful Publish under the same claim, reopened
      only after a failed Publish with attempts left or after a failed dead letter, and dead-lettered only after a
      failed Publish of the last attempt or, without any call, beyond it. */
  lemma WorkerCauses(cfg: Config, ss: seq<State>, steps: seq<Step>, i: nat)
    requires IsExecution(cfg, ss, steps) && i < |steps|
    requires steps[i].MarkPublished? || steps[i].RecordFailure? || steps[i].Finalize?
    ensures var c := steps[i].claim;
            && (steps[i].MarkPublished? ==> CausedBefore(steps, i, c, PublishOk))
            && (steps[i].RecordFailure? ==>
                  (CausedBefore(steps, i, c, PublishErr) && c.attempt < cfg.maxAttempts)
                  || CausedBefore(steps, i, c, FinalizeErr))
            && (steps[i].Finalize? ==>
                  (CausedBefore(steps, i, c, PublishErr) && cfg.maxAttempts <= c.attempt)
                  || (CausedBefore(steps, i, c, Claimed) && cfg.maxAttempts < c.attempt))
  {
    hide Enabled, Apply, Init, CausedBefore;
    WorkerGuards(cfg, ss[i], steps[i]);
    PhasesHaveCauses(cfg, ss, steps, i, steps[i].claim);
  }
}
