/** The invariant over whole runs, and what one step can never undo. */
module Runs {
  import opened Domain
  import opened Tables
  import opened Protocol
  import opened Invariants
  import opened Preservation
  import opened Persisting
  import opened Shapes
  import Plan
  import Sums

  lemma ApiStepKeeps(cfg: Config, s: State, step: Step)
    requires Inv(cfg, s) && Enabled(cfg, s, step)
    requires step.StartSend? || step.ReadCache? || step.ReadDb? || step.Persist? || step.Poll? || step.SaveCache?
             || step.CrashSend? || step.Evict? || step.TopUp?
    ensures Inv(cfg, Apply(cfg, s, step))
  {
    hide Inv;
    match step
    case StartSend(pid, cmd) => MoveSendKeeps(cfg, s, pid, Resolving(cmd));
    case ReadCache(pid, broken) => ReadCacheKeeps(cfg, s, pid, broken);
    case ReadDb(pid, broken) => ReadDbKeeps(cfg, s, pid, broken);
    case Persist(pid, cs, requestId, mids, eids, fate) => PersistKeeps(cfg, s, pid, cs, requestId, mids, eids, fate);
    case Poll(pid, broken) => PollKeeps(cfg, s, pid, broken);
    case SaveCache(pid, saved, last) => SaveCacheKeeps(cfg, s, pid, saved, last);
    case CrashSend(pid) => CrashSendKeeps(cfg, s, pid);
    case Evict(user, key) => EvictKeeps(cfg, s, user, key);
    case TopUp(user, amount) => TopUpKeeps(cfg, s, user, amount);
  }

  lemma WorkerStepKeeps(cfg: Config, s: State, step: Step)
    requires Inv(cfg, s) && Enabled(cfg, s, step)
    requires IsClaim(step) || step.Finalize?
    ensures Inv(cfg, Apply(cfg, s, step))
  {
    hide Inv;
    match step
    case ClaimBatch(ids) => ClaimBatchKeeps(cfg, s, ids);
    case Publish(c, appended, ok) => PublishKeeps(cfg, s, c, appended, ok);
    case MarkPublished(c, fate) => MarkPublishedKeeps(cfg, s, c, fate);
    case RecordFailure(c, err, fate) => RecordFailureKeeps(cfg, s, c, err, fate);
    case Finalize(c, err, fate) => FinalizeKeeps(cfg, s, c, err, fate);
    case CrashClaim(c) => DropClaimKeeps(cfg, s, c);
  }

  lemma FetchKeeps(cfg: Config, s: State, did: int, offset: nat)
    requires Inv(cfg, s) && CanFetch(s, did, offset)
    ensures Inv(cfg, s.(deliveries := s.deliveries[did := Delivery(offset, Fetched)]))
  {
    hide RowsOk, MoneyOk, RefundsOk, OutboxOk, ProviderOk, ApiOk;
    assert s.log[offset].value.messageId in Contents(s.db.messages);
  }

  lemma DeliveryStepKeeps(cfg: Config, s: State, step: Step)
    requires Inv(cfg, s) && Enabled(cfg, s, step)
    requires step.CallProvider? || step.Wake? || step.MarkSent? || step.MarkFailed?
    ensures Inv(cfg, Apply(cfg, s, step))
  {
    hide Inv;
    match step
    case CallProvider(did, result, reached, delay) => CallProviderKeeps(cfg, s, did, result, reached, delay);
    case Wake(did) => WakeKeeps(cfg, s, did);
    case MarkSent(did, fate) => MarkSentKeeps(cfg, s, did, fate);
    case MarkFailed(did, fate) => MarkFailedKeeps(cfg, s, did, fate);
  }

  lemma RecordStepKeeps(cfg: Config, s: State, step: Step)
    requires Inv(cfg, s) && Enabled(cfg, s, step)
    requires step.Fetch? || step.TryClaim? || step.Check? || step.Ack? || step.Drop? || step.Tick?
    ensures Inv(cfg, Apply(cfg, s, step))
  {
    hide Inv;
    match step
    case Fetch(did, offset) => FetchKeeps(cfg, s, did, offset);
    case TryClaim(did, fate) => TryClaimKeeps(cfg, s, did, fate);
    case Check(did, broken) => CheckKeeps(cfg, s, did, broken);
    case Ack(did, committed) => AckKeeps(cfg, s, did, committed);
    case Drop(did) => LeaveKeeps(cfg, s, did);
    case Tick(ms) => TickKeeps(cfg, s, ms);
  }

  /** Every step keeps the invariant. */
  lemma StepKeeps(cfg: Config, s: State, step: Step)
    requires Inv(cfg, s) && Enabled(cfg, s, step)
    ensures Inv(cfg, Apply(cfg, s, step))
  {
    hide Inv;
    if IsClaim(step) || step.Finalize? {
      WorkerStepKeeps(cfg, s, step);
    } else if step.StartSend? || step.ReadCache? || step.ReadDb? || step.Persist? || step.Poll? || step.SaveCache?
              || step.CrashSend? || step.Evict? || step.TopUp? {
      ApiStepKeeps(cfg, s, step);
    } else if step.CallProvider? || step.Wake? || step.MarkSent? || step.MarkFailed? {
      DeliveryStepKeeps(cfg, s, step);
    } else {
      RecordStepKeeps(cfg, s, step);
    }
  }

  lemma {:induction false} RunKeeps(cfg: Config, ss: seq<State>, steps: seq<Step>, i: nat)
    requires IsRun(cfg, ss, steps) && Inv(cfg, ss[0]) && i < |ss|
    ensures Inv(cfg, ss[i])
  {
    hide Enabled, Apply, Inv;
    if i != 0 {
      RunKeeps(cfg, ss, steps, i - 1);
      assert ss[i - 1 + 1] == Apply(cfg, ss[i - 1], steps[i - 1]);
      StepKeeps(cfg, ss[i - 1], steps[i - 1]);
    }
  }

  /** Every reachable state satisfies the invariant. */
  lemma ExecutionKeeps(cfg: Config, ss: seq<State>, steps: seq<Step>, i: nat)
    requires IsExecution(cfg, ss, steps) && i < |ss|
    ensures Inv(cfg, ss[i])
  {
    hide Enabled, Apply;
    InitHolds(cfg, ss[0]);
    RunKeeps(cfg, ss, steps, i);
  }

  // ---- monotonicity ----

  // What no step undoes.
  ghost predicate Progress(a: State, b: State) {
    && Evolves(a.db.messages, b.db.messages)
    && OutboxEvolves(a.db.outbox, b.db.outbox)
    && Extends(a.db.requests, b.db.requests)
    && a.db.users.Keys == b.db.users.Keys
    && a.log <= b.log && a.acked <= b.acked && a.sms <= b.sms && a.seen <= b.seen
    && a.hist.refunds <= b.hist.refunds && a.hist.publishes <= b.hist.publishes && a.hist.answers <= b.hist.answers
    && a.now <= b.now
  }

  lemma StoredProgress(cfg: Config, s: State, cmd: SendRequest, cs: seq<Message>, requestId: int, mids: seq<int>,
                       eids: seq<int>, db: Db, result: SendResult)
    requires StoredBy(cfg, s, cmd, cs, requestId, mids, eids, db, result)
    ensures Progress(s, s.(db := db))
  {
    hide Plan.AreCandidates, Plan.Split, Plan.Sendable, HasRequest;
    var rows := StoredShape(cfg, s, cmd, cs, requestId, mids, eids, db, result);
    hide SendTransaction, NewRows;
    Sums.InsertFacts(s.db.messages, mids, rows);
    Sums.InsertFacts(s.db.outbox, eids, EventRows(cfg, mids, rows));
    assert db.users.Keys == s.db.users.Keys;
  }

  lemma PersistProgress(cfg: Config, s: State, pid: int, cs: seq<Message>, requestId: int, mids: seq<int>,
                        eids: seq<int>, fate: Fate)
    requires CanPersist(cfg, s, pid, cs, requestId, mids, eids)
    ensures Progress(s, DoPersist(cfg, s, pid, cs, requestId, mids, eids, fate))
  {
    var cmd := s.sends[pid].cmd;
    match SendTransaction(cfg, s.db, cmd, cs, requestId, mids, eids, s.now)
    case Stored(db, result) => StoredProgress(cfg, s, cmd, cs, requestId, mids, eids, db, result);
    case _ =>
  }

  lemma FinalizeProgress(cfg: Config, s: State, c: Claim, err: string, fate: Fate)
    requires CanFinalize(cfg, s, c)
    ensures Progress(s, DoFinalize(s, c, err, fate))
  {
    assert DoFinalize(s, c, err, fate).db.users.Keys == s.db.users.Keys;
  }

  lemma TryClaimProgress(s: State, did: int, fate: Fate)
    requires AtPhase(s, did)
    ensures Progress(s, DoTryClaim(s, did, fate))
  {
  }

  lemma MarkProgress(s: State, did: int, messages: map<int, Message>, fate: Fate)
    requires did in s.deliveries && Evolves(s.db.messages, messages)
    ensures Progress(s, DoMark(s, did, messages, fate))
  {
  }

  // Tables untouched, the rest only grows.
  lemma IdleProgress(a: State, b: State)
    requires b.db == a.db
    requires a.log <= b.log && a.acked <= b.acked && a.sms <= b.sms && a.seen <= b.seen && a.now <= b.now
    requires a.hist.refunds <= b.hist.refunds && a.hist.publishes <= b.hist.publishes
    requires a.hist.answers <= b.hist.answers
    ensures Progress(a, b)
  {
  }

  lemma MarkStepProgress(cfg: Config, s: State, step: Step)
    requires Enabled(cfg, s, step) && (step.MarkSent? || step.MarkFailed? || step.TryClaim?)
    ensures Progress(s, Apply(cfg, s, step))
  {
    hide Progress;
    match step
    case TryClaim(did, fate) => TryClaimProgress(s, did, fate);
    case MarkSent(did, fate) =>
      MarkProgress(s, did, Tables.MarkSent(s.db.messages, EventOf(s, did).messageId, s.now), fate);
    case MarkFailed(did, fate) =>
      MarkProgress(s, did, Tables.MarkFailed(s.db.messages, EventOf(s, did).messageId, ProviderError, s.now), fate);
  }

  lemma ClaimBatchProgress(cfg: Config, s: State, ids: set<int>)
    requires CanClaimBatch(cfg, s, ids)
    ensures Progress(s, DoClaimBatch(s, ids))
  {
    ClaimRowsEvolve(s.db.outbox, ids, s.now);
  }

  lemma EndProgress(s: State, outbox: map<int, OutboxEvent>, claims: map<Claim, ClaimPhase>)
    requires OutboxEvolves(s.db.outbox, outbox)
    ensures Progress(s, s.(db := s.db.(outbox := outbox), claims := claims))
  {
  }

  lemma WorkerStepProgress(cfg: Config, s: State, step: Step)
    requires Enabled(cfg, s, step) && (IsClaim(step) || step.Finalize?)
    ensures Progress(s, Apply(cfg, s, step))
  {
    hide Progress;
    match step
    case ClaimBatch(ids) => ClaimBatchProgress(cfg, s, ids);
    case MarkPublished(c, fate) => MarkPublishedProgress(s, c, fate);
    case RecordFailure(c, err, fate) => RecordFailureProgress(s, c, err, fate);
    case Finalize(c, err, fate) => FinalizeProgress(cfg, s, c, err, fate);
    case _ => PublishProgress(cfg, s, step);
  }

  lemma MarkPublishedProgress(s: State, c: Claim, fate: Fate)
    ensures Progress(s, DoMarkPublished(s, c, fate))
  {
    EndProgress(s, DoMarkPublished(s, c, fate).db.outbox, s.claims - {c});
  }

  lemma RecordFailureProgress(s: State, c: Claim, err: string, fate: Fate)
    ensures Progress(s, DoRecordFailure(s, c, err, fate))
  {
    EndProgress(s, DoRecordFailure(s, c, err, fate).db.outbox, s.claims - {c});
  }

  lemma PublishProgress(cfg: Config, s: State, step: Step)
    requires Enabled(cfg, s, step) && (step.Publish? || step.CrashClaim?)
    ensures Progress(s, Apply(cfg, s, step))
  {
    hide Progress;
    IdleProgress(s, Apply(cfg, s, step));
  }

  lemma OtherProgress(cfg: Config, s: State, step: Step)
    requires Enabled(cfg, s, step) && (IsCall(step) || IsRecord(step) || step.Tick?)
    ensures Progress(s, Apply(cfg, s, step))
  {
    hide Progress, Enabled, Apply;
    StepShape(cfg, s, step);
    IdleProgress(s, Apply(cfg, s, step));
  }

  /** No step undoes any of it. */
  lemma StepProgress(cfg: Config, s: State, step: Step)
    requires Enabled(cfg, s, step)
    ensures Progress(s, Apply(cfg, s, step))
  {
    if IsClaim(step) || step.Finalize? {
      WorkerStepProgress(cfg, s, step);
    } else if step.MarkSent? || step.MarkFailed? || step.TryClaim? {
      MarkStepProgress(cfg, s, step);
    } else if step.Persist? {
      PersistProgress(cfg, s, step.pid, step.cs, step.requestId, step.mids, step.eids, step.fate);
    } else if step.TopUp? {
      assert Apply(cfg, s, step).db.users.Keys == s.db.users.Keys;
    } else {
      OtherProgress(cfg, s, step);
    }
  }

  lemma ProgressTransitive(a: State, b: State, c: State)
    requires Progress(a, b) && Progress(b, c)
    ensures Progress(a, c)
  {
  }

  lemma ProgressSelf(s: State)
    ensures Progress(s, s)
  {
  }

  lemma NextProgress(cfg: Config, ss: seq<State>, steps: seq<Step>, i: nat)
    requires IsRun(cfg, ss, steps) && i < |steps|
    ensures Progress(ss[i], ss[i + 1])
  {
    hide Progress;
    StepProgress(cfg, ss[i], steps[i]);
  }

  /** Along a run the tables, the log and the history only move forward. */
  lemma {:induction false} RunProgress(cfg: Config, ss: seq<State>, steps: seq<Step>, i: nat, j: nat)
    requires IsRun(cfg, ss, steps) && i <= j < |ss|
    ensures Progress(ss[i], ss[j])
    decreases j
  {
    hide Progress, Enabled, Apply;
    if i == j {
      ProgressSelf(ss[i]);
    } else {
      RunProgress(cfg, ss, steps, i, j - 1);
      NextProgress(cfg, ss, steps, j - 1);
      ProgressTransitive(ss[i], ss[j - 1], ss[j]);
    }
  }

  // ---- what can follow ----

  ghost predicate RunFromTo(cfg: Config, ss: seq<State>, steps: seq<Step>, s: State, t: State) {
    IsRun(cfg, ss, steps) && ss[0] == s && ss[|steps|] == t
  }

  // Some run leads from s to t.
  ghost predicate Leads(cfg: Config, s: State, t: State) {
    exists ss, steps :: RunFromTo(cfg, ss, steps, s, t)
  }

  lemma LeadsSelf(cfg: Config, s: State)
    ensures Leads(cfg, s, s)
  {
    var steps: seq<Step> := [];
    assert RunFromTo(cfg, [s], steps, s, s);
  }

  lemma LeadsNext(cfg: Config, s: State, t: State, step: Step) returns (u: State)
    requires Leads(cfg, s, t) && Enabled(cfg, t, step)
    ensures u == Apply(cfg, t, step) && Leads(cfg, s, u)
  {
    u := Apply(cfg, t, step);
    hide Enabled, Apply;
    var ss, steps :| RunFromTo(cfg, ss, steps, s, t);
    var ss', steps' := ss + [u], steps + [step];
    forall i | 0 <= i < |steps'|
      ensures Enabled(cfg, ss'[i], steps'[i]) && ss'[i + 1] == Apply(cfg, ss'[i], steps'[i])
    {
      if i < |steps| { assert steps'[i] == steps[i] && ss'[i] == ss[i] && ss'[i + 1] == ss[i + 1]; }
    }
    assert RunFromTo(cfg, ss', steps', s, u);
  }

  lemma RunLength(cfg: Config, ss: seq<State>, steps: seq<Step>)
    requires IsRun(cfg, ss, steps)
    ensures |ss| == |steps| + 1
  {
  }

  lemma LeadsAlong(cfg: Config, ss: seq<State>, steps: seq<Step>, i: nat, j: nat)
    requires IsRun(cfg, ss, steps) && i <= j < |ss|
    ensures Leads(cfg, ss[i], ss[j])
  {
    hide Enabled, Apply;
    var ts, qs := ss[i..j + 1], steps[i..j];
    forall k | 0 <= k < |qs| ensures Enabled(cfg, ts[k], qs[k]) && ts[k + 1] == Apply(cfg, ts[k], qs[k]) {
      assert qs[k] == steps[i + k] && ts[k] == ss[i + k] && ts[k + 1] == ss[i + k + 1];
    }
    assert RunFromTo(cfg, ts, qs, ss[i], ss[j]);
  }
}
