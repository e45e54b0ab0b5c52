/** Timed runs: if provider calls, backoffs and marks keep their time, the two-minute lease of
    ClaimMessageForSending is a lock. */
module Lease {
  import opened Domain
  import opened Sums
  import opened Tables
  import opened Protocol
  import opened Invariants
  import opened Runs
  import opened Shapes
  import opened Refunds
  import Persisting
  import Provider

  // Bounds in milliseconds on one provider call and on the final database mark.
  datatype Pace = Pace(call: nat, mark: nat)

  // Longest total backoff before attempt k + 1: 149, then 149 + 249.
  function BackoffBefore(attempt: int): int {
    if attempt <= 1 then 0 else if attempt == 2 then 149 else 398
  }

  /** 398 ms is exactly the most the retry loop can sleep in total. */
  lemma BackoffTotal(d1: int, d2: int)
    ensures (BackoffRange(1, d1) <==> 100 <= d1 <= 149) && (BackoffRange(2, d2) <==> 200 <= d2 <= 249)
    ensures BackoffRange(1, d1) && BackoffRange(2, d2) ==> d1 + d2 <= 398
    ensures BackoffRange(1, 149) && BackoffRange(2, 249) && 149 + 249 == 398
  {
  }

  // The lease outlasts three calls, the backoffs and the mark.
  predicate Fits(pace: Pace) {
    3 * pace.call + BackoffBefore(MAX_PROVIDER_ATTEMPTS) + pace.mark <= SENDING_STALE_AFTER
  }

  // No unfinished claim overstays its current activity.
  ghost predicate OnTime(pace: Pace, p: Phase, now: int) {
    match p
    case Calling(_, _, since) => now - since <= pace.call
    case Waiting(_, _, since, delay) => now - since <= delay
    case Accepted(_, since) => now - since <= pace.mark
    case GaveUp(_, since) => now - since <= pace.mark
    case _ => true
  }

  ghost predicate Timely(pace: Pace, s: State) {
    forall d :: d in s.deliveries ==> OnTime(pace, s.deliveries[d].phase, s.now)
  }

  // How far into its claim a phase can begin.
  ghost predicate WithinBudget(pace: Pace, p: Phase) {
    match p
    case Calling(k, at, since) =>
      1 <= k <= 3 && at <= since <= at + (k - 1) * pace.call + BackoffBefore(k)
    case Waiting(k, at, since, delay) =>
      1 <= k < 3 && at <= since <= at + k * pace.call + BackoffBefore(k) && BackoffRange(k, delay)
    case Accepted(at, since) => at <= since <= at + 3 * pace.call + BackoffBefore(3)
    case GaveUp(at, since) => at <= since <= at + 3 * pace.call + BackoffBefore(3)
    case _ => true
  }

  function ClaimedAt(p: Phase): int
    requires Holding(p)
  {
    p.claimedAt
  }

  /** A claim that is on time is not older than the lease. */
  lemma ClaimIsYoung(pace: Pace, p: Phase, now: int)
    requires Fits(pace) && Holding(p) && WithinBudget(pace, p) && OnTime(pace, p, now)
    ensures now - ClaimedAt(p) <= 120000
  {
    if p.Calling? {
      CallBudget(p.attempt, pace.call);
    } else if p.Waiting? {
      CallBudget(p.attempt, pace.call);
    }
  }

  lemma CallBudget(k: int, call: nat)
    requires 1 <= k <= 3
    ensures (k - 1) * call + call == k * call <= 3 * call
  {
  }

  // The row of a held message: leased since the claim, or failed meanwhile by a dead letter.
  ghost predicate HolderOk(pace: Pace, d: Delivery, log: seq<Record>, messages: map<int, Message>) {
    Holding(d.phase) ==>
      && d.offset < |log| && WithinBudget(pace, d.phase)
      && var m := log[d.offset].value.messageId;
      && m in messages
      && (messages[m].status.MessageFailed?
          || (messages[m].status.MessageSending? && messages[m].updatedAt == ClaimedAt(d.phase)))
  }

  ghost predicate SameMessage(log: seq<Record>, d: Delivery, e: Delivery) {
    d.offset < |log| && e.offset < |log| && log[d.offset].value.messageId == log[e.offset].value.messageId
  }

  ghost predicate LeaseOk(pace: Pace, deliveries: map<int, Delivery>, log: seq<Record>, messages: map<int, Message>) {
    && (forall d :: d in deliveries ==> HolderOk(pace, deliveries[d], log, messages))
    && (forall d, e | d in deliveries && e in deliveries && d != e
                      && Holding(deliveries[d].phase) && Holding(deliveries[e].phase) ::
          !SameMessage(log, deliveries[d], deliveries[e]))
  }

  ghost predicate Leased(pace: Pace, s: State) {
    LeaseOk(pace, s.deliveries, s.log, s.db.messages)
  }

  // A delivery moves without starting to hold.
  lemma MovePhase(pace: Pace, s: State, did: int, p: Phase)
    requires Leased(pace, s) && did in s.deliveries
    requires Holding(p) ==> Holding(s.deliveries[did].phase) && WithinBudget(pace, p)
                            && ClaimedAt(p) == ClaimedAt(s.deliveries[did].phase)
    ensures Leased(pace, Enter(s, did, p))
  {
    var ds := Enter(s, did, p).deliveries;
    forall d | d in ds ensures HolderOk(pace, ds[d], s.log, s.db.messages) {
      assert HolderOk(pace, s.deliveries[d], s.log, s.db.messages);
    }
    forall d, e | d in ds && e in ds && d != e && Holding(ds[d].phase) && Holding(ds[e].phase)
      ensures !SameMessage(s.log, ds[d], ds[e])
    {
      assert !SameMessage(s.log, s.deliveries[d], s.deliveries[e]);
    }
  }

  lemma LeavePhase(pace: Pace, s: State, did: int)
    requires Leased(pace, s)
    ensures Leased(pace, Leave(s, did))
  {
  }

  // Nobody on time holds a message that can be claimed.
  lemma ClaimableIsFree(pace: Pace, s: State, m: int)
    requires Leased(pace, s) && Timely(pace, s) && Fits(pace) && ClaimableMessage(s.db.messages, m, s.now)
    ensures Unclaimed(s.deliveries, s.log, m)
  {
    forall d | d in s.deliveries && Holding(s.deliveries[d].phase) && s.deliveries[d].offset < |s.log|
      ensures s.log[s.deliveries[d].offset].value.messageId != m
    {
      assert HolderOk(pace, s.deliveries[d], s.log, s.db.messages);
      assert OnTime(pace, s.deliveries[d].phase, s.now);
      ClaimIsYoung(pace, s.deliveries[d].phase, s.now);
    }
  }

  // A row nobody holds may be changed at will.
  lemma FreeRow(pace: Pace, s: State, m: int, row: Message)
    requires Leased(pace, s) && Unclaimed(s.deliveries, s.log, m)
    ensures Leased(pace, s.(db := s.db.(messages := s.db.messages[m := row])))
  {
    forall d | d in s.deliveries ensures HolderOk(pace, s.deliveries[d], s.log, s.db.messages[m := row]) {
      assert HolderOk(pace, s.deliveries[d], s.log, s.db.messages);
    }
  }

  lemma LeaseTryClaim(pace: Pace, s: State, did: int, fate: Fate)
    requires Leased(pace, s) && Timely(pace, s) && Fits(pace) && AtPhase(s, did) && s.deliveries[did].phase.Fetched?
    ensures Leased(pace, DoTryClaim(s, did, fate))
  {
    hide LeaseOk, Timely;
    var m := EventOf(s, did).messageId;
    var s1 := if fate.Aborted? then s else s.(db := s.db.(messages := ClaimMessage(s.db.messages, m, s.now)));
    if !fate.Aborted? && ClaimableMessage(s.db.messages, m, s.now) {
      ClaimableIsFree(pace, s, m);
      FreeRow(pace, s, m, s.db.messages[m].(status := MessageSending, updatedAt := s.now));
    }
    assert Leased(pace, s1);
    if !fate.Done? {
      LeavePhase(pace, s1, did);
    } else if ClaimableMessage(s.db.messages, m, s.now) {
      NewHolder(pace, s1, did);
    } else {
      MovePhase(pace, s1, did, Checking);
    }
  }

  lemma NewHolder(pace: Pace, s: State, did: int)
    requires Leased(pace, s) && AtPhase(s, did) && !Holding(s.deliveries[did].phase)
    requires var m := EventOf(s, did).messageId;
             && Unclaimed(s.deliveries, s.log, m) && m in s.db.messages
             && s.db.messages[m].status.MessageSending? && s.db.messages[m].updatedAt == s.now
    ensures Leased(pace, Enter(s, did, Calling(1, s.now, s.now)))
  {
    var ds := Enter(s, did, Calling(1, s.now, s.now)).deliveries;
    forall d | d in ds ensures HolderOk(pace, ds[d], s.log, s.db.messages) {
      assert HolderOk(pace, s.deliveries[d], s.log, s.db.messages);
    }
    forall d, e | d in ds && e in ds && d != e && Holding(ds[d].phase) && Holding(ds[e].phase)
      ensures !SameMessage(s.log, ds[d], ds[e])
    {
      if d != did && e != did { assert !SameMessage(s.log, s.deliveries[d], s.deliveries[e]); }
    }
  }

  lemma LeaseMark(pace: Pace, s: State, did: int, row: Message, fate: Fate)
    requires Leased(pace, s) && AtPhase(s, did) && Holding(s.deliveries[did].phase)
    ensures Leased(pace, DoMark(s, did, s.db.messages[EventOf(s, did).messageId := row], fate))
  {
    hide WithinBudget;
    var m := EventOf(s, did).messageId;
    var s1 := Leave(s, did);
    LeavePhase(pace, s, did);
    forall d | d in s1.deliveries && Holding(s1.deliveries[d].phase) && s1.deliveries[d].offset < |s.log|
      ensures s.log[s1.deliveries[d].offset].value.messageId != m
    {
      assert !SameMessage(s.log, s.deliveries[d], s.deliveries[did]);
    }
    FreeRow(pace, s1, m, row);
    BackIn(pace, if fate.Aborted? then s1 else s1.(db := s1.db.(messages := s1.db.messages[m := row])),
           did, Delivery(s.deliveries[did].offset, Acking));
    assert s1.deliveries[did := Delivery(s.deliveries[did].offset, Acking)]
        == s.deliveries[did := s.deliveries[did].(phase := Acking)];
  }

  lemma BackIn(pace: Pace, s: State, did: int, d: Delivery)
    requires Leased(pace, s) && !Holding(d.phase)
    ensures Leased(pace, s.(deliveries := s.deliveries[did := d]))
  {
    var ds := s.deliveries[did := d];
    forall x | x in ds ensures HolderOk(pace, ds[x], s.log, s.db.messages) {
      if x != did { assert HolderOk(pace, s.deliveries[x], s.log, s.db.messages); }
    }
  }

  lemma LeaseCall(pace: Pace, s: State, did: int, result: CallResult, reached: bool, delay: int)
    requires Leased(pace, s) && Timely(pace, s) && CanCallProvider(s, did, result, reached, delay)
    requires s.deliveries[did].phase.since <= s.now
    ensures Leased(pace, DoCallProvider(s, did, result, reached, delay))
  {
    hide LeaseOk, Provider.ProviderIdempotencyKey;
    var s1 := if reached then Reach(s, EventOf(s, did)) else s;
    assert Leased(pace, s1);
    HolderBudget(pace, s, did);
    var Calling(k, at, since) := s.deliveries[did].phase;
    assert OnTime(pace, s.deliveries[did].phase, s.now);
    CallBudget(k, pace.call);
    match result
    case Ok => MovePhase(pace, s1, did, Accepted(at, s.now));
    case Canceled => LeavePhase(pace, s1, did);
    case Err =>
      if k == MAX_PROVIDER_ATTEMPTS { MovePhase(pace, s1, did, GaveUp(at, s.now)); }
      else { MovePhase(pace, s1, did, Phase.Waiting(k, at, s.now, delay)); }
  }

  lemma HolderBudget(pace: Pace, s: State, did: int)
    requires Leased(pace, s) && did in s.deliveries && Holding(s.deliveries[did].phase)
    ensures WithinBudget(pace, s.deliveries[did].phase)
  {
    assert HolderOk(pace, s.deliveries[did], s.log, s.db.messages);
  }

  lemma LeaseWake(pace: Pace, s: State, did: int)
    requires Leased(pace, s) && Timely(pace, s) && did in s.deliveries && s.deliveries[did].phase.Waiting?
    requires s.deliveries[did].phase.since <= s.now
    ensures Leased(pace, DoWake(s, did))
  {
    hide LeaseOk;
    HolderBudget(pace, s, did);
    var Waiting(k, at, since, delay) := s.deliveries[did].phase;
    assert OnTime(pace, s.deliveries[did].phase, s.now);
    MovePhase(pace, s, did, Calling(k + 1, at, s.now));
  }

  // A dead letter fails the row, which is allowed under a lease.
  lemma LeaseFinalize(pace: Pace, s: State, c: Claim, err: string, fate: Fate)
    requires Leased(pace, s) && c.event in s.db.outbox
    ensures Leased(pace, DoFinalize(s, c, err, fate))
  {
    hide WithinBudget;
    var s1 := DoFinalize(s, c, err, fate);
    forall d | d in s.deliveries ensures HolderOk(pace, s.deliveries[d], s.log, s1.db.messages) {
      assert HolderOk(pace, s.deliveries[d], s.log, s.db.messages);
    }
  }

  lemma LeaseGrow(pace: Pace, deliveries: map<int, Delivery>, log: seq<Record>, more: seq<Record>,
                  a: map<int, Message>, b: map<int, Message>)
    requires LeaseOk(pace, deliveries, log, a) && (forall d :: d in deliveries ==> deliveries[d].offset < |log|)
    requires forall m :: m in a ==> m in b && b[m] == a[m]
    ensures LeaseOk(pace, deliveries, log + more, b)
  {
    hide WithinBudget;
    forall d | d in deliveries ensures HolderOk(pace, deliveries[d], log + more, b) {
      assert HolderOk(pace, deliveries[d], log, a);
    }
    forall d, e | d in deliveries && e in deliveries && d != e
                  && Holding(deliveries[d].phase) && Holding(deliveries[e].phase)
      ensures !SameMessage(log + more, deliveries[d], deliveries[e])
    {
      assert !SameMessage(log, deliveries[d], deliveries[e]);
    }
  }

  lemma LeasePersist(cfg: Config, pace: Pace, s: State, pid: int, cs: seq<Message>, requestId: int, mids: seq<int>,
                     eids: seq<int>, fate: Fate)
    requires Leased(pace, s) && OffsetsOk(s) && CanPersist(cfg, s, pid, cs, requestId, mids, eids)
    ensures Leased(pace, DoPersist(cfg, s, pid, cs, requestId, mids, eids, fate))
  {
    hide LeaseOk;
    var cmd := s.sends[pid].cmd;
    match SendTransaction(cfg, s.db, cmd, cs, requestId, mids, eids, s.now)
    case Stored(db, result) =>
      var rows := Persisting.StoredShape(cfg, s, cmd, cs, requestId, mids, eids, db, result);
      InsertFacts(s.db.messages, mids, rows);
      LeaseGrow(pace, s.deliveries, s.log, [], s.db.messages, db.messages);
      assert s.log + [] == s.log;
    case _ =>
  }

  // Phases begin in the past.
  ghost predicate Begun(s: State) {
    forall d :: d in s.deliveries && Holding(s.deliveries[d].phase) ==> s.deliveries[d].phase.since <= s.now
  }

  lemma LeaseWorker(cfg: Config, pace: Pace, s: State, step: Step)
    requires Leased(pace, s) && OffsetsOk(s) && Enabled(cfg, s, step)
    requires IsClaim(step)
    ensures Leased(pace, Apply(cfg, s, step))
  {
    hide LeaseOk, Enabled, Apply;
    StepShape(cfg, s, step);
    var t := Apply(cfg, s, step);
    LeaseGrow(pace, s.deliveries, s.log, t.log[|s.log|..], s.db.messages, t.db.messages);
    assert s.log + t.log[|s.log|..] == t.log;
  }

  lemma LeaseApi(cfg: Config, pace: Pace, s: State, step: Step)
    requires Leased(pace, s) && Enabled(cfg, s, step)
    requires IsCall(step) || step.TopUp? || step.Tick?
    ensures Leased(pace, Apply(cfg, s, step))
  {
    hide LeaseOk, Enabled, Apply;
    StepShape(cfg, s, step);
  }

  lemma LeaseConsumer(cfg: Config, pace: Pace, s: State, step: Step)
    requires Leased(pace, s) && Timely(pace, s) && Fits(pace) && Begun(s) && OffsetsOk(s) && Enabled(cfg, s, step)
    requires step.TryClaim? || step.CallProvider? || step.Wake? || step.MarkSent? || step.MarkFailed?
    ensures Leased(pace, Apply(cfg, s, step))
  {
    hide LeaseOk, Timely;
    match step
    case TryClaim(did, fate) => LeaseTryClaim(pace, s, did, fate);
    case CallProvider(did, result, reached, delay) => LeaseCall(pace, s, did, result, reached, delay);
    case Wake(did) => LeaseWake(pace, s, did);
    case MarkSent(did, fate) =>
      var id := EventOf(s, did).messageId;
      LeaseMark(pace, s, did, s.db.messages[id].(status := MessageSent, errorCode := None, updatedAt := s.now), fate);
    case MarkFailed(did, fate) =>
      var id := EventOf(s, did).messageId;
      LeaseMark(pace, s, did,
                s.db.messages[id].(status := MessageFailed, errorCode := Some(ProviderError), updatedAt := s.now),
                fate);
  }

  lemma LeaseRecord(cfg: Config, pace: Pace, s: State, step: Step)
    requires Leased(pace, s) && Enabled(cfg, s, step)
    requires step.Fetch? || step.Check? || step.Ack? || step.Drop?
    ensures Leased(pace, Apply(cfg, s, step))
  {
    hide LeaseOk, Classify;
    match step
    case Fetch(did, offset) => BackIn(pace, s, did, Delivery(offset, Fetched));
    case Check(did, broken) =>
      LeavePhase(pace, s, did);
      MovePhase(pace, s, did, Acking);
    case Ack(did, committed) =>
      LeavePhase(pace, if committed then s.(acked := s.acked + {s.deliveries[did].offset}) else s, did);
    case Drop(did) => LeavePhase(pace, s, did);
  }

  lemma StepLeased(cfg: Config, pace: Pace, s: State, step: Step)
    requires Leased(pace, s) && Timely(pace, s) && Fits(pace) && Begun(s) && OffsetsOk(s) && Enabled(cfg, s, step)
    ensures Leased(pace, Apply(cfg, s, step))
  {
    hide Leased, Timely, Begun, OffsetsOk;
    if step.TryClaim? || step.CallProvider? || step.Wake? || step.MarkSent? || step.MarkFailed? {
      LeaseConsumer(cfg, pace, s, step);
    } else if step.Fetch? || step.Check? || step.Ack? || step.Drop? {
      LeaseRecord(cfg, pace, s, step);
    } else if step.ClaimBatch? || step.Publish? || step.MarkPublished? || step.RecordFailure? || step.CrashClaim? {
      LeaseWorker(cfg, pace, s, step);
    } else if step.Finalize? {
      LeaseFinalize(pace, s, step.claim, step.err, step.fate);
    } else if step.Persist? {
      LeasePersist(cfg, pace, s, step.pid, step.cs, step.requestId, step.mids, step.eids, step.fate);
    } else {
      LeaseApi(cfg, pace, s, step);
    }
  }

  lemma StepBegun(cfg: Config, s: State, step: Step)
    requires Begun(s) && Enabled(cfg, s, step)
    ensures Begun(Apply(cfg, s, step))
  {
    if step.TryClaim? || step.MarkSent? || step.MarkFailed? || step.CallProvider? {
      ConsumerBegun(cfg, s, step);
    } else if IsRecord(step) {
      RecordBegun(cfg, s, step);
    } else {
      hide Enabled, Apply;
      StepShape(cfg, s, step);
    }
  }

  lemma EnterBegun(s: State, did: int, p: Phase)
    requires Begun(s) && did in s.deliveries && (Holding(p) ==> p.since <= s.now)
    ensures Begun(Enter(s, did, p))
  {
  }

  lemma LeaveBegun(s: State, did: int)
    requires Begun(s)
    ensures Begun(Leave(s, did))
  {
  }

  lemma RecordBegun(cfg: Config, s: State, step: Step)
    requires Begun(s) && Enabled(cfg, s, step) && IsRecord(step) && !step.CallProvider?
    ensures Begun(Apply(cfg, s, step))
  {
    hide Classify;
  }

  lemma TryClaimBegun(s: State, did: int, fate: Fate)
    requires Begun(s) && AtPhase(s, did)
    ensures Begun(DoTryClaim(s, did, fate))
  {
    hide ClaimMessage, ClaimableMessage;
  }

  lemma MarkBegun(s: State, did: int, messages: map<int, Message>, fate: Fate)
    requires Begun(s) && did in s.deliveries
    ensures Begun(DoMark(s, did, messages, fate))
  {
  }

  lemma CallBegun(s: State, did: int, result: CallResult, reached: bool, delay: int)
    requires Begun(s) && CanCallProvider(s, did, result, reached, delay)
    ensures Begun(DoCallProvider(s, did, result, reached, delay))
  {
    hide Provider.ProviderIdempotencyKey;
    var s1 := if reached then Reach(s, EventOf(s, did)) else s;
    assert Begun(s1);
    LeaveBegun(s1, did);
    EnterBegun(s1, did, AfterPhase(s.deliveries[did].phase, result, s.now, delay));
  }

  function AfterPhase(p: Phase, result: CallResult, now: int, delay: int): Phase
    requires p.Calling?
  {
    if result.Ok? then Accepted(p.claimedAt, now)
    else if p.attempt == MAX_PROVIDER_ATTEMPTS then GaveUp(p.claimedAt, now)
    else Phase.Waiting(p.attempt, p.claimedAt, now, delay)
  }

  lemma ConsumerBegun(cfg: Config, s: State, step: Step)
    requires Begun(s) && Enabled(cfg, s, step)
    requires step.TryClaim? || step.MarkSent? || step.MarkFailed? || step.CallProvider?
    ensures Begun(Apply(cfg, s, step))
  {
    hide Begun;
    match step
    case TryClaim(did, fate) => TryClaimBegun(s, did, fate);
    case CallProvider(did, result, reached, delay) => CallBegun(s, did, result, reached, delay);
    case MarkSent(did, fate) =>
      MarkBegun(s, did, Tables.MarkSent(s.db.messages, EventOf(s, did).messageId, s.now), fate);
    case MarkFailed(did, fate) =>
      MarkBegun(s, did, Tables.MarkFailed(s.db.messages, EventOf(s, did).messageId, ProviderError, s.now), fate);
  }

  // ---- timed executions ----

  ghost predicate IsTimedExecution(cfg: Config, pace: Pace, ss: seq<State>, steps: seq<Step>) {
    IsExecution(cfg, ss, steps) && forall i :: 0 <= i < |ss| ==> Timely(pace, ss[i])
  }

  lemma {:induction false} RunLeased(cfg: Config, pace: Pace, ss: seq<State>, steps: seq<Step>, i: nat)
    requires IsTimedExecution(cfg, pace, ss, steps) && Fits(pace) && i < |ss|
    ensures Leased(pace, ss[i]) && Begun(ss[i])
  {
    hide Leased, Begun, Timely, OffsetsOk, Init, Inv, Enabled, Apply;
    if i == 0 {
      InitLeased(pace, ss[0]);
    } else {
      RunLeased(cfg, pace, ss, steps, i - 1);
      ExecutionKeeps(cfg, ss, steps, i - 1);
      OffsetsInLog(cfg, ss[i - 1]);
      StepLeased(cfg, pace, ss[i - 1], steps[i - 1]);
      StepBegun(cfg, ss[i - 1], steps[i - 1]);
    }
  }

  lemma InitLeased(pace: Pace, s: State)
    requires Init(s)
    ensures Leased(pace, s) && Begun(s)
  {
  }

  /** Lease safety: in a timed run no two workers ever hold an acquired claim on one message. */
  lemma OneHolder(cfg: Config, pace: Pace, ss: seq<State>, steps: seq<Step>, i: nat, d: int, e: int)
    requires IsTimedExecution(cfg, pace, ss, steps) && 3 * pace.call + 398 + pace.mark <= 120000 && i < |ss|
    requires d in ss[i].deliveries && Holding(ss[i].deliveries[d].phase) && AtPhase(ss[i], d)
    requires e in ss[i].deliveries && Holding(ss[i].deliveries[e].phase) && AtPhase(ss[i], e)
    requires EventOf(ss[i], d).messageId == EventOf(ss[i], e).messageId
    ensures d == e
  {
    hide Enabled, Apply, Begun, HolderOk, Timely;
    RunLeased(cfg, pace, ss, steps, i);
    assert SameMessage(ss[i].log, ss[i].deliveries[d], ss[i].deliveries[e]);
  }

  // Sent and without a holder: what stays so.
  ghost predicate SentAlone(s: State, m: int) {
    m in s.db.messages && s.db.messages[m].status.MessageSent? && Unclaimed(s.deliveries, s.log, m)
  }

  lemma SentIsAlone(pace: Pace, s: State, m: int)
    requires Leased(pace, s) && m in s.db.messages && s.db.messages[m].status.MessageSent?
    ensures SentAlone(s, m)
  {
    forall d | d in s.deliveries && Holding(s.deliveries[d].phase) && s.deliveries[d].offset < |s.log|
      ensures s.log[s.deliveries[d].offset].value.messageId != m
    {
      assert HolderOk(pace, s.deliveries[d], s.log, s.db.messages);
    }
  }

  ghost predicate SameRow(a: State, b: State, m: int) {
    m in a.db.messages ==> m in b.db.messages && b.db.messages[m] == a.db.messages[m]
  }

  lemma SentStepStays(cfg: Config, s: State, step: Step, m: int)
    requires SentAlone(s, m) && OffsetsOk(s) && Enabled(cfg, s, step)
    ensures SameRow(s, Apply(cfg, s, step), m)
  {
    if step.Persist? {
      hide Unclaimed;
      SentPersist(cfg, s, step.pid, step.cs, step.requestId, step.mids, step.eids, step.fate, m);
    } else if IsMark(step) {
      SentConsumer(cfg, s, step, m);
    } else if step.Finalize? {
      hide Unclaimed, OffsetsOk, CloseEvent;
    } else {
      hide Enabled, Apply, Unclaimed, OffsetsOk;
      StepShape(cfg, s, step);
    }
  }

  lemma SentPersist(cfg: Config, s: State, pid: int, cs: seq<Message>, requestId: int, mids: seq<int>, eids: seq<int>,
                    fate: Fate, m: int)
    requires CanPersist(cfg, s, pid, cs, requestId, mids, eids)
    ensures SameRow(s, DoPersist(cfg, s, pid, cs, requestId, mids, eids, fate), m)
  {
    var cmd := s.sends[pid].cmd;
    match SendTransaction(cfg, s.db, cmd, cs, requestId, mids, eids, s.now)
    case Stored(db, result) =>
      var rows := Persisting.StoredShape(cfg, s, cmd, cs, requestId, mids, eids, db, result);
      InsertFacts(s.db.messages, mids, rows);
    case _ =>
  }

  lemma SentTryClaim(s: State, did: int, fate: Fate, m: int)
    requires SentAlone(s, m) && AtPhase(s, did)
    ensures SameRow(s, DoTryClaim(s, did, fate), m)
  {
    hide Unclaimed;
  }

  // A marker holds its message, so it is not m.
  lemma SentMark(s: State, did: int, row: Message, fate: Fate, m: int)
    requires SentAlone(s, m) && AtPhase(s, did) && Holding(s.deliveries[did].phase)
    ensures SameRow(s, DoMark(s, did, s.db.messages[EventOf(s, did).messageId := row], fate), m)
  {
  }

  lemma SentConsumer(cfg: Config, s: State, step: Step, m: int)
    requires SentAlone(s, m) && OffsetsOk(s) && Enabled(cfg, s, step)
    requires step.TryClaim? || step.MarkSent? || step.MarkFailed?
    ensures SameRow(s, Apply(cfg, s, step), m)
  {
    hide SentAlone, SameRow;
    match step
    case TryClaim(did, fate) => SentTryClaim(s, did, fate, m);
    case MarkSent(did, fate) =>
      var id := EventOf(s, did).messageId;
      SentMark(s, did, s.db.messages[id].(status := MessageSent, errorCode := None, updatedAt := s.now), fate, m);
    case MarkFailed(did, fate) =>
      var id := EventOf(s, did).messageId;
      SentMark(s, did,
               s.db.messages[id].(status := MessageFailed, errorCode := Some(ProviderError), updatedAt := s.now),
               fate, m);
  }

  lemma SentNext(cfg: Config, pace: Pace, ss: seq<State>, steps: seq<Step>, i: nat, m: int)
    requires IsTimedExecution(cfg, pace, ss, steps) && 3 * pace.call + 398 + pace.mark <= 120000 && i < |steps|
    requires m in ss[i].db.messages && ss[i].db.messages[m].status.MessageSent?
    ensures SameRow(ss[i], ss[i + 1], m)
  {
    hide Enabled, Apply, Leased, Begun, Timely, OffsetsOk, SentAlone, SameRow, Inv;
    RunLeased(cfg, pace, ss, steps, i);
    ExecutionKeeps(cfg, ss, steps, i);
    OffsetsInLog(cfg, ss[i]);
    SentIsAlone(pace, ss[i], m);
    SentStepStays(cfg, ss[i], steps[i], m);
  }

  /** In a timed run sent is absorbing: no late claimant turns a sent message into a failed one. */
  lemma {:induction false} SentForever(cfg: Config, pace: Pace, ss: seq<State>, steps: seq<Step>, i: nat, j: nat,
                                       m: int)
    requires IsTimedExecution(cfg, pace, ss, steps) && |ss| == |steps| + 1 && i <= j < |ss|
    requires 3 * pace.call + 398 + pace.mark <= 120000
    requires m in ss[i].db.messages && ss[i].db.messages[m].status.MessageSent?
    ensures m in ss[j].db.messages && ss[j].db.messages[m] == ss[i].db.messages[m]
    decreases j
  {
    hide Enabled, Apply;
    if i < j {
      hide IsTimedExecution;
      SentForever(cfg, pace, ss, steps, i, j - 1, m);
      SentNext(cfg, pace, ss, steps, j - 1, m);
    }
  }

  // ---- what an acquired claim is worth without timing assumptions ----

  // The row is leased since t0, or its message is sent or failed meanwhile.
  ghost predicate LeasedSince(s: State, m: int, t0: int) {
    && m in s.db.messages
    && (Terminal(s.db.messages[m]) || (s.db.messages[m].status.MessageSending? && s.db.messages[m].updatedAt == t0))
  }

  lemma LeaseMarkKeeps(s: State, did: int, row: Message, fate: Fate, m: int, t0: int)
    requires LeasedSince(s, m, t0) && AtPhase(s, did) && Terminal(row)
    ensures LeasedSince(DoMark(s, did, s.db.messages[EventOf(s, did).messageId := row], fate), m, t0)
  {
  }

  lemma LeaseTryClaimKeeps(s: State, did: int, fate: Fate, m: int, t0: int)
    requires LeasedSince(s, m, t0) && AtPhase(s, did) && s.now <= t0 + SENDING_STALE_AFTER
    ensures LeasedSince(DoTryClaim(s, did, fate), m, t0)
  {
  }

  lemma LeaseDeliveryKeeps(cfg: Config, s: State, step: Step, m: int, t0: int)
    requires Enabled(cfg, s, step) && IsMark(step) && OffsetsOk(s)
    requires LeasedSince(s, m, t0) && s.now <= t0 + SENDING_STALE_AFTER
    ensures LeasedSince(Apply(cfg, s, step), m, t0)
  {
    hide LeasedSince;
    match step
    case TryClaim(did, fate) => LeaseTryClaimKeeps(s, did, fate, m, t0);
    case MarkSent(did, fate) =>
      var row := s.db.messages[EventOf(s, did).messageId];
      LeaseMarkKeeps(s, did, row.(status := MessageSent, errorCode := None, updatedAt := s.now), fate, m, t0);
    case MarkFailed(did, fate) =>
      var row := s.db.messages[EventOf(s, did).messageId];
      LeaseMarkKeeps(s, did, row.(status := MessageFailed, errorCode := Some(ProviderError), updatedAt := s.now), fate,
                     m, t0);
  }

  lemma LeaseFinalizeKeeps(s: State, c: Claim, err: string, fate: Fate, m: int, t0: int)
    requires LeasedSince(s, m, t0) && c.event in s.db.outbox
    ensures LeasedSince(DoFinalize(s, c, err, fate), m, t0)
  {
  }

  lemma LeaseOtherKeeps(cfg: Config, s: State, step: Step, m: int, t0: int)
    requires Enabled(cfg, s, step) && LeasedSince(s, m, t0)
    requires IsCall(step) || IsRecord(step) || IsClaim(step) || step.TopUp? || step.Tick?
    ensures LeasedSince(Apply(cfg, s, step), m, t0)
  {
    hide Enabled, Apply;
    StepShape(cfg, s, step);
  }

  lemma StepLeaseKeeps(cfg: Config, s: State, step: Step, m: int, t0: int)
    requires Enabled(cfg, s, step) && OffsetsOk(s)
    requires LeasedSince(s, m, t0) && s.now <= t0 + SENDING_STALE_AFTER
    ensures LeasedSince(Apply(cfg, s, step), m, t0)
  {
    hide OffsetsOk;
    if IsMark(step) {
      LeaseDeliveryKeeps(cfg, s, step, m, t0);
    } else if step.Finalize? {
      LeaseFinalizeKeeps(s, step.claim, step.err, step.fate, m, t0);
    } else if step.Persist? {
      SentPersist(cfg, s, step.pid, step.cs, step.requestId, step.mids, step.eids, step.fate, m);
    } else {
      LeaseOtherKeeps(cfg, s, step, m, t0);
    }
  }

  lemma {:induction false} RunLeaseKeeps(cfg: Config, ss: seq<State>, steps: seq<Step>, i: nat, j: nat, m: int, t0: int)
    requires IsExecution(cfg, ss, steps) && i <= j < |ss|
    requires LeasedSince(ss[i], m, t0) && ss[j].now <= t0 + SENDING_STALE_AFTER
    ensures LeasedSince(ss[j], m, t0)
    decreases j
  {
    hide LeasedSince, OffsetsOk, Inv, Init, Enabled, Apply, Evolves, OutboxEvolves;
    if i < j {
      NextProgress(cfg, ss, steps, j - 1);
      RunLeaseKeeps(cfg, ss, steps, i, j - 1, m, t0);
      ExecutionKeeps(cfg, ss, steps, j - 1);
      OffsetsInLog(cfg, ss[j - 1]);
      StepLeaseKeeps(cfg, ss[j - 1], steps[j - 1], m, t0);
    }
  }

  lemma TryClaimAcquires(cfg: Config, s: State, did: int)
    requires Inv(cfg, s) && AtPhase(s, did)
    ensures var s1 := DoTryClaim(s, did, Done);
            var id := EventOf(s, did).messageId;
            && did in s1.deliveries && id in s.db.messages
            && (s1.deliveries[did].phase.Calling? <==>
                  s.db.messages[id].status.MessageQueued?
                  || (s.db.messages[id].status.MessageSending?
                      && 120000 < s.now - s.db.messages[id].updatedAt))
            && (s1.deliveries[did].phase.Calling? ==> LeasedSince(s1, id, s.now) && !Terminal(s1.db.messages[id]))
            && (!s1.deliveries[did].phase.Calling? ==> s1.db == s.db && s1.deliveries[did].phase.Checking?)
  {
    hide RowsOk, MoneyOk, RefundsOk, LogOk, OutboxOk, ProviderOk, ApiOk;
    assert DeliveryOk(s.deliveries[did], s.log, s.db.messages, s.seen);
  }

  /** In every execution: a claim is acquired exactly when the row is queued or stale; and from then on, for
      two minutes of database time, nobody takes the row over: it stays leased since that moment until its
      message is sent or failed. */
  lemma AcquiredIsFresh(cfg: Config, ss: seq<State>, steps: seq<Step>, i: nat, j: nat, did: int)
    requires IsExecution(cfg, ss, steps) && i < j < |ss| && steps[i] == TryClaim(did, Done) && AtPhase(ss[i], did)
    ensures var id := EventOf(ss[i], did).messageId;
            && id in ss[i].db.messages && did in ss[i + 1].deliveries
            && (ss[i + 1].deliveries[did].phase.Calling? <==>
                  ss[i].db.messages[id].status.MessageQueued?
                  || (ss[i].db.messages[id].status.MessageSending?
                      && 120000 < ss[i].now - ss[i].db.messages[id].updatedAt))
            && (!ss[i + 1].deliveries[did].phase.Calling? ==>
                  ss[i + 1].db == ss[i].db && ss[i + 1].deliveries[did].phase.Checking?)
            && (ss[i + 1].deliveries[did].phase.Calling? && ss[j].now <= ss[i].now + 120000 ==>
                  LeasedSince(ss[j], id, ss[i].now))
  {
    hide Inv, Init, LeasedSince, DoTryClaim;
    ExecutionKeeps(cfg, ss, steps, i);
    TryClaimAcquires(cfg, ss[i], did);
    assert ss[i + 1] == Apply(cfg, ss[i], steps[i]);
    if ss[i + 1].deliveries[did].phase.Calling? && ss[j].now <= ss[i].now + 120000 {
      RunLeaseKeeps(cfg, ss, steps, i + 1, j, EventOf(ss[i], did).messageId, ss[i].now);
    }
  }
}
