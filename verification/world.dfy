/** The running system as its processes see it: the real stores, and beside them the reachable
    protocol state they stand for. */
module Worlds {
  import opened Domain
  import opened Tables
  import opened Protocol
  import opened Invariants
  import Runs
  import opened Shapes
  import Persisting
  import Provider

  // What a process owns: its API call, the outbox claims of its batch, or its record.
  datatype Owner = Caller(pid: int) | Batch(claims: set<Claim>) | Reader(did: int)

  predicate Touches(step: Step, o: Owner) {
    match o
    case Caller(pid) =>
      (step.StartSend? || step.ReadCache? || step.ReadDb? || step.Persist? || step.Poll? || step.SaveCache?
       || step.CrashSend?)
      && step.pid == pid
    case Batch(claims) =>
      (step.Publish? || step.MarkPublished? || step.RecordFailure? || step.Finalize? || step.CrashClaim?)
      && step.claim in claims
    case Reader(did) =>
      (step.Fetch? || step.TryClaim? || step.Check? || step.CallProvider? || step.Wake? || step.MarkSent?
       || step.MarkFailed? || step.Ack? || step.Drop?)
      && step.did == did
  }

  // What the owner can rely on: the part of the state that is its own.
  ghost predicate SameOwn(a: State, b: State, o: Owner) {
    match o
    case Caller(pid) => pid in a.sends ==> pid in b.sends && b.sends[pid] == a.sends[pid]
    case Batch(claims) => forall c :: c in claims && c in a.claims ==> c in b.claims && b.claims[c] == a.claims[c]
    case Reader(did) => did in a.deliveries ==> did in b.deliveries && b.deliveries[did] == a.deliveries[did]
  }

  lemma LookupForeign(cfg: Config, s: State, step: Step, o: Owner)
    requires Enabled(cfg, s, step) && !Touches(step, o) && (step.ReadCache? || step.ReadDb? || step.Poll?)
    ensures SameOwn(s, Apply(cfg, s, step), o)
  {
    hide Load;
  }

  lemma PersistForeign(cfg: Config, s: State, step: Step, o: Owner)
    requires Enabled(cfg, s, step) && !Touches(step, o) && step.Persist?
    ensures SameOwn(s, Apply(cfg, s, step), o)
  {
    hide SendTransaction;
  }

  lemma ApiForeign(cfg: Config, s: State, step: Step, o: Owner)
    requires Enabled(cfg, s, step) && !Touches(step, o)
    requires step.StartSend? || step.SaveCache? || step.CrashSend? || step.Evict? || step.TopUp? || step.Tick?
    ensures SameOwn(s, Apply(cfg, s, step), o)
  {
  }

  lemma ClaimBatchForeign(cfg: Config, s: State, ids: set<int>, o: Owner)
    requires Inv(cfg, s) && CanClaimBatch(cfg, s, ids)
    ensures SameOwn(s, DoClaimBatch(s, ids), o)
  {
    hide RowsOk, MoneyOk, RefundsOk, LogOk, DeliveryStateOk, ProviderOk, ApiOk, ClaimRows;
    forall c | c in s.claims ensures c !in ClaimsOf(s.db.outbox, ids) {
      assert ClaimOk(cfg, c, s.claims[c], s.db.outbox, s.log, s.hist.publishes);
    }
  }

  lemma WorkerForeign(cfg: Config, s: State, step: Step, o: Owner)
    requires Enabled(cfg, s, step) && !Touches(step, o)
    requires step.Publish? || step.MarkPublished? || step.RecordFailure? || step.Finalize? || step.CrashClaim?
    ensures SameOwn(s, Apply(cfg, s, step), o)
  {
    hide Tables.MarkPublished, Tables.RecordFailure, FinalizeExhausted;
  }

  lemma DoMarkForeign(s: State, did: int, messages: map<int, Message>, fate: Fate, o: Owner)
    requires did in s.deliveries && o != Reader(did)
    ensures SameOwn(s, DoMark(s, did, messages, fate), o)
  {
  }

  lemma TryClaimForeign(s: State, did: int, fate: Fate, o: Owner)
    requires AtPhase(s, did) && o != Reader(did)
    ensures SameOwn(s, DoTryClaim(s, did, fate), o)
  {
    hide ClaimMessage, ClaimableMessage;
  }

  lemma CallForeign(s: State, did: int, result: CallResult, reached: bool, delay: int, o: Owner)
    requires CanCallProvider(s, did, result, reached, delay) && o != Reader(did)
    ensures SameOwn(s, DoCallProvider(s, did, result, reached, delay), o)
  {
    hide Provider.ProviderIdempotencyKey;
  }

  lemma DeliveryForeign(cfg: Config, s: State, step: Step, o: Owner)
    requires Enabled(cfg, s, step) && !Touches(step, o)
    requires step.TryClaim? || step.MarkSent? || step.MarkFailed? || step.CallProvider?
    ensures SameOwn(s, Apply(cfg, s, step), o)
  {
    hide SameOwn;
    match step
    case TryClaim(did, fate) => TryClaimForeign(s, did, fate, o);
    case CallProvider(did, result, reached, delay) => CallForeign(s, did, result, reached, delay, o);
    case MarkSent(did, fate) =>
      DoMarkForeign(s, did, Tables.MarkSent(s.db.messages, EventOf(s, did).messageId, s.now), fate, o);
    case MarkFailed(did, fate) =>
      DoMarkForeign(s, did, Tables.MarkFailed(s.db.messages, EventOf(s, did).messageId, ProviderError, s.now), fate, o);
  }

  lemma RecordForeign(cfg: Config, s: State, step: Step, o: Owner)
    requires Enabled(cfg, s, step) && !Touches(step, o)
    requires step.Fetch? || step.Check? || step.Wake? || step.Ack? || step.Drop?
    ensures SameOwn(s, Apply(cfg, s, step), o)
  {
    hide Classify;
  }

  /** Nobody takes away what a process owns: its next step stays possible under any interference. */
  lemma ForeignStep(cfg: Config, s: State, step: Step, o: Owner)
    requires Inv(cfg, s) && Enabled(cfg, s, step) && !Touches(step, o)
    ensures SameOwn(s, Apply(cfg, s, step), o)
  {
    hide SameOwn, Inv;
    if step.ReadCache? || step.ReadDb? || step.Poll? {
      LookupForeign(cfg, s, step, o);
    } else if step.Persist? {
      PersistForeign(cfg, s, step, o);
    } else if step.StartSend? || step.SaveCache? || step.CrashSend? || step.Evict? || step.TopUp? || step.Tick? {
      ApiForeign(cfg, s, step, o);
    } else if step.ClaimBatch? {
      ClaimBatchForeign(cfg, s, step.ids, o);
    } else if step.Publish? || step.MarkPublished? || step.RecordFailure? || step.Finalize? || step.CrashClaim? {
      WorkerForeign(cfg, s, step, o);
    } else if step.TryClaim? || step.MarkSent? || step.MarkFailed? || step.CallProvider? {
      DeliveryForeign(cfg, s, step, o);
    } else {
      RecordForeign(cfg, s, step, o);
    }
  }

  /** The same for any number of steps of others. */
  lemma {:induction false} ForeignSteps(cfg: Config, ss: seq<State>, steps: seq<Step>, i: nat, j: nat, o: Owner)
    requires IsExecution(cfg, ss, steps) && i <= j < |ss|
    requires forall k :: i <= k < j ==> !Touches(steps[k], o)
    ensures SameOwn(ss[i], ss[j], o)
    decreases j
  {
    hide Enabled, Apply;
    if i < j {
      ForeignSteps(cfg, ss, steps, i, j - 1, o);
      Runs.ExecutionKeeps(cfg, ss, steps, j - 1);
      ForeignStep(cfg, ss[j - 1], steps[j - 1], o);
    }
  }

  // A claim that was made and has ended.
  ghost predicate Ended(s: State, c: Claim) {
    c !in s.claims && c.event in s.db.outbox && c.attempt <= s.db.outbox[c.event].attempts
  }

  ghost predicate StayEnded(a: State, b: State) {
    forall c :: Ended(a, c) ==> Ended(b, c)
  }

  // No claim comes into being, except by a claim of a batch.
  ghost predicate NoNewClaims(a: State, b: State) {
    b.claims.Keys <= a.claims.Keys
  }

  lemma StepEnded(cfg: Config, s: State, step: Step)
    requires Enabled(cfg, s, step)
    ensures StayEnded(s, Apply(cfg, s, step))
  {
    hide Evolves, Persisting.Extends;
    Runs.StepProgress(cfg, s, step);
    if step.ClaimBatch? {
      ClaimBatchEnded(s, step.ids);
    } else {
      hide Enabled, Apply;
      StepNoNew(cfg, s, step);
    }
  }

  lemma ClaimBatchEnded(s: State, ids: set<int>)
    requires ids <= s.db.outbox.Keys
    ensures StayEnded(s, DoClaimBatch(s, ids))
  {
  }

  lemma StepNoNew(cfg: Config, s: State, step: Step)
    requires Enabled(cfg, s, step) && !step.ClaimBatch?
    ensures NoNewClaims(s, Apply(cfg, s, step))
  {
    hide Enabled, Apply;
    StepShape(cfg, s, step);
  }

  /** An ended claim never comes back: attempt numbers are not used twice. */
  lemma {:induction false} EndedForever(cfg: Config, ss: seq<State>, steps: seq<Step>, i: nat, j: nat)
    requires IsRun(cfg, ss, steps) && i <= j < |ss|
    ensures StayEnded(ss[i], ss[j])
    decreases j
  {
    hide Enabled, Apply;
    if i < j {
      EndedForever(cfg, ss, steps, i, j - 1);
      NextEnded(cfg, ss, steps, j - 1);
    }
  }

  lemma NextEnded(cfg: Config, ss: seq<State>, steps: seq<Step>, i: nat)
    requires IsRun(cfg, ss, steps) && i < |steps|
    ensures StayEnded(ss[i], ss[i + 1])
  {
    hide StayEnded;
    StepEnded(cfg, ss[i], steps[i]);
  }

  // The history that led here; it exists for the proofs only.
  class World {
    const cfg: Config
    ghost var states: seq<State>
    ghost var steps: seq<Step>

    ghost predicate Valid()
      reads this
    {
      IsExecution(cfg, states, steps)
    }

    ghost function Now(): State
      reads this
      requires Valid()
    {
      states[|steps|]
    }

    constructor (cfg: Config, ghost start: State)
      requires Init(start)
      ensures Valid() && this.cfg == cfg && Now() == start && steps == []
    {
      this.cfg := cfg;
      states, steps := [start], [];
    }

    // One more step of the history.
    ghost method Take(step: Step)
      requires Valid() && Enabled(cfg, Now(), step)
      modifies this
      ensures Valid() && Now() == Apply(cfg, old(Now()), step)
      ensures steps == old(steps) + [step] && states == old(states) + [Now()]
    {
      var was := states;
      var next := Apply(cfg, Now(), step);
      states, steps := states + [next], steps + [step];
      forall i | 0 <= i < |steps|
        ensures Enabled(cfg, states[i], steps[i]) && states[i + 1] == Apply(cfg, states[i], steps[i])
      {
        if i < |steps| - 1 {
          assert states[i] == was[i] && states[i + 1] == was[i + 1] && steps[i] == old(steps)[i];
        }
      }
    }

    // One method a step, so that callers need not look at the whole step relation.

    ghost method TookTick(ms: nat)
      requires Valid()
      modifies this
      ensures Valid() && Now() == old(Now()).(now := old(Now()).now + ms)
      ensures steps == old(steps) + [Step.Tick(ms)] && states == old(states) + [Now()]
    {
      hide IsExecution;
      Take(Step.Tick(ms));
    }

    ghost method TookClaimBatch(ids: set<int>)
      requires Valid() && CanClaimBatch(cfg, Now(), ids)
      modifies this
      ensures Valid() && Now() == DoClaimBatch(old(Now()), ids)
      ensures steps == old(steps) + [Step.ClaimBatch(ids)] && states == old(states) + [Now()]
    {
      hide IsExecution;
      Take(Step.ClaimBatch(ids));
    }

    ghost method TookPublish(c: Claim, appended: bool, ok: bool)
      requires Valid() && CanPublish(cfg, Now(), c) && (ok ==> appended)
      modifies this
      ensures Valid() && Now() == DoPublish(old(Now()), c, appended, ok)
      ensures steps == old(steps) + [Step.Publish(c, appended, ok)] && states == old(states) + [Now()]
    {
      hide IsExecution;
      Take(Step.Publish(c, appended, ok));
    }

    ghost method TookMarkPublished(c: Claim, fate: Fate)
      requires Valid() && InPhase(Now(), c, PublishOk)
      modifies this
      ensures Valid() && Now() == DoMarkPublished(old(Now()), c, fate)
      ensures steps == old(steps) + [Step.MarkPublished(c, fate)] && states == old(states) + [Now()]
    {
      hide IsExecution;
      Take(Step.MarkPublished(c, fate));
    }

    ghost method TookRecordFailure(c: Claim, err: string, fate: Fate)
      requires Valid() && CanRecordFailure(cfg, Now(), c)
      modifies this
      ensures Valid() && Now() == DoRecordFailure(old(Now()), c, err, fate)
      ensures steps == old(steps) + [Step.RecordFailure(c, err, fate)] && states == old(states) + [Now()]
    {
      hide IsExecution;
      Take(Step.RecordFailure(c, err, fate));
    }

    ghost method TookFinalize(c: Claim, err: string, fate: Fate)
      requires Valid() && CanFinalize(cfg, Now(), c)
      modifies this
      ensures Valid() && Now() == DoFinalize(old(Now()), c, err, fate)
      ensures steps == old(steps) + [Step.Finalize(c, err, fate)] && states == old(states) + [Now()]
    {
      hide IsExecution;
      Take(Step.Finalize(c, err, fate));
    }

    ghost method TookFetch(did: int, offset: nat)
      requires Valid() && CanFetch(Now(), did, offset)
      modifies this
      ensures Valid() && Now() == old(Now()).(deliveries := old(Now()).deliveries[did := Delivery(offset, Fetched)])
      ensures steps == old(steps) + [Step.Fetch(did, offset)] && states == old(states) + [Now()]
    {
      hide IsExecution;
      Take(Step.Fetch(did, offset));
    }

    ghost method TookTryClaim(did: int, fate: Fate)
      requires Valid() && AtPhase(Now(), did) && Now().deliveries[did].phase.Fetched?
      modifies this
      ensures Valid() && Now() == DoTryClaim(old(Now()), did, fate)
      ensures steps == old(steps) + [Step.TryClaim(did, fate)] && states == old(states) + [Now()]
    {
      hide IsExecution;
      Take(Step.TryClaim(did, fate));
    }

    ghost method TookCheck(did: int, broken: bool)
      requires Valid() && AtPhase(Now(), did) && Now().deliveries[did].phase.Checking?
      modifies this
      ensures Valid() && Now() == DoCheck(old(Now()), did, broken)
      ensures steps == old(steps) + [Step.Check(did, broken)] && states == old(states) + [Now()]
    {
      hide IsExecution;
      Take(Step.Check(did, broken));
    }

    ghost method TookCallProvider(did: int, result: CallResult, reached: bool, delay: int)
      requires Valid() && CanCallProvider(Now(), did, result, reached, delay)
      modifies this
      ensures Valid() && Now() == DoCallProvider(old(Now()), did, result, reached, delay)
      ensures steps == old(steps) + [Step.CallProvider(did, result, reached, delay)] && states == old(states) + [Now()]
    {
      hide IsExecution;
      Take(Step.CallProvider(did, result, reached, delay));
    }

    ghost method TookWake(did: int)
      requires Valid() && did in Now().deliveries && Now().deliveries[did].phase.Waiting?
      modifies this
      ensures Valid() && Now() == DoWake(old(Now()), did)
      ensures steps == old(steps) + [Step.Wake(did)] && states == old(states) + [Now()]
    {
      hide IsExecution;
      Take(Step.Wake(did));
    }

    ghost method TookMarkSent(did: int, fate: Fate)
      requires Valid() && AtPhase(Now(), did) && Now().deliveries[did].phase.Accepted?
      modifies this
      ensures Valid() && Now() == DoMarkSent(old(Now()), did, fate)
      ensures steps == old(steps) + [Step.MarkSent(did, fate)] && states == old(states) + [Now()]
    {
      hide IsExecution;
      Take(Step.MarkSent(did, fate));
    }

    ghost method TookMarkFailed(did: int, fate: Fate)
      requires Valid() && AtPhase(Now(), did) && Now().deliveries[did].phase.GaveUp?
      modifies this
      ensures Valid() && Now() == DoMarkFailed(old(Now()), did, fate)
      ensures steps == old(steps) + [Step.MarkFailed(did, fate)] && states == old(states) + [Now()]
    {
      hide IsExecution;
      Take(Step.MarkFailed(did, fate));
    }

    ghost method TookAck(did: int, committed: bool)
      requires Valid() && did in Now().deliveries && Now().deliveries[did].phase.Acking?
      modifies this
      ensures Valid() && Now() == DoAck(old(Now()), did, committed)
      ensures steps == old(steps) + [Step.Ack(did, committed)] && states == old(states) + [Now()]
    {
      hide IsExecution;
      Take(Step.Ack(did, committed));
    }

    ghost method TookDrop(did: int)
      requires Valid()
      modifies this
      ensures Valid() && Now() == Leave(old(Now()), did)
      ensures steps == old(steps) + [Step.Drop(did)] && states == old(states) + [Now()]
    {
      hide IsExecution;
      Take(Step.Drop(did));
    }

    ghost method TookStartSend(pid: int, cmd: SendRequest)
      requires Valid() && pid !in Now().sends
      modifies this
      ensures Valid() && Now() == old(Now()).(sends := old(Now()).sends[pid := Resolving(cmd)])
      ensures steps == old(steps) + [Step.StartSend(pid, cmd)] && states == old(states) + [Now()]
    {
      hide IsExecution;
      Take(Step.StartSend(pid, cmd));
    }

    ghost method TookReadCache(pid: int, broken: bool)
      requires Valid() && pid in Now().sends && Now().sends[pid].Resolving?
      modifies this
      ensures Valid() && Now() == DoReadCache(old(Now()), pid, broken)
      ensures steps == old(steps) + [Step.ReadCache(pid, broken)] && states == old(states) + [Now()]
    {
      hide IsExecution;
      Take(Step.ReadCache(pid, broken));
    }

    ghost method TookReadDb(pid: int, broken: bool)
      requires Valid() && pid in Now().sends && Now().sends[pid].LookingUp?
      modifies this
      ensures Valid() && Now() == DoReadDb(old(Now()), pid, broken)
      ensures steps == old(steps) + [Step.ReadDb(pid, broken)] && states == old(states) + [Now()]
    {
      hide IsExecution;
      Take(Step.ReadDb(pid, broken));
    }

    ghost method TookPersist(pid: int, cs: seq<Message>, requestId: int, mids: seq<int>, eids: seq<int>, fate: Fate)
      requires Valid() && CanPersist(cfg, Now(), pid, cs, requestId, mids, eids)
      modifies this
      ensures Valid() && Now() == DoPersist(cfg, old(Now()), pid, cs, requestId, mids, eids, fate)
      ensures steps == old(steps) + [Step.Persist(pid, cs, requestId, mids, eids, fate)]
      ensures states == old(states) + [Now()]
    {
      hide IsExecution;
      Take(Step.Persist(pid, cs, requestId, mids, eids, fate));
    }

    ghost method TookPoll(pid: int, broken: bool)
      requires Valid() && pid in Now().sends && Now().sends[pid].Polling?
      modifies this
      ensures Valid() && Now() == DoPoll(old(Now()), pid, broken)
      ensures steps == old(steps) + [Step.Poll(pid, broken)] && states == old(states) + [Now()]
    {
      hide IsExecution;
      Take(Step.Poll(pid, broken));
    }

    ghost method TookSaveCache(pid: int, saved: bool, last: bool)
      requires Valid() && pid in Now().sends && Now().sends[pid].Saving?
      modifies this
      ensures Valid() && Now() == DoSaveCache(old(Now()), pid, saved, last)
      ensures steps == old(steps) + [Step.SaveCache(pid, saved, last)] && states == old(states) + [Now()]
    {
      hide IsExecution;
      Take(Step.SaveCache(pid, saved, last));
    }

    lemma Holds()
      requires Valid()
      ensures Inv(cfg, Now())
    {
      hide Enabled, Apply;
      Runs.ExecutionKeeps(cfg, states, steps, |steps|);
    }
  }
}
