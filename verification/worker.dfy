/** The outbox worker: claim a batch, publish each event, then mark it, retry it or dead-letter it. */
module Worker {
  import opened Domain
  import opened Tables
  import opened Protocol
  import opened Invariants
  import opened Runs
  import opened Worlds
  import opened Platform
  import Repository
  import Redis
  import Provider

  // Of the steps i to j, those on claims of the batch are on c, and none of them abandons it.
  ghost predicate Handles(mine: set<Claim>, c: Claim, steps: seq<Step>, i: nat, j: nat)
    requires i <= j <= |steps|
  {
    forall k :: i <= k < j ==>
      !Touches(steps[k], Batch(mine)) || (Touches(steps[k], Batch({c})) && !steps[k].CrashClaim?)
  }

  lemma HandlesJoins(mine: set<Claim>, c: Claim, a: seq<Step>, b: seq<Step>, i: nat)
    requires i <= |a| && a <= b
    requires Handles(mine, c, a, i, |a|) && Handles(mine, c, b, |a|, |b|)
    ensures Handles(mine, c, b, i, |b|)
  {
    hide Touches;
    assert forall k :: i <= k < |a| ==> b[k] == a[k];
  }

  lemma HandlesOthers(mine: set<Claim>, c: Claim, steps: seq<Step>, i: nat, j: nat)
    requires i <= j <= |steps| && NotBy(Batch(mine), steps, i, j)
    ensures Handles(mine, c, steps, i, j)
  {
  }

  // One statement on a claim, and its step in the history.
  ghost predicate Appended(states: seq<State>, steps: seq<Step>, states': seq<State>, steps': seq<Step>, step: Step) {
    states <= states' && steps' == steps + [step]
  }

  lemma AppendedHandles(mine: set<Claim>, c: Claim, steps: seq<Step>, steps': seq<Step>, step: Step, i: nat)
    requires i <= |steps| && Handles(mine, c, steps, i, |steps|)
    requires steps' == steps + [step] && Touches(step, Batch({c})) && !step.CrashClaim?
    ensures Handles(mine, c, steps', i, |steps'|)
  {
    hide Touches;
    assert forall k :: i <= k < |steps| ==> steps'[k] == steps[k];
  }

  // What one undisturbed round makes of a claimed row.
  predicate Handled(maxAttempts: int, a: OutboxEvent, b: OutboxEvent) {
    && b.attempts == a.attempts
    && (b.status.OutboxPublished? || b.status.OutboxFailed? || (b.status.OutboxPending? && a.attempts < maxAttempts))
  }

  // An undisturbed round changes the row of the event and no other.
  ghost predicate Settled(maxAttempts: int, a: map<int, OutboxEvent>, b: map<int, OutboxEvent>, id: int) {
    && id in a && id in b && b == a[id := b[id]]
    && (Open(a[id]) ==> Handled(maxAttempts, a[id], b[id]))
  }

  class OutboxWorker {
    const system: System
    const batchSize: int
    const maxAttempts: int
    const preferTopic: string

    constructor (system: System, batchSize: int, maxAttempts: int, preferTopic: string)
      ensures this.system == system && this.preferTopic == preferTopic
      ensures this.batchSize == (if batchSize <= 0 then 50 else batchSize)
      ensures this.maxAttempts == (if maxAttempts <= 0 then 10 else maxAttempts)
    {
      this.system, this.preferTopic := system, preferTopic;
      this.batchSize := if batchSize <= 0 then 50 else batchSize;
      this.maxAttempts := if maxAttempts <= 0 then 10 else maxAttempts;
    }

    // The protocol runs with this worker's settings.
    ghost predicate Valid()
      reads system.repo, system.redis, system.broker, system.sender, system.world
    {
      && system.InSync()
      && maxAttempts == system.world.cfg.maxAttempts && batchSize == system.world.cfg.batchSize
    }

    ghost function Now(): State
      requires Valid()
      reads system.repo, system.redis, system.broker, system.sender, system.world
    {
      system.world.Now()
    }

    method Finalize(e: Repository.ClaimedEvent, detail: string, ghost c: Claim) returns (ok: bool, ghost fate: Fate)
      requires Valid() && c.event == e.id && CanFinalize(system.world.cfg, Now(), c)
      requires e.row.aggregateId == Now().db.outbox[e.id].aggregateId
      modifies system.repo, system.world
      ensures Valid()
      ensures Appended(old(system.world.states), old(system.world.steps), system.world.states, system.world.steps,
                       Step.Finalize(c, detail, fate))
      ensures Now() == DoFinalize(old(Now()), c, detail, fate)
      ensures ok == fate.Done? && (system.reliable ==> ok)
    {
      hide IsExecution;
      var answer := system.WriteFate();
      ok := system.repo.FinalizeOutboxExhausted(e.id, e.row.aggregateId, detail, answer);
      system.world.TookFinalize(c, detail, answer);
      fate := answer;
    }

    method RecordFailure(e: Repository.ClaimedEvent, detail: string, ghost c: Claim) returns (ghost fate: Fate)
      requires Valid() && c.event == e.id && CanRecordFailure(system.world.cfg, Now(), c)
      modifies system.repo, system.world
      ensures Valid()
      ensures Appended(old(system.world.states), old(system.world.steps), system.world.states, system.world.steps,
                       Step.RecordFailure(c, detail, fate))
      ensures Now() == DoRecordFailure(old(Now()), c, detail, fate)
      ensures system.reliable ==> fate.Done?
    {
      hide IsExecution;
      var answer := system.WriteFate();
      var _ := system.repo.RecordOutboxFailure(e.id, detail, answer);
      system.world.TookRecordFailure(c, detail, answer);
      fate := answer;
    }

    method MarkPublished(e: Repository.ClaimedEvent, ghost c: Claim) returns (ghost fate: Fate)
      requires Valid() && c.event == e.id && InPhase(Now(), c, PublishOk)
      modifies system.repo, system.world
      ensures Valid()
      ensures Appended(old(system.world.states), old(system.world.steps), system.world.states, system.world.steps,
                       Step.MarkPublished(c, fate))
      ensures Now() == DoMarkPublished(old(Now()), c, fate)
      ensures system.reliable ==> fate.Done?
    {
      hide IsExecution;
      var answer := system.WriteFate();
      var _ := system.repo.MarkOutboxPublished(e.id, answer);
      system.world.TookMarkPublished(c, answer);
      fate := answer;
    }

    method Publish(e: Repository.ClaimedEvent, ghost c: Claim) returns (err: bool, detail: string, ghost appended: bool)
      requires Valid() && c.event == e.id && CanPublish(system.world.cfg, Now(), c)
      requires HeaderOf(e.row) == HeaderOf(Now().db.outbox[e.id])
      modifies system.broker, system.world
      ensures Valid()
      ensures Appended(old(system.world.states), old(system.world.steps), system.world.states, system.world.steps,
                       Step.Publish(c, appended, !err))
      ensures Now() == DoPublish(old(Now()), c, appended, !err)
    {
      hide IsExecution, Repository.Repo.Valid, Redis.RedisStore.Mirrors, Provider.LogSender.Valid, RecordFor;
      PublishedRecord(Now(), c, e.row);
      var there, ok, text := system.PublishAnswer();
      err := system.broker.Publish(e.row.topic, e.row.partitionKey, e.row.payload, there, ok);
      detail := text;
      system.world.TookPublish(c, there, ok);
      appended := there;
    }

    // Others run; every claim of the batch stays as it is.
    method Yield(ghost mine: set<Claim>)
      requires Valid()
      modifies system.repo, system.redis, system.broker, system.sender, system.world
      ensures Valid()
      ensures Longer(old(system.world.states), old(system.world.steps), system.world.states, system.world.steps)
      ensures forall c :: Handles(mine, c, system.world.steps, |old(system.world.steps)|, |system.world.steps|)
      ensures SameOwn(old(Now()), Now(), Batch(mine)) && OutboxEvolves(old(Now()).db.outbox, Now().db.outbox)
      ensures system.alone ==> Now() == old(Now())
    {
      hide IsExecution, Touches, Evolves;
      system.Yield(Batch(mine));
    }

    method DeadLetter(e: Repository.ClaimedEvent, detail: string, ghost c: Claim, ghost mine: set<Claim>)
      requires Valid() && c in mine && c.event == e.id && CanFinalize(system.world.cfg, Now(), c)
      requires e.row.aggregateId == Now().db.outbox[e.id].aggregateId
      modifies system.repo, system.redis, system.broker, system.sender, system.world
      ensures Valid()
      ensures Longer(old(system.world.states), old(system.world.steps), system.world.states, system.world.steps)
      ensures Handles(mine, c, system.world.steps, |old(system.world.steps)|, |system.world.steps|)
      ensures c !in Now().claims
      ensures system.reliable && system.alone ==>
                Settled(maxAttempts, old(Now()).db.outbox, Now().db.outbox, e.id) && Now().now == old(Now()).now
    {
      hide Valid, Handles, Settled;
      ghost var s, n := Now(), |system.world.steps|;
      ghost var steps := system.world.steps;
      HandlesOthers(mine, c, steps, n, n);
      var ok, fate := Finalize(e, detail, c);
      AppendedHandles(mine, c, steps, system.world.steps, Step.Finalize(c, detail, fate), n);
      if fate.Done? { FinalizeSettles(maxAttempts, s, c, detail); }
      if !ok {
        steps := system.world.steps;
        Yield(mine);
        HandlesJoins(mine, c, steps, system.world.steps, n);
        steps := system.world.steps;
        fate := RecordFailure(e, detail, c);
        AppendedHandles(mine, c, steps, system.world.steps, Step.RecordFailure(c, detail, fate), n);
      }
    }

    // Its branch after a failed Publish.
    method PublishFailed(e: Repository.ClaimedEvent, detail: string, ghost c: Claim, ghost mine: set<Claim>)
      requires Valid() && c in mine && c == Claim(e.id, e.row.attempts) && InPhase(Now(), c, PublishErr)
      requires e.id in Now().db.outbox && HeaderOf(e.row) == HeaderOf(Now().db.outbox[e.id])
      modifies system.repo, system.redis, system.broker, system.sender, system.world
      ensures Valid()
      ensures Longer(old(system.world.states), old(system.world.steps), system.world.states, system.world.steps)
      ensures Handles(mine, c, system.world.steps, |old(system.world.steps)|, |system.world.steps|)
      ensures c !in Now().claims
      ensures system.reliable && system.alone && old(Now()).db.outbox[e.id].attempts == e.row.attempts ==>
                Settled(maxAttempts, old(Now()).db.outbox, Now().db.outbox, e.id) && Now().now == old(Now()).now
    {
      hide IsExecution, Handles, Settled, Handled;
      ghost var s, steps, n := Now(), system.world.steps, |system.world.steps|;
      if e.row.attempts >= maxAttempts {
        DeadLetter(e, detail, c, mine);
        return;
      }
      HandlesOthers(mine, c, steps, n, n);
      ghost var fate := RecordFailure(e, detail, c);
      AppendedHandles(mine, c, steps, system.world.steps, Step.RecordFailure(c, detail, fate), n);
      if s.db.outbox[e.id].attempts == e.row.attempts { RetrySettles(maxAttempts, s.db.outbox, e.id, detail); }
    }

    // The body of the loop of ProcessOnce. Others run first: a slow batch may lose its lease before its turn.
    method HandleEvent(e: Repository.ClaimedEvent, ghost c: Claim, ghost mine: set<Claim>)
      requires Valid() && c in mine && c == Claim(e.id, e.row.attempts) && InPhase(Now(), c, Claimed)
      requires e.id in Now().db.outbox && HeaderOf(e.row) == HeaderOf(Now().db.outbox[e.id])
      modifies system.repo, system.redis, system.broker, system.sender, system.world
      ensures Valid()
      ensures Longer(old(system.world.states), old(system.world.steps), system.world.states, system.world.steps)
      ensures Handles(mine, c, system.world.steps, |old(system.world.steps)|, |system.world.steps|)
      ensures c !in Now().claims
      ensures system.reliable && system.alone && old(Now()).db.outbox[e.id].attempts == e.row.attempts ==>
                Settled(maxAttempts, old(Now()).db.outbox, Now().db.outbox, e.id) && Now().now == old(Now()).now
    {
      hide IsExecution, Handles, Settled, Handled;
      ghost var n := |system.world.steps|;
      Yield(mine);
      ghost var steps := system.world.steps;
      PublishEvent(e, c, mine);
      HandlesJoins(mine, c, steps, system.world.steps, n);
    }

    method PublishEvent(e: Repository.ClaimedEvent, ghost c: Claim, ghost mine: set<Claim>)
      requires Valid() && c in mine && c == Claim(e.id, e.row.attempts) && InPhase(Now(), c, Claimed)
      requires e.id in Now().db.outbox && HeaderOf(e.row) == HeaderOf(Now().db.outbox[e.id])
      modifies system.repo, system.redis, system.broker, system.sender, system.world
      ensures Valid()
      ensures Longer(old(system.world.states), old(system.world.steps), system.world.states, system.world.steps)
      ensures Handles(mine, c, system.world.steps, |old(system.world.steps)|, |system.world.steps|)
      ensures c !in Now().claims
      ensures system.reliable && system.alone && old(Now()).db.outbox[e.id].attempts == e.row.attempts ==>
                Settled(maxAttempts, old(Now()).db.outbox, Now().db.outbox, e.id) && Now().now == old(Now()).now
    {
      hide IsExecution, System.InSync, Handles, Settled, Handled, RecordFor, Tables.MarkPublished;
      ghost var s, n := Now(), |system.world.steps|;
      if e.row.attempts > maxAttempts {
        DeadLetter(e, "max_attempts_exceeded", c, mine);
        return;
      }
      ghost var steps := system.world.steps;
      HandlesOthers(mine, c, steps, n, n);
      ghost var appended;
      var err, detail;
      err, detail, appended := Publish(e, c);
      AppendedHandles(mine, c, steps, system.world.steps, Step.Publish(c, appended, !err), n);
      steps := system.world.steps;
      Yield(mine);
      HandlesJoins(mine, c, steps, system.world.steps, n);
      steps := system.world.steps;
      if err {
        PublishFailed(e, detail, c, mine);
        HandlesJoins(mine, c, steps, system.world.steps, n);
        return;
      }
      ghost var fate := MarkPublished(e, c);
      AppendedHandles(mine, c, steps, system.world.steps, Step.MarkPublished(c, fate), n);
      if fate.Done? && Now().now == s.now { MarkSettles(maxAttempts, s.db.outbox, e.id, s.now); }
    }

    // ClaimPendingOutbox and its step. A claim whose answer is lost is left to its lease.
    method ClaimBatch() returns (ok: bool, events: seq<Repository.ClaimedEvent>, ghost ids: set<int>)
      requires Valid()
      modifies system.repo, system.world
      ensures Valid()
      ensures Longer(old(system.world.states), old(system.world.steps), system.world.states, system.world.steps)
      ensures exists locked ::
                && IsFairBatch(old(Now()), preferTopic, batchSize, locked, ids)
                && FirstChosen(old(Now()), preferTopic, batchSize, locked, ids) && (system.alone ==> locked == {})
      ensures ids <= old(Now()).db.outbox.Keys
      ensures ok ==> Now() == DoClaimBatch(old(Now()), ids)
                     && system.world.steps == old(system.world.steps) + [Step.ClaimBatch(ids)]
                     && ids == Repository.EventIds(events)
                     && Repository.AreRows(old(Now()).db.outbox, old(Now()).now, events)
      ensures !ok ==> forall step :: step in system.world.steps[|old(system.world.steps)|..] ==>
                        step == Step.ClaimBatch(ids)
      ensures system.reliable ==> ok
    {
      hide IsExecution, Repository.IsBatch, Redis.RedisStore.Mirrors, Provider.LogSender.Valid;
      var fate := system.WriteFate();
      var locked := system.LockedRows();
      ok, events, ids := system.repo.ClaimPendingOutbox(batchSize, OUTBOX_CLAIM_STALE_AFTER, preferTopic, locked, fate);
      assert IsFairBatch(old(Now()), preferTopic, batchSize, locked, ids);
      FairIsFirst(old(Now()), preferTopic, batchSize, locked, ids);
      FairBatchIsClaimable(system.world.cfg, old(Now()), preferTopic, locked, ids);
      if !fate.Aborted? { system.world.TookClaimBatch(ids); }
    }

    // The loop of ProcessOnce over the claimed events.
    method HandleBatch(events: seq<Repository.ClaimedEvent>, ghost mine: set<Claim>)
      requires Valid() && AllReady(Now(), events, 0) && AreClaims(events, mine)
      modifies system.repo, system.redis, system.broker, system.sender, system.world
      ensures Valid()
      ensures Longer(old(system.world.states), old(system.world.steps), system.world.states, system.world.steps)
      ensures NoCrash(mine, system.world.steps, |old(system.world.steps)|, |system.world.steps|)
      ensures forall c :: c in mine ==> Ended(Now(), c)
      ensures system.reliable && system.alone && RowsCurrent(old(Now()).db.outbox, events) ==>
                && Partly(maxAttempts, old(Now()).db.outbox, Now().db.outbox, events, |events|)
                && Now().now == old(Now()).now
    {
      hide IsExecution, NoCrash, AllReady, Ended, AreClaims, RowsCurrent, Partly, Settled;
      ghost var outbox := Now().db.outbox;
      NothingYet(maxAttempts, outbox, events);
      ghost var n, steps := |system.world.steps|, system.world.steps;
      NoCrashYet(mine, steps, n);
      for i := 0 to |events|
        invariant Valid() && Longer(old(system.world.states), steps, system.world.states, system.world.steps)
        invariant NoCrash(mine, system.world.steps, n, |system.world.steps|)
        invariant AllReady(Now(), events, i) && AllEnded(Now(), events, i)
        invariant system.reliable && system.alone && RowsCurrent(outbox, events) ==>
                    Partly(maxAttempts, outbox, Now().db.outbox, events, i) && Now().now == old(Now()).now
      {
        ghost var before := Now().db.outbox;
        ghost var c := ClaimOf(events[i]);
        ghost var states', steps' := system.world.states, system.world.steps;
        FirstReady(Now(), events, i, mine);
        HandleEvent(events[i], c, mine);
        NoCrashJoins(mine, c, steps', system.world.steps, n);
        if Partly(maxAttempts, outbox, before, events, i) && RowsCurrent(outbox, events) {
          NextCurrent(maxAttempts, outbox, before, events, i, mine);
          if Settled(maxAttempts, before, Now().db.outbox, events[i].id) {
            PartlyNext(maxAttempts, outbox, before, Now().db.outbox, events, i, mine);
          }
        }
        OthersReady(system.world.cfg, states', steps', system.world.states, system.world.steps, events, i, mine);
      }
      AllDone(Now(), events, mine);
    }

    method ProcessOnce() returns (err: bool, claimed: nat, ghost ids: set<int>, ghost mine: set<Claim>)
      requires Valid()
      modifies system.repo, system.redis, system.broker, system.sender, system.world
      ensures Valid()
      ensures Longer(old(system.world.states), old(system.world.steps), system.world.states, system.world.steps)
      ensures exists locked ::
                && IsFairBatch(old(Now()), preferTopic, batchSize, locked, ids)
                && FirstChosen(old(Now()), preferTopic, batchSize, locked, ids) && (system.alone ==> locked == {})
      ensures ids <= old(Now()).db.outbox.Keys
      ensures !err ==> claimed == |ids| && mine == ClaimsOf(old(Now()).db.outbox, ids)
                       && |old(system.world.steps)| < |system.world.steps|
                       && system.world.steps[|old(system.world.steps)|] == Step.ClaimBatch(ids)
      ensures err ==> claimed == 0 && mine == {}
      ensures NoCrash(mine, system.world.steps, |old(system.world.steps)|, |system.world.steps|)
      ensures forall c :: c in mine ==> Ended(Now(), c)
      ensures system.reliable ==> !err
      ensures system.reliable && system.alone ==>
                RoundDone(maxAttempts, old(Now()).db.outbox, ids, Now().db.outbox) && Now().now == old(Now()).now
    {
      hide IsExecution, NoCrash, AllReady, Ended, AreClaims, RowsCurrent, Partly, IsFairBatch, FirstChosen, RoundDone,
           ClaimsOf, Repository.AreRows;
      ghost var n, s := |system.world.steps|, Now();
      var ok, events;
      ok, events, ids := ClaimBatch();
      if !ok {
        CrashFree(old(system.world.steps), system.world.steps, ids);
        return true, 0, ids, {};
      }
      mine := ClaimsOf(s.db.outbox, ids);
      ClaimedAreReady(s, ids, events, mine);
      ghost var s1, steps := Now(), system.world.steps;
      OneStepNoCrash(mine, steps, n);
      if |events| == 0 {
        RoundOver(maxAttempts, s, ids, s1.db.outbox, events);
        return false, 0, ids, mine;
      }
      HandleBatch(events, mine);
      NoCrashOn(mine, steps, system.world.steps, n);
      if Partly(maxAttempts, s1.db.outbox, Now().db.outbox, events, |events|) {
        RoundOver(maxAttempts, s, ids, Now().db.outbox, events);
      }
      return false, |events|, ids, mine;
    }
  }

  // A round took these events through: the rows of the others are as they were.
  ghost predicate RoundDone(maxAttempts: int, a: map<int, OutboxEvent>, ids: set<int>, b: map<int, OutboxEvent>) {
    && b.Keys == a.Keys
    && (forall e :: e in a && e !in ids ==> b[e] == a[e])
    && (forall e :: e in a && e in ids ==>
          b[e].attempts == a[e].attempts + 1
          && (b[e].status.OutboxPublished? || b[e].status.OutboxFailed?
              || (b[e].status.OutboxPending? && b[e].attempts < maxAttempts)))
  }

  lemma CrashFree(a: seq<Step>, b: seq<Step>, ids: set<int>)
    requires a <= b && forall step :: step in b[|a|..] ==> step == Step.ClaimBatch(ids)
    ensures NoCrash({}, b, |a|, |b|)
  {
  }

  lemma OneStepNoCrash(mine: set<Claim>, steps: seq<Step>, n: nat)
    requires |steps| == n + 1 && !steps[n].CrashClaim?
    ensures NoCrash(mine, steps, n, n + 1)
  {
  }

  lemma NoCrashOn(mine: set<Claim>, a: seq<Step>, b: seq<Step>, i: nat)
    requires i <= |a| && a <= b && NoCrash(mine, a, i, |a|) && NoCrash(mine, b, |a|, |b|)
    ensures NoCrash(mine, b, i, |b|)
  {
    assert forall k :: i <= k < |a| ==> b[k] == a[k];
  }

  lemma ClaimedAreReady(s: State, ids: set<int>, events: seq<Repository.ClaimedEvent>, mine: set<Claim>)
    requires ids <= s.db.outbox.Keys && ids == Repository.EventIds(events)
    requires Repository.AreRows(s.db.outbox, s.now, events) && mine == ClaimsOf(s.db.outbox, ids)
    ensures |events| == |ids| && AreClaims(events, mine)
    ensures AllReady(DoClaimBatch(s, ids), events, 0) && RowsCurrent(DoClaimBatch(s, ids).db.outbox, events)
    ensures events == [] ==> mine == {}
  {
    IdsCount(events);
    ClaimedAre(s.db.outbox, s.now, events, mine);
    forall i | 0 <= i < |events| ensures Ready(DoClaimBatch(s, ids), events[i]) {
      ClaimedIsReady(s, ids, events[i]);
    }
    forall i | 0 <= i < |events| ensures events[i].id in ids {}
  }

  lemma ClaimedAre(outbox: map<int, OutboxEvent>, now: int, events: seq<Repository.ClaimedEvent>, mine: set<Claim>)
    requires Repository.AreRows(outbox, now, events) && Repository.EventIds(events) <= outbox.Keys
    requires mine == ClaimsOf(outbox, Repository.EventIds(events))
    ensures AreClaims(events, mine)
  {
    forall i | 0 <= i < |events| ensures ClaimOf(events[i]) in mine {
      assert events[i].id in Repository.EventIds(events);
    }
    forall c | c in mine ensures exists i :: 0 <= i < |events| && ClaimOf(events[i]) == c {
      var i :| 0 <= i < |events| && events[i].id == c.event;
      assert ClaimOf(events[i]) == c;
    }
  }

  lemma ClaimedIsReady(s: State, ids: set<int>, e: Repository.ClaimedEvent)
    requires ids <= s.db.outbox.Keys && e.id in ids && e.row == ClaimedRow(s.db.outbox[e.id], s.now)
    ensures Ready(DoClaimBatch(s, ids), e)
  {
    assert ClaimOf(e) in ClaimsOf(s.db.outbox, ids);
  }

  lemma {:induction false} IdsCount(events: seq<Repository.ClaimedEvent>)
    requires forall i, j :: 0 <= i < j < |events| ==> events[i].id != events[j].id
    ensures |Repository.EventIds(events)| == |events|
  {
    if events != [] {
      var n := |events| - 1;
      IdsCount(events[..n]);
      assert forall i :: 0 <= i < n ==> events[..n][i] == events[i];
      assert Repository.EventIds(events) == Repository.EventIds(events[..n]) + {events[n].id};
    }
  }

  lemma RoundOver(maxAttempts: int, s: State, ids: set<int>, b: map<int, OutboxEvent>,
                  events: seq<Repository.ClaimedEvent>)
    requires ids <= s.db.outbox.Keys && ids == Repository.EventIds(events)
    requires || Partly(maxAttempts, DoClaimBatch(s, ids).db.outbox, b, events, |events|)
             || (events == [] && b == DoClaimBatch(s, ids).db.outbox)
    ensures RoundDone(maxAttempts, s.db.outbox, ids, b)
  {
    assert events[..|events|] == events;
  }

  function ClaimOf(e: Repository.ClaimedEvent): Claim {
    Claim(e.id, e.row.attempts)
  }

  ghost predicate AreClaims(events: seq<Repository.ClaimedEvent>, mine: set<Claim>) {
    && (forall i :: 0 <= i < |events| ==> ClaimOf(events[i]) in mine)
    && (forall c :: c in mine ==> exists i :: 0 <= i < |events| && ClaimOf(events[i]) == c)
    && (forall i, j :: 0 <= i < j < |events| ==> events[i].id != events[j].id)
  }

  // Claimed and not worked on yet.
  ghost predicate Ready(s: State, e: Repository.ClaimedEvent) {
    && InPhase(s, ClaimOf(e), Claimed) && e.id in s.db.outbox
    && HeaderOf(e.row) == HeaderOf(s.db.outbox[e.id]) && e.row.attempts <= s.db.outbox[e.id].attempts
  }

  ghost predicate AllReady(s: State, events: seq<Repository.ClaimedEvent>, i: nat) {
    forall j :: i <= j < |events| ==> Ready(s, events[j])
  }

  ghost predicate AllEnded(s: State, events: seq<Repository.ClaimedEvent>, i: nat)
    requires i <= |events|
  {
    forall j :: 0 <= j < i ==> Ended(s, ClaimOf(events[j]))
  }

  // The returned rows are the stored ones, and open.
  ghost predicate RowsCurrent(outbox: map<int, OutboxEvent>, events: seq<Repository.ClaimedEvent>) {
    forall i :: 0 <= i < |events| ==>
      events[i].id in outbox && events[i].row == outbox[events[i].id] && Open(outbox[events[i].id])
  }

  // The first i events are handled, all other rows are as they were.
  ghost predicate Partly(maxAttempts: int, a: map<int, OutboxEvent>, b: map<int, OutboxEvent>,
                         events: seq<Repository.ClaimedEvent>, i: nat)
    requires i <= |events|
  {
    && b.Keys == a.Keys
    && (forall e :: e in a ==>
          if e in Repository.EventIds(events[..i]) then Handled(maxAttempts, a[e], b[e]) else b[e] == a[e])
  }

  lemma NothingYet(maxAttempts: int, a: map<int, OutboxEvent>, events: seq<Repository.ClaimedEvent>)
    ensures Partly(maxAttempts, a, a, events, 0)
  {
  }

  lemma NotBefore(events: seq<Repository.ClaimedEvent>, i: nat, mine: set<Claim>)
    requires i < |events| && AreClaims(events, mine)
    ensures events[i].id !in Repository.EventIds(events[..i])
    ensures Repository.EventIds(events[..i + 1]) == Repository.EventIds(events[..i]) + {events[i].id}
  {
    assert forall j :: 0 <= j < i ==> events[..i][j] == events[..i + 1][j];
    assert events[..i + 1][i] == events[i];
  }

  lemma NextCurrent(maxAttempts: int, a: map<int, OutboxEvent>, b: map<int, OutboxEvent>,
                    events: seq<Repository.ClaimedEvent>, i: nat, mine: set<Claim>)
    requires i < |events| && AreClaims(events, mine) && RowsCurrent(a, events) && Partly(maxAttempts, a, b, events, i)
    ensures events[i].id in b && b[events[i].id] == events[i].row
  {
    hide AreClaims;
    NotBefore(events, i, mine);
  }

  lemma PartlyNext(maxAttempts: int, a: map<int, OutboxEvent>, b: map<int, OutboxEvent>, b': map<int, OutboxEvent>,
                   events: seq<Repository.ClaimedEvent>, i: nat, mine: set<Claim>)
    requires i < |events| && AreClaims(events, mine) && RowsCurrent(a, events)
    requires Partly(maxAttempts, a, b, events, i) && Settled(maxAttempts, b, b', events[i].id)
    ensures Partly(maxAttempts, a, b', events, i + 1)
  {
    hide AreClaims, Handled;
    NotBefore(events, i, mine);
  }

  // No claim of the batch is abandoned.
  ghost predicate NoCrash(mine: set<Claim>, steps: seq<Step>, i: nat, j: nat)
    requires i <= j <= |steps|
  {
    forall k :: i <= k < j ==> !(steps[k].CrashClaim? && steps[k].claim in mine)
  }

  lemma NoCrashYet(mine: set<Claim>, steps: seq<Step>, n: nat)
    requires n <= |steps|
    ensures NoCrash(mine, steps, n, n)
  {
  }

  lemma NoCrashJoins(mine: set<Claim>, c: Claim, a: seq<Step>, b: seq<Step>, i: nat)
    requires i <= |a| && a <= b && c in mine
    requires NoCrash(mine, a, i, |a|) && Handles(mine, c, b, |a|, |b|)
    ensures NoCrash(mine, b, i, |b|)
  {
    assert forall k :: i <= k < |a| ==> b[k] == a[k];
  }

  lemma FirstReady(s: State, events: seq<Repository.ClaimedEvent>, i: nat, mine: set<Claim>)
    requires i < |events| && AllReady(s, events, i) && AreClaims(events, mine)
    ensures Ready(s, events[i]) && ClaimOf(events[i]) in mine
  {
  }

  lemma AllDone(s: State, events: seq<Repository.ClaimedEvent>, mine: set<Claim>)
    requires AllEnded(s, events, |events|) && AreClaims(events, mine)
    ensures forall c :: c in mine ==> Ended(s, c)
  {
  }

  // While one event is handled the others of the batch wait untouched.
  lemma OthersReady(cfg: Config, a: seq<State>, p: seq<Step>, b: seq<State>, q: seq<Step>,
                    events: seq<Repository.ClaimedEvent>, i: nat, mine: set<Claim>)
    requires IsExecution(cfg, a, p) && IsExecution(cfg, b, q) && Longer(a, p, b, q)
    requires i < |events| && AreClaims(events, mine) && Handles(mine, ClaimOf(events[i]), q, |p|, |q|)
    requires AllReady(a[|p|], events, i) && AllEnded(a[|p|], events, i)
    requires ClaimOf(events[i]) !in b[|q|].claims
    ensures AllReady(b[|q|], events, i + 1) && AllEnded(b[|q|], events, i + 1)
  {
    hide Enabled, Apply, Touches;
    ExecutionShape(cfg, a, p, b, q);
    hide IsExecution;
    var s, t, rest := a[|p|], b[|q|], mine - {ClaimOf(events[i])};
    RestUntouched(mine, ClaimOf(events[i]), q, |p|, |q|);
    Interference(cfg, b, q, |p|, |q|, Batch(rest));
    RunProgress(cfg, b, q, |p|, |q|);
    EndedForever(cfg, b, q, |p|, |q|);
    assert Ready(s, events[i]);
    forall j | i + 1 <= j < |events| ensures Ready(t, events[j]) {
      assert Ready(s, events[j]) && ClaimOf(events[j]) in rest;
    }
    forall j | 0 <= j < i + 1 ensures Ended(t, ClaimOf(events[j])) {
      if j < i { assert Ended(s, ClaimOf(events[j])); }
    }
  }

  lemma ExecutionShape(cfg: Config, a: seq<State>, p: seq<Step>, b: seq<State>, q: seq<Step>)
    requires IsExecution(cfg, a, p) && IsExecution(cfg, b, q) && Longer(a, p, b, q)
    ensures IsRun(cfg, b, q) && |a| == |p| + 1 && |b| == |q| + 1 && b[|p|] == a[|p|]
  {
  }

  lemma RestUntouched(mine: set<Claim>, c: Claim, steps: seq<Step>, i: nat, j: nat)
    requires i <= j <= |steps| && Handles(mine, c, steps, i, j)
    ensures NotBy(Batch(mine - {c}), steps, i, j)
  {
  }

  // What ClaimPendingOutbox takes: the first of the claimable rows nobody has locked.
  ghost predicate IsFairBatch(s: State, preferTopic: string, limit: nat, locked: set<int>, ids: set<int>) {
    Repository.IsBatch(s.db.outbox, Repository.Eligible(s.db.outbox, s.now, OUTBOX_CLAIM_STALE_AFTER, locked),
                       preferTopic, limit, ids)
  }

  // Pending, or publishing with a lease older than a minute.
  ghost predicate MayClaim(s: State, e: int) {
    && e in s.db.outbox
    && (s.db.outbox[e].status.OutboxPending?
        || (s.db.outbox[e].status.OutboxPublishing? && s.db.outbox[e].lockedAt.Some?
            && 60000 < s.now - s.db.outbox[e].lockedAt.value))
  }

  // The batch spelled out: claimable and unlocked, as many as there are up to the limit, the preferred
  // topic before the others and older events before newer ones.
  ghost predicate FirstChosen(s: State, preferTopic: string, limit: nat, locked: set<int>, ids: set<int>) {
    && (forall e :: e in ids ==> e !in locked && MayClaim(s, e))
    && |ids| <= limit
    && (|ids| < limit ==> forall e :: MayClaim(s, e) && e !in locked ==> e in ids)
    && (forall a, b :: a in ids && MayClaim(s, a) && MayClaim(s, b) && b !in locked && b !in ids ==>
          && (s.db.outbox[b].topic == preferTopic ==> s.db.outbox[a].topic == preferTopic)
          && ((s.db.outbox[a].topic == preferTopic <==> s.db.outbox[b].topic == preferTopic) ==> a < b))
  }

  lemma FairIsFirst(s: State, preferTopic: string, limit: nat, locked: set<int>, ids: set<int>)
    requires IsFairBatch(s, preferTopic, limit, locked, ids)
    ensures FirstChosen(s, preferTopic, limit, locked, ids)
  {
    hide Repository.Precedes;
    var eligible := Repository.Eligible(s.db.outbox, s.now, OUTBOX_CLAIM_STALE_AFTER, locked);
    Repository.PreferredFirst(s.db.outbox, eligible, preferTopic, limit, ids);
    assert forall e :: e in eligible <==> MayClaim(s, e) && e !in locked;
    if |ids| < limit { Repository.SubsetSize(ids, eligible); }
  }

  lemma FairBatchIsClaimable(cfg: Config, s: State, preferTopic: string, locked: set<int>, ids: set<int>)
    requires IsFairBatch(s, preferTopic, cfg.batchSize, locked, ids)
    ensures CanClaimBatch(cfg, s, ids)
  {
  }

  lemma RetrySettles(maxAttempts: int, outbox: map<int, OutboxEvent>, id: int, detail: string)
    requires id in outbox && outbox[id].attempts < maxAttempts
    ensures Settled(maxAttempts, outbox, Tables.RecordFailure(outbox, id, detail), id)
  {
  }

  lemma MarkSettles(maxAttempts: int, outbox: map<int, OutboxEvent>, id: int, now: int)
    requires id in outbox
    ensures Settled(maxAttempts, outbox, Tables.MarkPublished(outbox, id, now), id)
  {
  }

  lemma PublishedRecord(s: State, c: Claim, row: OutboxEvent)
    requires c.event in s.db.outbox && HeaderOf(row) == HeaderOf(s.db.outbox[c.event])
    ensures RecordFor(s.db.outbox[c.event]) == Record(row.topic, row.partitionKey, row.payload)
  {
  }

  lemma FinalizeSettles(maxAttempts: int, s: State, c: Claim, detail: string)
    requires c.event in s.db.outbox
    ensures Settled(maxAttempts, s.db.outbox, DoFinalize(s, c, detail, Done).db.outbox, c.event)
    ensures DoFinalize(s, c, detail, Done).now == s.now
  {
  }
}
