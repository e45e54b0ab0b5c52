/** The delivery consumer: claim the message of a record, send it with retries under its provider key,
    mark it, and acknowledge the record only after a final outcome. */
module Consumer {
  import opened Domain
  import opened Tables
  import opened Protocol
  import opened Invariants
  import opened Runs
  import opened Worlds
  import opened Platform
  import Repository
  import Redis
  import Provider
  import Sums

  const PROVIDER_RETRY_BASE := 100

  // 1 << n
  function Shift(n: nat): nat {
    if n == 0 then 1 else 2 * Shift(n - 1)
  }

  // The value of a Kafka record as Process sees it.
  datatype Payload = Garbage | Decoded(event: SmsEvent)

  // What Process returns; only Nil lets the worker commit the record.
  datatype Verdict = Nil | RetryLater | DbFailed

  function CallsBy(steps: seq<Step>, did: int): nat {
    if steps == [] then 0
    else
      var last := steps[|steps| - 1];
      CallsBy(steps[..|steps| - 1], did) + if last.CallProvider? && last.did == did then 1 else 0
  }

  // Steps of others are not calls of this delivery.
  lemma {:induction false} OthersDoNotCall(a: seq<Step>, b: seq<Step>, did: int)
    requires a <= b && NotBy(Reader(did), b, |a|, |b|)
    ensures CallsBy(b, did) == CallsBy(a, did)
    decreases |b|
  {
    if a != b { OthersDoNotCall(a, b[..|b| - 1], did); }
  }

  lemma OneStep(steps: seq<Step>, step: Step, did: int)
    ensures CallsBy(steps + [step], did) == CallsBy(steps, did) + if step.CallProvider? && step.did == did then 1 else 0
  {
    assert (steps + [step])[..|steps|] == steps;
  }

  // The delivery is at this record, and the record holds this event.
  ghost predicate At(s: State, did: int, o: nat, e: SmsEvent) {
    AtPhase(s, did) && s.deliveries[did].offset == o && EventOf(s, did) == e
  }

  // Clock, log and outbox are as they were, and at most this message changed.
  ghost predicate OnlyRow(a: State, b: State, id: int) {
    && b.now == a.now && b.log == a.log && b.db.outbox == a.db.outbox && b.db.messages.Keys == a.db.messages.Keys
    && forall m :: m in a.db.messages && m != id ==> b.db.messages[m] == a.db.messages[m]
  }

  lemma OnlyRowTwice(a: State, b: State, c: State, id: int)
    requires OnlyRow(a, b, id) && OnlyRow(b, c, id)
    ensures OnlyRow(a, c, id)
  {
  }

  lemma NothingYet(s: State, id: int)
    ensures OnlyRow(s, s, id)
  {
  }

  // A claim on the message does not have to wait for anybody.
  ghost predicate Free(s: State, id: int) {
    id in s.db.messages && (Terminal(s.db.messages[id]) || ClaimableMessage(s.db.messages, id, s.now))
  }

  // What a delivery writes: sent without an error code, or failed with provider_error.
  ghost predicate Marked(s: State, id: int, outcome: CallResult) {
    && id in s.db.messages && s.db.messages[id].updatedAt == s.now
    && if outcome.Ok? then s.db.messages[id].status == MessageSent && s.db.messages[id].errorCode == None
       else s.db.messages[id].status == MessageFailed && s.db.messages[id].errorCode == Some(ProviderError)
  }

  // Queued, or sending for more than two minutes.
  ghost predicate MayDeliver(s: State, id: int) {
    && id in s.db.messages
    && (s.db.messages[id].status == MessageQueued
        || (s.db.messages[id].status == MessageSending && 120000 < s.now - s.db.messages[id].updatedAt))
  }

  class MessageProcessor {
    const system: System

    constructor (system: System)
      ensures this.system == system
    {
      this.system := system;
    }

    ghost predicate Valid()
      reads system.repo, system.redis, system.broker, system.sender, system.world
    {
      system.InSync()
    }

    ghost function Now(): State
      requires Valid()
      reads system.repo, system.redis, system.broker, system.sender, system.world
    {
      system.world.Now()
    }

    // Others run; this delivery keeps its record and its phase.
    method Yield(ghost did: int)
      requires Valid() && AtPhase(Now(), did)
      modifies system.repo, system.redis, system.broker, system.sender, system.world
      ensures Valid()
      ensures Longer(old(system.world.states), old(system.world.steps), system.world.states, system.world.steps)
      ensures At(Now(), did, old(Now()).deliveries[did].offset, EventOf(old(Now()), did))
      ensures Now().deliveries[did] == old(Now()).deliveries[did]
      ensures CallsBy(system.world.steps, did) == CallsBy(old(system.world.steps), did)
      ensures system.alone ==> Now() == old(Now())
    {
      hide IsExecution;
      ghost var steps := system.world.steps;
      system.Yield(Reader(did));
      OthersDoNotCall(steps, system.world.steps, did);
    }

    // The delay before the next attempt.
    method Backoff(attempt: nat) returns (delay: nat)
      requires 1 <= attempt < MAX_PROVIDER_ATTEMPTS
      ensures BackoffRange(attempt, delay)
      ensures if attempt == 1 then 100 <= delay <= 149 else 200 <= delay <= 249
    {
      var jitter := system.Jitter();
      delay := PROVIDER_RETRY_BASE * Shift(attempt - 1) + jitter;
    }

    // sender.Send, which may or may not reach the provider.
    method Ask(key: string, event: SmsEvent) returns (result: CallResult, reached: bool)
      requires system.sender.Valid() && key == Provider.ProviderIdempotencyKey(event.messageId)
      modifies system.sender
      ensures system.sender.Valid() && (result.Ok? ==> reached)
      ensures system.sender.seen == if reached then old(system.sender.seen) + {key} else old(system.sender.seen)
      ensures system.patient ==> !result.Canceled?
    {
      result, reached := system.CallAnswer();
      if reached { system.sender.Send(key, event.recipient, event.text); }
    }

    // One call of the provider and its step.
    method Call(event: SmsEvent, attempt: nat, ghost did: int, ghost o: nat) returns (result: CallResult, delay: nat)
      requires Valid() && At(Now(), did, o, event)
      requires Now().deliveries[did].phase.Calling? && Now().deliveries[did].phase.attempt == attempt
      requires 1 <= attempt <= 3
      modifies system.sender, system.world
      ensures Valid()
      ensures Longer(old(system.world.states), old(system.world.steps), system.world.states, system.world.steps)
      ensures exists reached ::
                Now() == DoCallProvider(old(Now()), did, result, reached, delay) && (result.Ok? ==> reached)
      ensures CallsBy(system.world.steps, did) == CallsBy(old(system.world.steps), did) + 1
      ensures Follows(Now(), did, o, event, attempt, result)
      ensures OnlyRow(old(Now()), Now(), event.messageId) && (system.patient ==> !result.Canceled?)
    {
      hide IsExecution, Repository.Repo.Valid, Redis.RedisStore.Mirrors, Provider.LogSender.Valid, CallsBy,
           Provider.ProviderIdempotencyKey, BackoffRange;
      ghost var s, steps := Now(), system.world.steps;
      var reached;
      result, reached := Ask(Provider.ProviderIdempotencyKey(event.messageId), event);
      delay := 0;
      if result.Err? && attempt != MAX_PROVIDER_ATTEMPTS { delay := Backoff(attempt); }
      system.world.TookCallProvider(did, result, reached, delay);
      CallReaches(s, did, result, reached, delay);
      CallLeads(s, did, result, reached, delay);
      OneStep(steps, CallProvider(did, result, reached, delay), did);
    }

    method SendWithRetry(event: SmsEvent, ghost did: int, ghost o: nat) returns (last: CallResult, ghost calls: nat)
      requires Valid() && At(Now(), did, o, event) && IsCalling(Now(), did, 1)
      modifies system.repo, system.redis, system.broker, system.sender, system.world
      ensures Valid()
      ensures Longer(old(system.world.states), old(system.world.steps), system.world.states, system.world.steps)
      ensures 1 <= calls <= 3 && (last.Err? ==> calls == 3)
      ensures CallsBy(system.world.steps, did) == CallsBy(old(system.world.steps), did) + calls
      ensures match last
              case Ok => At(Now(), did, o, event) && Now().deliveries[did].phase.Accepted?
              case Err => At(Now(), did, o, event) && Now().deliveries[did].phase.GaveUp?
              case Canceled => did !in Now().deliveries
      ensures (system.alone ==> OnlyRow(old(Now()), Now(), event.messageId)) && (system.patient ==> !last.Canceled?)
    {
      hide IsExecution, CallsBy, DoCallProvider, OnlyRow;
      ghost var s := Now();
      NothingYet(s, event.messageId);
      var attempt := 1;
      last, calls := Canceled, 0;
      while attempt <= MAX_PROVIDER_ATTEMPTS
        invariant Valid()
        invariant Longer(old(system.world.states), old(system.world.steps), system.world.states, system.world.steps)
        invariant 1 <= attempt <= MAX_PROVIDER_ATTEMPTS && calls == attempt - 1
        invariant At(Now(), did, o, event) && IsCalling(Now(), did, attempt)
        invariant CallsBy(system.world.steps, did) == CallsBy(old(system.world.steps), did) + calls
        invariant system.alone ==> OnlyRow(s, Now(), event.messageId)
      {
        var delay;
        ghost var s1 := Now();
        last, delay := Call(event, attempt, did, o);
        calls := calls + 1;
        ghost var s2 := Now();
        if system.alone { OnlyRowTwice(s, s1, s2, event.messageId); }
        if last.Ok? || last.Canceled? { return; }
        if attempt == MAX_PROVIDER_ATTEMPTS { break; }
        var cancelled := Wait(event, attempt, did, o);
        if system.alone { OnlyRowTwice(s, s2, Now(), event.messageId); }
        if cancelled { return Canceled, calls; }
        attempt := attempt + 1;
      }
    }

    // The select on the context and the timer.
    method Wait(event: SmsEvent, attempt: nat, ghost did: int, ghost o: nat) returns (cancelled: bool)
      requires Valid() && At(Now(), did, o, event)
      requires Now().deliveries[did].phase.Waiting? && Now().deliveries[did].phase.attempt == attempt
      modifies system.repo, system.redis, system.broker, system.sender, system.world
      ensures Valid()
      ensures Longer(old(system.world.states), old(system.world.steps), system.world.states, system.world.steps)
      ensures CallsBy(system.world.steps, did) == CallsBy(old(system.world.steps), did)
      ensures if cancelled then did !in Now().deliveries
              else At(Now(), did, o, event) && IsCalling(Now(), did, attempt + 1)
      ensures (system.alone ==> OnlyRow(old(Now()), Now(), event.messageId)) && (system.patient ==> !cancelled)
    {
      hide IsExecution, CallsBy;
      Yield(did);
      cancelled := system.Cancelled();
      ghost var steps := system.world.steps;
      if cancelled {
        system.world.TookDrop(did);
        OneStep(steps, Drop(did), did);
      } else {
        system.world.TookWake(did);
        OneStep(steps, Wake(did), did);
      }
    }

    // The UPDATE, and on no row, after whatever others do, the SELECT.
    method ClaimMessageForSending(event: SmsEvent, ghost did: int, ghost o: nat)
      returns (r: Repository.Result<ClaimOutcome>)
      requires Valid() && At(Now(), did, o, event) && Now().deliveries[did].phase.Fetched?
      modifies system.repo, system.redis, system.broker, system.sender, system.world
      ensures Valid()
      ensures Longer(old(system.world.states), old(system.world.steps), system.world.states, system.world.steps)
      ensures CallsBy(system.world.steps, did) == CallsBy(old(system.world.steps), did)
      ensures ClaimedAs(Now(), did, o, event, r)
      ensures system.alone ==> OnlyRow(old(Now()), Now(), event.messageId)
      ensures system.reliable && system.alone && Free(old(Now()), event.messageId) ==> r.Ok? && !r.value.ClaimInFlight?
      ensures system.alone && r.Ok? ==> (r.value.ClaimAcquired? <==> MayDeliver(old(Now()), event.messageId))
      ensures system.alone && r.Ok? && !r.value.ClaimAcquired? ==> Now().db == old(Now()).db
    {
      hide IsExecution, CallsBy, Reach, Redis.RedisStore.Mirrors, Provider.LogSender.Valid;
      var ok, n := TryClaim(event, did, o);
      if !ok { return Repository.Err(Repository.ErrDb); }
      if n > 0 { return Repository.Ok(ClaimAcquired); }
      Yield(did);
      r := Check(event, did, o);
    }

    method TryClaim(event: SmsEvent, ghost did: int, ghost o: nat) returns (ok: bool, n: nat)
      requires Valid() && At(Now(), did, o, event) && Now().deliveries[did].phase.Fetched?
      modifies system.repo, system.world
      ensures Valid()
      ensures Longer(old(system.world.states), old(system.world.steps), system.world.states, system.world.steps)
      ensures CallsBy(system.world.steps, did) == CallsBy(old(system.world.steps), did)
      ensures if !ok then did !in Now().deliveries
              else At(Now(), did, o, event)
                   && (0 < n <==> ClaimableMessage(old(Now()).db.messages, event.messageId, old(Now()).now))
                   && if 0 < n then IsCalling(Now(), did, 1) && Leased(Now(), event.messageId)
                      else Now().deliveries[did].phase.Checking?
      ensures OnlyRow(old(Now()), Now(), event.messageId) && (system.reliable ==> ok)
      ensures ok && n == 0 ==> Now().db == old(Now()).db
      ensures ok ==> (0 < n <==> MayDeliver(old(Now()), event.messageId))
    {
      hide IsExecution, CallsBy, Redis.RedisStore.Mirrors, Provider.LogSender.Valid;
      ghost var s, steps := Now(), system.world.steps;
      var fate := system.WriteFate();
      ok, n := system.repo.TryClaimMessage(event.messageId, fate);
      system.world.TookTryClaim(did, fate);
      OneStep(steps, Step.TryClaim(did, fate), did);
    }

    method Check(event: SmsEvent, ghost did: int, ghost o: nat) returns (r: Repository.Result<ClaimOutcome>)
      requires Valid() && At(Now(), did, o, event) && Now().deliveries[did].phase.Checking?
      modifies system.world
      ensures Valid()
      ensures Longer(old(system.world.states), old(system.world.steps), system.world.states, system.world.steps)
      ensures CallsBy(system.world.steps, did) == CallsBy(old(system.world.steps), did)
      ensures ClaimedAs(Now(), did, o, event, r)
      ensures OnlyRow(old(Now()), Now(), event.messageId)
      ensures system.reliable ==> r == Repository.Ok(Classify(old(Now()).db.messages, event.messageId))
      ensures Now().db == old(Now()).db && (r.Ok? ==> !r.value.ClaimAcquired?)
    {
      hide IsExecution, CallsBy, Redis.RedisStore.Mirrors, Provider.LogSender.Valid;
      ghost var steps := system.world.steps;
      var broken := system.Broken();
      r := system.repo.ClassifyMessage(event.messageId, broken);
      system.world.TookCheck(did, broken);
      OneStep(steps, Step.Check(did, broken), did);
    }

    method MarkFailed(event: SmsEvent, ghost did: int, ghost o: nat) returns (ok: bool)
      requires Valid() && At(Now(), did, o, event) && Now().deliveries[did].phase.GaveUp?
      modifies system.repo, system.world
      ensures Valid()
      ensures Longer(old(system.world.states), old(system.world.steps), system.world.states, system.world.steps)
      ensures CallsBy(system.world.steps, did) == CallsBy(old(system.world.steps), did)
      ensures ok ==> At(Now(), did, o, event) && Now().deliveries[did].phase.Acking?
      ensures !ok ==> did !in Now().deliveries
      ensures OnlyRow(old(Now()), Now(), event.messageId) && (system.reliable ==> ok)
      ensures ok && event.messageId in Now().db.messages ==> Marked(Now(), event.messageId, Err)
    {
      hide IsExecution, CallsBy, Redis.RedisStore.Mirrors, Provider.LogSender.Valid;
      ghost var steps := system.world.steps;
      var fate := system.WriteFate();
      ok := system.repo.MarkMessageFailed(event.messageId, ProviderError, fate);
      system.world.TookMarkFailed(did, fate);
      OneStep(steps, Step.MarkFailed(did, fate), did);
    }

    method MarkSent(event: SmsEvent, ghost did: int, ghost o: nat) returns (ok: bool)
      requires Valid() && At(Now(), did, o, event) && Now().deliveries[did].phase.Accepted?
      modifies system.repo, system.world
      ensures Valid()
      ensures Longer(old(system.world.states), old(system.world.steps), system.world.states, system.world.steps)
      ensures CallsBy(system.world.steps, did) == CallsBy(old(system.world.steps), did)
      ensures ok ==> At(Now(), did, o, event) && Now().deliveries[did].phase.Acking?
      ensures !ok ==> did !in Now().deliveries
      ensures OnlyRow(old(Now()), Now(), event.messageId) && (system.reliable ==> ok)
      ensures ok && event.messageId in Now().db.messages ==> Marked(Now(), event.messageId, Ok)
    {
      hide IsExecution, CallsBy, Redis.RedisStore.Mirrors, Provider.LogSender.Valid;
      ghost var steps := system.world.steps;
      var fate := system.WriteFate();
      ok := system.repo.MarkMessageSent(event.messageId, fate);
      system.world.TookMarkSent(did, fate);
      OneStep(steps, Step.MarkSent(did, fate), did);
    }

    // Nil exactly when the record may be committed: then its message is sent or failed for good. outcome is
    // what the provider calls came to, if there were any.
    method Process(payload: Payload, ghost did: int, ghost o: nat)
      returns (r: Verdict, ghost outcome: Option<CallResult>)
      requires Valid()
      requires payload.Decoded? && payload.event.messageId != 0 ==>
                 At(Now(), did, o, payload.event) && Now().deliveries[did].phase.Fetched?
      modifies system.repo, system.redis, system.broker, system.sender, system.world
      ensures Valid()
      ensures Longer(old(system.world.states), old(system.world.steps), system.world.states, system.world.steps)
      ensures payload.Garbage? || payload.event.messageId == 0 ==>
                r.Nil? && outcome.None? && Now() == old(Now()) && system.world.steps == old(system.world.steps)
      ensures payload.Decoded? && payload.event.messageId != 0 ==>
                && CallsBy(system.world.steps, did) <= CallsBy(old(system.world.steps), did) + 3
                && if r.Nil? then
                     At(Now(), did, o, payload.event) && Now().deliveries[did].phase.Acking?
                     && payload.event.messageId in Now().db.messages
                     && Terminal(Now().db.messages[payload.event.messageId])
                   else did !in Now().deliveries
      ensures r.Nil? && outcome.Some? ==> payload.Decoded? && Marked(Now(), payload.event.messageId, outcome.value)
      ensures payload.Decoded? && payload.event.messageId != 0 && system.alone ==>
                && OnlyRow(old(Now()), Now(), payload.event.messageId)
                && (system.reliable && system.patient && Free(old(Now()), payload.event.messageId) ==> r.Nil?)
      ensures payload.Decoded? && payload.event.messageId != 0 && r.Nil? && system.alone ==>
                && (outcome.Some? <==> MayDeliver(old(Now()), payload.event.messageId))
                && (outcome.None? ==> Now().db == old(Now()).db)
    {
      hide IsExecution, CallsBy, ClaimableMessage, Classify, MayDeliver;
      if payload.Garbage? { return Nil, None; }
      var event := payload.event;
      if event.messageId == 0 { return Nil, None; }
      var claim := ClaimMessageForSending(event, did, o);
      if claim.Err? { return DbFailed, None; }
      match claim.value {
        case ClaimInFlight => return RetryLater, None;
        case ClaimAcquired =>
        case _ =>
          AckedIsTerminal(system.world, did);
          return Nil, None;
      }
      Yield(did);
      ghost var last;
      r, last := Deliver(event, did, o);
      outcome := Some(last);
      if r.Nil? { AckedIsTerminal(system.world, did); }
    }

    // The rest of Process, once the claim is acquired: success is marked sent, three errors are marked failed.
    method Deliver(event: SmsEvent, ghost did: int, ghost o: nat) returns (r: Verdict, ghost outcome: CallResult)
      requires Valid() && At(Now(), did, o, event) && IsCalling(Now(), did, 1)
      modifies system.repo, system.redis, system.broker, system.sender, system.world
      ensures Valid()
      ensures Longer(old(system.world.states), old(system.world.steps), system.world.states, system.world.steps)
      ensures CallsBy(system.world.steps, did) <= CallsBy(old(system.world.steps), did) + 3
      ensures outcome.Err? ==> CallsBy(system.world.steps, did) == CallsBy(old(system.world.steps), did) + 3
      ensures if r.Nil? then At(Now(), did, o, event) && Now().deliveries[did].phase.Acking?
              else did !in Now().deliveries
      ensures r.Nil? ==> Marked(Now(), event.messageId, outcome)
      ensures outcome.Canceled? ==> r.RetryLater?
      ensures system.alone ==> OnlyRow(old(Now()), Now(), event.messageId)
      ensures system.reliable && system.alone && system.patient ==> r.Nil?
    {
      hide IsExecution, CallsBy, Marked;
      var last, calls := SendWithRetry(event, did, o);
      outcome := last;
      if last.Canceled? { return RetryLater, last; }
      Yield(did);
      var ok;
      if last.Err? {
        ok := MarkFailed(event, did, o);
      } else {
        ok := MarkSent(event, did, o);
      }
      if ok { AckedIsTerminal(system.world, did); }
      r := if ok then Nil else DbFailed;
    }

    // The loop of a worker, over as many fetches as the context allows.
    method RunWorker(fetches: nat) returns (failStreak: nat, ghost results: seq<Option<nat>>, ghost done: set<nat>)
      requires Valid()
      modifies system.repo, system.redis, system.broker, system.sender, system.world
      ensures Valid()
      ensures Longer(old(system.world.states), old(system.world.steps), system.world.states, system.world.steps)
      ensures |results| == fetches && failStreak == Streak(results)
      ensures AllProcessed(Now(), results) && forall o :: o in done ==> o in Now().acked && Some(o) in results
    {
      hide IsExecution, AllProcessed;
      failStreak, results, done := 0, [], {};
      NoneProcessed(Now());
      for i := 0 to fetches
        invariant Valid()
        invariant Longer(old(system.world.states), old(system.world.steps), system.world.states, system.world.steps)
        invariant |results| == i && failStreak == Streak(results)
        invariant AllProcessed(Now(), results) && forall o :: o in done ==> o in Now().acked && Some(o) in results
      {
        ghost var states, steps := system.world.states, system.world.steps;
        ghost var o;
        var ok, committed;
        ok, committed, o := HandleRecord();
        ghost var result := if ok then Some(o) else None;
        StillProcessed(system.world, states, steps, results, result);
        if committed { done := done + {o}; }
        failStreak := if ok then 0 else failStreak + 1;
        StreakNext(results, result);
        results := results + [result];
      }
    }

    // One turn of that loop: fetch, process, and on nil commit.
    method HandleRecord() returns (ok: bool, committed: bool, ghost offset: nat)
      requires Valid()
      modifies system.repo, system.redis, system.broker, system.sender, system.world
      ensures Valid()
      ensures Longer(old(system.world.states), old(system.world.steps), system.world.states, system.world.steps)
      ensures ok ==> Processed(Now(), offset)
      ensures committed ==> ok && offset in Now().acked
    {
      hide IsExecution, Processed;
      var record := system.FetchRecord();
      if record.None? { return false, false, 0; }
      offset := record.value;
      ok, committed := HandleFetched(record.value);
    }

    method HandleFetched(offset: nat) returns (ok: bool, committed: bool)
      requires Valid() && offset < |Now().log|
      modifies system.repo, system.redis, system.broker, system.sender, system.world
      ensures Valid()
      ensures Longer(old(system.world.states), old(system.world.steps), system.world.states, system.world.steps)
      ensures ok ==> Processed(Now(), offset)
      ensures committed ==> ok && offset in Now().acked
      ensures system.alone ==> OnlyRow(old(Now()), Now(), old(Now()).log[offset].value.messageId)
      ensures (&& system.alone && system.reliable && system.patient
               && Free(old(Now()), old(Now()).log[offset].value.messageId)) ==> committed
    {
      hide IsExecution, CallsBy, OnlyRow, Free;
      committed := false;
      ghost var s := Now();
      ghost var did := Sums.FreshId(Now().deliveries);
      var event := system.broker.log[offset].value;
      Fetch(event, offset, did);
      ghost var s1 := Now();
      if event.messageId == 0 { NoZeroRecord(system.world, offset); }
      var verdict, outcome := Process(Decoded(event), did, offset);
      if system.alone { OnlyRowTwice(s, s1, Now(), event.messageId); }
      if !verdict.Nil? { return false, false; }
      Yield(did);
      AckedIsTerminal(system.world, did);
      ghost var s2 := Now();
      committed := Commit(offset, did);
      CommitKeeps(s2, did, committed, event.messageId, offset);
      if system.alone { OnlyRowTwice(s, s2, Now(), event.messageId); }
      return true, committed;
    }

    method Fetch(event: SmsEvent, offset: nat, ghost did: int)
      requires Valid() && offset < |Now().log| && event == Now().log[offset].value && did !in Now().deliveries
      modifies system.repo, system.redis, system.broker, system.sender, system.world
      ensures Valid()
      ensures Longer(old(system.world.states), old(system.world.steps), system.world.states, system.world.steps)
      ensures At(Now(), did, offset, event) && Now().deliveries[did].phase.Fetched?
      ensures system.alone ==> OnlyRow(old(Now()), Now(), event.messageId)
      ensures system.alone && Free(old(Now()), event.messageId) ==> Free(Now(), event.messageId)
    {
      hide IsExecution, CallsBy;
      system.world.TookFetch(did, offset);
      Yield(did);
    }

    method Commit(offset: nat, ghost did: int) returns (committed: bool)
      requires Valid() && AtPhase(Now(), did) && Now().deliveries[did].phase.Acking?
      requires Now().deliveries[did].offset == offset
      modifies system.broker, system.world
      ensures Valid()
      ensures Longer(old(system.world.states), old(system.world.steps), system.world.states, system.world.steps)
      ensures Now() == DoAck(old(Now()), did, committed)
      ensures system.reliable ==> committed
    {
      hide IsExecution, Redis.RedisStore.Mirrors, Provider.LogSender.Valid, Repository.Repo.Valid;
      var failed := system.Broken();
      committed := !failed;
      system.broker.Commit(offset, committed);
      system.world.TookAck(did, committed);
    }
  }

  // Consecutive failures at the end.
  function Streak(results: seq<Option<nat>>): nat {
    if results == [] || results[|results| - 1].Some? then 0 else Streak(results[..|results| - 1]) + 1
  }

  lemma StreakNext(results: seq<Option<nat>>, r: Option<nat>)
    ensures Streak(results + [r]) == if r.Some? then 0 else Streak(results) + 1
  {
    assert (results + [r])[..|results|] == results;
  }

  // A record whose message is sent or failed.
  ghost predicate Processed(s: State, o: nat) {
    o < |s.log| && s.log[o].value.messageId in s.db.messages && Terminal(s.db.messages[s.log[o].value.messageId])
  }

  ghost predicate AllProcessed(s: State, results: seq<Option<nat>>) {
    forall i :: 0 <= i < |results| && results[i].Some? ==> Processed(s, results[i].value)
  }

  lemma NoneProcessed(s: State)
    ensures AllProcessed(s, [])
  {
  }

  // Processed and acknowledged records stay so.
  lemma StillProcessed(world: World, states: seq<State>, steps: seq<Step>, results: seq<Option<nat>>, r: Option<nat>)
    requires world.Valid() && IsExecution(world.cfg, states, steps) && Longer(states, steps, world.states, world.steps)
    requires AllProcessed(states[|steps|], results) && (r.Some? ==> Processed(world.Now(), r.value))
    ensures AllProcessed(world.Now(), results + [r]) && states[|steps|].acked <= world.Now().acked
  {
    hide Enabled, Apply;
    RunProgress(world.cfg, world.states, world.steps, |steps|, |world.steps|);
  }

  lemma CommitKeeps(s: State, did: int, committed: bool, id: int, offset: nat)
    requires did in s.deliveries && s.deliveries[did].offset == offset
    ensures OnlyRow(s, DoAck(s, did, committed), id) && DoAck(s, did, committed).db == s.db
    ensures committed ==> offset in DoAck(s, did, committed).acked
  {
  }

  // No record of the log lacks its message id.
  lemma NoZeroRecord(world: World, o: nat)
    requires world.Valid() && o < |world.Now().log|
    ensures world.Now().log[o].value.messageId != 0
  {
    hide IsExecution, MoneyOk, RefundsOk, OutboxOk, DeliveryStateOk, ProviderOk, ApiOk;
    world.Holds();
  }

  // What the claim of a message leaves behind.
  ghost predicate ClaimedAs(s: State, did: int, o: nat, event: SmsEvent, r: Repository.Result<ClaimOutcome>) {
    match r
    case Err(_) => did !in s.deliveries
    case Ok(outcome) =>
      match outcome
      case ClaimAcquired => At(s, did, o, event) && IsCalling(s, did, 1) && Leased(s, event.messageId)
      case ClaimInFlight => did !in s.deliveries
      case _ =>
        && At(s, did, o, event) && s.deliveries[did].phase.Acking?
        && Classify(s.db.messages, event.messageId) == outcome
  }

  // The row was claimed this very moment.
  ghost predicate Leased(s: State, id: int) {
    id in s.db.messages && s.db.messages[id].status.MessageSending? && s.db.messages[id].updatedAt == s.now
  }

  lemma AckedIsTerminal(world: World, did: int)
    requires world.Valid() && AtPhase(world.Now(), did) && world.Now().deliveries[did].phase.Acking?
    ensures EventOf(world.Now(), did).messageId in world.Now().db.messages
    ensures Terminal(world.Now().db.messages[EventOf(world.Now(), did).messageId])
  {
    hide IsExecution, RowsOk, MoneyOk, RefundsOk, LogOk, OutboxOk, ProviderOk, ApiOk;
    world.Holds();
    var s := world.Now();
    assert DeliveryOk(s.deliveries[did], s.log, s.db.messages, s.seen);
  }

  ghost predicate IsCalling(s: State, did: int, attempt: nat)
    requires did in s.deliveries
  {
    s.deliveries[did].phase.Calling? && s.deliveries[did].phase.attempt == attempt
  }

  // Where a call leaves the delivery.
  ghost predicate Follows(s: State, did: int, o: nat, event: SmsEvent, attempt: int, result: CallResult) {
    match result
    case Ok => At(s, did, o, event) && s.deliveries[did].phase.Accepted?
    case Canceled => did !in s.deliveries
    case Err =>
      && At(s, did, o, event)
      && if attempt == MAX_PROVIDER_ATTEMPTS then s.deliveries[did].phase.GaveUp?
         else s.deliveries[did].phase.Waiting? && s.deliveries[did].phase.attempt == attempt
  }

  // The provider's memory after the call.
  lemma CallReaches(s: State, did: int, result: CallResult, reached: bool, delay: int)
    requires CanCallProvider(s, did, result, reached, delay)
    ensures DoCallProvider(s, did, result, reached, delay).seen
         == if reached then s.seen + {Provider.ProviderIdempotencyKey(EventOf(s, did).messageId)} else s.seen
    ensures DoCallProvider(s, did, result, reached, delay)
         == s.(seen := DoCallProvider(s, did, result, reached, delay).seen,
               sms := DoCallProvider(s, did, result, reached, delay).sms,
               deliveries := DoCallProvider(s, did, result, reached, delay).deliveries)
  {
    hide Provider.ProviderIdempotencyKey;
  }

  lemma CallLeads(s: State, did: int, result: CallResult, reached: bool, delay: int)
    requires CanCallProvider(s, did, result, reached, delay)
    ensures Follows(DoCallProvider(s, did, result, reached, delay), did, s.deliveries[did].offset, EventOf(s, did),
                    s.deliveries[did].phase.attempt, result)
  {
    hide Provider.ProviderIdempotencyKey;
  }
}
