/** The send use case: resolve the idempotency key, else debit and enqueue in one transaction, else
    replay the answer of the request that took the key first. */
module Sending {
  import opened Domain
  import opened Tables
  import opened Protocol
  import opened Invariants
  import opened Worlds
  import opened Platform
  import Preservation
  import Persisting
  import Repository
  import Redis
  import Provider
  import Plan
  import Sums

  // What loadIdempotentFromDB finds.
  datatype Loaded = Found(result: SendResult, hash: Hash) | Absent | Clashing | Failing

  ghost predicate Pc(s: State, pid: int, pc: SendPc) {
    pid in s.sends && s.sends[pid] == pc
  }

  // The call is over and this is its answer.
  ghost predicate Answered(s: State, pid: int, cmd: SendRequest, reply: Reply) {
    pid !in s.sends && s.hist.answers != [] && s.hist.answers[|s.hist.answers| - 1] == Answer(cmd, reply)
  }

  // The lookup saw the database as it is.
  ghost predicate Truthful(s: State, cmd: SendRequest, r: Loaded) {
    var l := Load(s.db.requests, cmd.userId, cmd.key, PayloadHash(cmd));
    match r
    case Found(result, hash) => l == Hit(result) && hash == PayloadHash(cmd)
    case Absent => l.Miss?
    case Clashing => l.Mismatch?
    case Failing => true
  }

  // Where a lookup leaves the call.
  ghost predicate ReadLeaves(s: State, pid: int, pc: SendPc, cancelled: bool, r: Loaded) {
    match r
    case Found(result, _) => Pc(s, pid, Saving(pc.cmd, result))
    case Clashing => Answered(s, pid, pc.cmd, Conflict)
    case Failing => Answered(s, pid, pc.cmd, Broken)
    case Absent =>
      if !pc.Polling? then Pc(s, pid, Persisting(pc.cmd))
      else if cancelled then Answered(s, pid, pc.cmd, Broken)
      else if pc.polls + 1 == 5 then Answered(s, pid, pc.cmd, Conflict)
      else Pc(s, pid, Polling(pc.cmd, pc.polls + 1))
  }

  ghost predicate SameTables(a: State, b: State) {
    b.db == a.db && b.now == a.now
  }

  lemma LoadIs(requests: map<int, Request>, id: int, user: int, key: string, hash: Hash)
    requires Unique(requests) && Matches(requests, id, user, key)
    ensures Load(requests, user, key, hash) == Judge(requests[id], hash)
  {
  }

  lemma UniqueRequests(world: World)
    requires world.Valid()
    ensures Unique(world.Now().db.requests)
  {
    hide IsExecution, Inv;
    world.Holds();
    Preservation.StoredComplete(world.cfg, world.Now());
  }

  lemma StoredHash(world: World, id: int)
    requires world.Valid() && id in world.Now().db.requests
    ensures world.Now().db.requests[id].hash != NoHash
  {
    hide IsExecution, Inv;
    world.Holds();
    Preservation.StoredComplete(world.cfg, world.Now());
  }

  lemma CacheTellsTheTruth(world: World, user: int, key: string, hash: Hash)
    requires world.Valid() && hash != NoHash && CacheHit(world.Now().cache, user, key, hash)
    ensures Load(world.Now().db.requests, user, key, hash) == Hit(world.Now().cache[(user, key)].result)
  {
    hide IsExecution, RowsOk, MoneyOk, RefundsOk, LogOk, OutboxOk, DeliveryStateOk, ProviderOk;
    var s := world.Now();
    world.Holds();
    Preservation.StoredComplete(world.cfg, s);
    assert Bound(s.db.requests, user, key, s.cache[(user, key)].hash, s.cache[(user, key)].result);
    Preservation.LoadMeaning(world.cfg, s.db.requests, user, key, hash);
  }

  class UseCase {
    const system: System
    const cfg: Config

    constructor (system: System, cfg: Config)
      ensures this.system == system && this.cfg == cfg
    {
      this.system, this.cfg := system, cfg;
    }

    ghost predicate Valid()
      reads system.repo, system.redis, system.broker, system.sender, system.world
    {
      system.InSync() && cfg == system.world.cfg
    }

    ghost function Now(): State
      requires Valid()
      reads system.repo, system.redis, system.broker, system.sender, system.world
    {
      system.world.Now()
    }

    method Yield(ghost pid: int)
      requires Valid() && pid in Now().sends
      modifies system.repo, system.redis, system.broker, system.sender, system.world
      ensures Valid()
      ensures Longer(old(system.world.states), old(system.world.steps), system.world.states, system.world.steps)
      ensures pid in Now().sends && Now().sends[pid] == old(Now()).sends[pid]
      ensures system.alone ==> Now() == old(Now())
    {
      hide IsExecution;
      system.Yield(Caller(pid));
    }

    method LookInCache(cmd: SendRequest, ghost pid: int) returns (cached: Option<SendResult>)
      requires Valid() && Pc(Now(), pid, Resolving(cmd))
      modifies system.world
      ensures Valid()
      ensures Longer(old(system.world.states), old(system.world.steps), system.world.states, system.world.steps)
      ensures SameTables(old(Now()), Now())
      ensures cached.Some? ==> Answered(Now(), pid, cmd, Success(cached.value))
                               && Truthful(Now(), cmd, Found(cached.value, PayloadHash(cmd)))
      ensures cached.None? ==> Pc(Now(), pid, LookingUp(cmd))
    {
      hide IsExecution, Repository.Repo.Valid, Redis.RedisStore.Mirrors, Provider.LogSender.Valid, Load;
      var broken := system.Broken();
      cached := system.redis.GetIdempotentResult(cmd.userId, cmd.key, PayloadHash(cmd), broken, Now().cache);
      if cached.Some? { CacheTellsTheTruth(system.world, cmd.userId, cmd.key, PayloadHash(cmd)); }
      system.world.TookReadCache(pid, broken);
    }

    // The query of loadIdempotentFromDB and its verdict.
    method Find(cmd: SendRequest, hash: Hash) returns (r: Loaded)
      requires Valid() && hash == PayloadHash(cmd)
      ensures Truthful(Now(), cmd, r) && (system.reliable ==> !r.Failing?)
    {
      hide IsExecution, Redis.RedisStore.Mirrors, Provider.LogSender.Valid;
      var broken := system.Broken();
      var found := system.repo.FindRequestByIdempotency(cmd.userId, cmd.key, broken);
      match found {
        case Err(error) => return if error.ErrNotFound? then Absent else Failing;
        case Ok(req) =>
          ghost var requests := Now().db.requests;
          UniqueRequests(system.world);
          ghost var id :| Matches(requests, id, cmd.userId, cmd.key) && requests[id] == req;
          LoadIs(requests, id, cmd.userId, cmd.key, hash);
          if req.hash != NoHash && hash != NoHash && req.hash != hash { return Clashing; }
          if req.response.None? { return Absent; }
          StoredHash(system.world, id);
          return Found(req.response.value, req.hash);
      }
    }

    // The same with its step: the first lookup of a call, or one of its polls. A context that ends
    // after a poll without result counts as a failed poll.
    method Read(cmd: SendRequest, hash: Hash, ghost pid: int, ghost pc: SendPc, cancelled: bool) returns (r: Loaded)
      requires Valid() && hash == PayloadHash(cmd) && Pc(Now(), pid, pc) && pc.cmd == cmd
      requires pc.LookingUp? || pc.Polling?
      modifies system.world
      ensures Valid()
      ensures Longer(old(system.world.states), old(system.world.steps), system.world.states, system.world.steps)
      ensures SameTables(old(Now()), Now())
      ensures Truthful(Now(), cmd, r) && ReadLeaves(Now(), pid, pc, cancelled, r) && (system.reliable ==> !r.Failing?)
    {
      hide IsExecution, Repository.Repo.Valid, Redis.RedisStore.Mirrors, Provider.LogSender.Valid, Load;
      r := Find(cmd, hash);
      if pc.LookingUp? {
        system.world.TookReadDb(pid, r.Failing?);
      } else {
        system.world.TookPoll(pid, r.Failing? || (r.Absent? && cancelled));
      }
    }

    // Saving an answer in the cache; the last save ends the call.
    method Save(cmd: SendRequest, hash: Hash, result: SendResult, ghost pid: int, ghost last: bool)
      requires Valid() && hash == PayloadHash(cmd) && Pc(Now(), pid, Saving(cmd, result))
      modifies system.redis, system.world
      ensures Valid()
      ensures Longer(old(system.world.states), old(system.world.steps), system.world.states, system.world.steps)
      ensures SameTables(old(Now()), Now())
      ensures if last then Answered(Now(), pid, cmd, Success(result)) else Pc(Now(), pid, Saving(cmd, result))
      ensures system.reliable ==> Now().cache == old(Now()).cache[(cmd.userId, cmd.key) := CacheEntry(hash, result)]
    {
      hide IsExecution, Repository.Repo.Valid, Redis.RedisStore.Mirrors, Provider.LogSender.Valid;
      var failed := system.Broken();
      system.redis.SaveIdempotentResult(cmd.userId, cmd.key, hash, result, !failed, Now().cache);
      system.world.TookSaveCache(pid, !failed, last);
    }

    method LoadIdempotentFromDB(cmd: SendRequest, hash: Hash, ghost pid: int, ghost pc: SendPc, cancelled: bool)
      returns (r: Loaded)
      requires Valid() && hash == PayloadHash(cmd) && Pc(Now(), pid, pc) && pc.cmd == cmd
      requires pc.LookingUp? || pc.Polling?
      modifies system.repo, system.redis, system.broker, system.sender, system.world
      ensures Valid()
      ensures Longer(old(system.world.states), old(system.world.steps), system.world.states, system.world.steps)
      ensures system.alone ==> SameTables(old(Now()), Now())
      ensures system.alone ==> Truthful(old(Now()), cmd, r)
      ensures system.reliable ==> !r.Failing?
      ensures if r.Found? && pc.LookingUp? then Answered(Now(), pid, cmd, Success(r.result))
              else ReadLeaves(Now(), pid, pc, cancelled, r)
    {
      hide IsExecution, Load;
      r := Read(cmd, hash, pid, pc, cancelled);
      if r.Found? {
        Yield(pid);
        Save(cmd, r.hash, r.result, pid, pc.LookingUp?);
      }
    }

    method WaitIdempotentFromDB(cmd: SendRequest, hash: Hash, ghost pid: int) returns (reply: Reply)
      requires Valid() && hash == PayloadHash(cmd) && Pc(Now(), pid, Polling(cmd, 0))
      modifies system.repo, system.redis, system.broker, system.sender, system.world
      ensures Valid()
      ensures Longer(old(system.world.states), old(system.world.steps), system.world.states, system.world.steps)
      ensures Replied(Now(), pid, cmd, reply)
      ensures reply.Success? || reply.Conflict? || reply.Broken?
    {
      hide IsExecution, Truthful;
      for i := 0 to IDEMPOTENCY_POLL_ATTEMPTS
        invariant Valid()
        invariant Longer(old(system.world.states), old(system.world.steps), system.world.states, system.world.steps)
        invariant if i < IDEMPOTENCY_POLL_ATTEMPTS then Pc(Now(), pid, Polling(cmd, i))
                  else Answered(Now(), pid, cmd, Conflict)
      {
        Yield(pid);
        var cancelled := system.Cancelled();
        var r := LoadIdempotentFromDB(cmd, hash, pid, Polling(cmd, i), cancelled);
        match r {
          case Failing => return Broken;
          case Clashing => return Conflict;
          case Found(result, _) => return Success(result);
          case Absent => if cancelled { return Broken; }
        }
      }
      return Conflict;
    }

    // The transaction ended without a commit and without a verdict: an error for the caller.
    ghost method Abort(cmd: SendRequest, cs: seq<Message>, pid: int)
      requires Valid() && Pc(Now(), pid, Persisting(cmd)) && Plan.AreCandidates(cfg, cmd, cs)
      modifies system.world
      ensures Valid()
      ensures Longer(old(system.world.states), old(system.world.steps), system.world.states, system.world.steps)
      ensures Answered(Now(), pid, cmd, Broken) && SameTables(old(Now()), Now())
    {
      Rehearse(cmd, cs, pid, Aborted);
    }

    // A transaction that stores nothing takes its step with identifiers nobody will see.
    ghost method Rehearse(cmd: SendRequest, cs: seq<Message>, pid: int, fate: Fate)
      requires Valid() && Pc(Now(), pid, Persisting(cmd)) && Plan.AreCandidates(cfg, cmd, cs)
      requires fate.Aborted? || StoresNothing(cfg, Now().db, cmd, cs)
      modifies system.world
      ensures Valid()
      ensures Longer(old(system.world.states), old(system.world.steps), system.world.states, system.world.steps)
      ensures Now() == Unstored(cfg, old(Now()), pid, cmd, cs, fate)
    {
      hide IsExecution, Redis.RedisStore.Mirrors, Provider.LogSender.Valid, Plan.AreCandidates, HasRequest;
      var n := if cmd.userId in Now().db.users then |PlanFor(cfg, Now().db, cmd, cs).payable| else 0;
      var mids, eids := Range(system.repo.messageIds, n), Range(system.repo.outboxIds, n);
      RehearsalIs(cfg, Now(), pid, cmd, cs, system.repo.requestIds, mids, eids, fate);
      system.world.TookPersist(pid, cs, system.repo.requestIds, mids, eids, fate);
    }

    // The loop of persistSend: one message and one outbox event for every payable candidate.
    method InsertRows(tx: Repository.Tx, payable: seq<Message>, requestId: int)
      returns (ok: bool, lines: seq<MessageResult>, ghost mids: seq<int>, ghost eids: seq<int>)
      modifies tx, system.repo`messageIds, system.repo`outboxIds
      ensures system.repo.messageIds >= old(system.repo.messageIds)
      ensures system.repo.outboxIds >= old(system.repo.outboxIds)
      ensures old(system.repo.Valid()) ==> system.repo.Valid()
      ensures ok ==> |mids| == |eids| == |payable|
      ensures system.reliable ==> ok
      ensures ok ==> IsRange(mids, old(system.repo.messageIds), system.repo.messageIds)
                     && IsRange(eids, old(system.repo.outboxIds), system.repo.outboxIds)
      ensures ok ==> var rows := MessageRows(payable, requestId, system.repo.now);
                     && lines == Lines(mids, rows)
                     && tx.db == old(tx.db).(messages := Sums.Insert(old(tx.db).messages, mids, rows),
                                             outbox := Sums.Insert(old(tx.db).outbox, eids, EventRows(cfg, mids, rows)))
    {
      hide MessageRows, EventRows, Lines, Sums.Insert, EventRow, EventPayload, KafkaTopic;
      NoRows(cfg, payable, requestId, system.repo.now, tx.db);
      lines, mids, eids := [], [], [];
      ghost var rows := MessageRows(payable[..0], requestId, system.repo.now);
      for i := 0 to |payable|
        invariant |mids| == |eids| == |rows| == i && rows == MessageRows(payable[..i], requestId, system.repo.now)
        invariant IsRange(mids, old(system.repo.messageIds), system.repo.messageIds)
        invariant IsRange(eids, old(system.repo.outboxIds), system.repo.outboxIds)
        invariant lines == Lines(mids, rows)
        invariant tx.db == old(tx.db).(messages := Sums.Insert(old(tx.db).messages, mids, rows),
                                       outbox := Sums.Insert(old(tx.db).outbox, eids, EventRows(cfg, mids, rows)))
      {
        var msg := payable[i].(requestId := requestId, status := MessageQueued);
        var broken := system.Broken();
        var id := system.repo.CreateMessage(tx, msg, broken);
        if id.Err? { return false, lines, mids, eids; }
        lines := lines + [ToMessageResult(id.value, msg)];
        var event := OutboxEvent(id.value, KafkaTopic(cfg, msg.mode), msg.recipient,
                                 EventPayload(id.value, ContentOf(msg)), OutboxPending, 0, None, None, None);
        EventIs(cfg, id.value, msg, event);
        broken := system.Broken();
        var eid := system.repo.CreateOutbox(tx, event, broken);
        if eid.Err? { return false, lines, mids, eids; }
        ghost var row := msg.(updatedAt := system.repo.now);
        OneMoreRow(cfg, payable, i, requestId, system.repo.now, mids, eids, id.value, eid.value, old(tx.db));
        mids, eids, rows := mids + [id.value], eids + [eid.value], rows + [row];
      }
      assert payable[..|payable|] == payable;
      ok := true;
    }

    // Commit, and the step of the whole transaction.
    method CommitSend(tx: Repository.Tx, cmd: SendRequest, result: SendResult, ghost pid: int, ghost cs: seq<Message>,
                      ghost requestId: int, ghost mids: seq<int>, ghost eids: seq<int>) returns (ok: bool)
      requires Valid() && Pc(Now(), pid, Persisting(cmd))
      requires Persisting.StoredBy(cfg, Now(), cmd, cs, requestId, mids, eids, tx.db, result)
      requires forall id :: id in tx.db.requests ==> id < system.repo.requestIds
      requires forall id :: id in tx.db.messages ==> id < system.repo.messageIds
      requires forall id :: id in tx.db.outbox ==> id < system.repo.outboxIds
      modifies system.repo, system.world
      ensures Valid()
      ensures Longer(old(system.world.states), old(system.world.steps), system.world.states, system.world.steps)
      ensures if ok then Pc(Now(), pid, Saving(cmd, result)) && Now().db == tx.db else Answered(Now(), pid, cmd, Broken)
      ensures system.reliable ==> ok
    {
      hide IsExecution, Redis.RedisStore.Mirrors, Provider.LogSender.Valid, SendTransaction, Plan.AreCandidates;
      var fate := system.WriteFate();
      ok := system.repo.Commit(tx, fate);
      system.world.TookPersist(pid, cs, requestId, mids, eids, fate);
    }

    // From the insert of the request to the commit.
    method Enqueue(tx: Repository.Tx, cmd: SendRequest, hash: Hash, planned: Plan.PlannedSend, ghost pid: int,
                   ghost cs: seq<Message>)
      returns (reply: Reply)
      requires Valid() && hash == PayloadHash(cmd) && Pc(Now(), pid, Persisting(cmd))
      requires Plan.AreCandidates(cfg, cmd, cs)
      requires cmd.userId in Now().db.users && !TooPoor(cfg, Now().db, cmd, cs)
      requires planned.View() == PlanFor(cfg, Now().db, cmd, cs)
      requires planned.totalCost == Plan.TotalCost(cfg, planned.View())
      requires tx.db == Debited(Now().db, cmd.userId, planned.totalCost)
      modifies tx, system.repo, system.redis, system.broker, system.sender, system.world
      ensures Valid()
      ensures Longer(old(system.world.states), old(system.world.steps), system.world.states, system.world.steps)
      ensures Replied(Now(), pid, cmd, reply)
      ensures system.reliable && system.alone && !HasRequest(old(Now()).db.requests, cmd.userId, cmd.key) ==>
                reply.Success? && Stores(cfg, old(Now()), cmd, Now().db, reply.result)
    {
      hide IsExecution, Redis.RedisStore.Mirrors, Provider.LogSender.Valid, Repository.Repo.Valid,
           Plan.AreCandidates, HasRequest, TooPoor, Debited, Unstored;
      ghost var s := Now();
      DebitKeepsTables(s.db, cmd.userId, planned.totalCost);
      CountersAhead(system.repo);
      var broken := system.Broken();
      var created := system.repo.CreateRequest(tx, Request(cmd.userId, cmd.key, hash, planned.totalCost, 0, 0, None),
                                               broken);
      if created.Err? {
        if created.error.ErrConflict? {
          Rehearse(cmd, cs, pid, Done);
          ConflictPolls(cfg, s, pid, cmd, cs);
          reply := WaitIdempotentFromDB(cmd, hash, pid);
          return;
        }
        Abort(cmd, cs, pid);
        return Broken;
      }
      reply := Fill(tx, cmd, planned, created.value, pid, cs);
    }

    // The rest, once the request is inserted.
    method Fill(tx: Repository.Tx, cmd: SendRequest, planned: Plan.PlannedSend, requestId: int, ghost pid: int,
                ghost cs: seq<Message>) returns (reply: Reply)
      requires Valid() && Pc(Now(), pid, Persisting(cmd)) && Plan.AreCandidates(cfg, cmd, cs)
      requires cmd.userId in Now().db.users && !TooPoor(cfg, Now().db, cmd, cs)
      requires !HasRequest(Now().db.requests, cmd.userId, cmd.key)
      requires planned.View() == PlanFor(cfg, Now().db, cmd, cs)
      requires planned.totalCost == Plan.TotalCost(cfg, planned.View())
      requires 0 < requestId < system.repo.requestIds && requestId !in Now().db.requests
      requires tx.db == WithRequest(Debited(Now().db, cmd.userId, planned.totalCost), requestId,
                                    Request(cmd.userId, cmd.key, PayloadHash(cmd), planned.totalCost, 0, 0, None))
      modifies tx, system.repo, system.world
      ensures Valid()
      ensures Longer(old(system.world.states), old(system.world.steps), system.world.states, system.world.steps)
      ensures Replied(Now(), pid, cmd, reply)
      ensures system.reliable ==> reply.Success? && Stores(cfg, old(Now()), cmd, Now().db, reply.result)
    {
      hide IsExecution, Redis.RedisStore.Mirrors, Provider.LogSender.Valid, Plan.AreCandidates, HasRequest, Sums.Insert,
           MessageRows, EventRows, Lines, IsRange, AddBalance, Repository.Repo.Valid, Sums.Fresh, TooPoor, Debited;
      ghost var s, messageIds, outboxIds := Now(), system.repo.messageIds, system.repo.outboxIds;
      DebitKeepsTables(s.db, cmd.userId, planned.totalCost);
      CountersAhead(system.repo);
      var ok, lines;
      ghost var mids, eids;
      ok, lines, mids, eids := InsertRows(tx, planned.payable, requestId);
      if !ok {
        Abort(cmd, cs, pid);
        return Broken;
      }
      NoRows(cfg, planned.payable, requestId, s.now, s.db);
      reply := Finalize(tx, cmd, planned, requestId, lines, pid, cs, mids, eids, messageIds, outboxIds);
    }

    // Its end: the stored answer, and the commit.
    method Finalize(tx: Repository.Tx, cmd: SendRequest, planned: Plan.PlannedSend, requestId: int,
                    lines: seq<MessageResult>, ghost pid: int, ghost cs: seq<Message>, ghost mids: seq<int>,
                    ghost eids: seq<int>, ghost messageIds: int, ghost outboxIds: int) returns (reply: Reply)
      requires Valid() && Pc(Now(), pid, Persisting(cmd)) && Plan.AreCandidates(cfg, cmd, cs)
      requires cmd.userId in Now().db.users && !TooPoor(cfg, Now().db, cmd, cs)
      requires !HasRequest(Now().db.requests, cmd.userId, cmd.key)
      requires planned.View() == PlanFor(cfg, Now().db, cmd, cs)
      requires planned.totalCost == Plan.TotalCost(cfg, planned.View())
      requires 0 < requestId < system.repo.requestIds && requestId !in Now().db.requests
      requires 0 < messageIds && 0 < outboxIds
      requires forall id :: id in Now().db.messages ==> id < messageIds
      requires forall id :: id in Now().db.outbox ==> id < outboxIds
      requires IsRange(mids, messageIds, system.repo.messageIds) && IsRange(eids, outboxIds, system.repo.outboxIds)
      requires |mids| == |eids| == |planned.payable|
      requires |MessageRows(planned.payable, requestId, system.repo.now)| == |mids|
      requires lines == Lines(mids, MessageRows(planned.payable, requestId, system.repo.now))
      requires var rows := MessageRows(planned.payable, requestId, system.repo.now);
               tx.db == WithRequest(Debited(Now().db, cmd.userId, planned.totalCost), requestId,
                                    Request(cmd.userId, cmd.key, PayloadHash(cmd), planned.totalCost, 0, 0, None))
                        .(messages := Sums.Insert(Now().db.messages, mids, rows),
                          outbox := Sums.Insert(Now().db.outbox, eids, EventRows(cfg, mids, rows)))
      modifies tx, system.repo, system.world
      ensures Valid()
      ensures Longer(old(system.world.states), old(system.world.steps), system.world.states, system.world.steps)
      ensures Replied(Now(), pid, cmd, reply)
      ensures system.reliable ==> reply.Success? && Stores(cfg, old(Now()), cmd, Now().db, reply.result)
    {
      hide IsExecution, Redis.RedisStore.Mirrors, Provider.LogSender.Valid, Plan.AreCandidates, HasRequest, Sums.Insert,
           MessageRows, EventRows, Lines, IsRange, AddBalance, Repository.Repo.Valid, Sums.Fresh, TooPoor, Debited;
      ghost var s := Now();
      DebitKeepsTables(s.db, cmd.userId, planned.totalCost);
      var result := SendResult(requestId, planned.totalCost, |lines|, planned.rejectedCount, planned.skippedCount,
                               lines, planned.skipped);
      var broken := system.Broken();
      var updated := system.repo.UpdateRequestResponse(tx, requestId, result.acceptedCount, result.rejectedCount,
                                                       planned.totalCost, result, broken);
      if updated.Err? {
        Abort(cmd, cs, pid);
        return Broken;
      }
      ghost var rows := MessageRows(planned.payable, requestId, s.now);
      NoRows(cfg, planned.payable, requestId, s.now, s.db);
      CountersAhead(system.repo);
      RangeIsFresh(s.db.messages, mids, rows, messageIds, system.repo.messageIds);
      RangeIsFresh(s.db.outbox, eids, EventRows(cfg, mids, rows), outboxIds, system.repo.outboxIds);
      assert tx.db.requests == s.db.requests[requestId := Request(cmd.userId, cmd.key, PayloadHash(cmd),
                                                                  planned.totalCost,
                                                                 |rows|, planned.rejectedCount, Some(result))];
      Assembled(cfg, s, cmd, cs, requestId, mids, eids, tx.db, result);
      var ok := CommitSend(tx, cmd, result, pid, cs, requestId, mids, eids);
      if !ok { return Broken; }
      return Success(result);
    }

    // One transaction: lock the balance, plan, debit, insert. It is atomic: no other process runs inside.
    method PersistSend(cmd: SendRequest, hash: Hash, ghost pid: int) returns (reply: Reply)
      requires Valid() && hash == PayloadHash(cmd) && Pc(Now(), pid, Persisting(cmd))
      modifies system.repo, system.redis, system.broker, system.sender, system.world
      ensures Valid()
      ensures Longer(old(system.world.states), old(system.world.steps), system.world.states, system.world.steps)
      ensures Replied(Now(), pid, cmd, reply)
      ensures system.reliable && system.alone && !HasRequest(old(Now()).db.requests, cmd.userId, cmd.key) ==>
                Persisted(cfg, old(Now()), Now(), cmd, reply)
    {
      hide IsExecution, Redis.RedisStore.Mirrors, Provider.LogSender.Valid, Repository.Repo.Valid, Plan.Wants,
           Plan.AreCandidates, HasRequest;
      var tx := system.repo.Begin();
      var broken := system.Broken();
      var balance := system.repo.GetBalanceForUpdate(tx, cmd.userId, broken);
      if balance.Err? {
        ghost var cs := Plan.SomeCandidates(cfg, cmd);
        if balance.error.ErrNotFound? {
          Rehearse(cmd, cs, pid, Done);
          return UserNotFound;
        }
        Abort(cmd, cs, pid);
        return Broken;
      }
      var planned;
      ghost var cs;
      planned, cs := Plan.PlanSend(cfg, cmd, balance.value);
      broken := system.Broken();
      var debit := system.repo.DebitBalance(tx, cmd.userId, planned.totalCost, broken);
      if debit.Err? {
        // The plan fits the balance, so the first of the two never happens.
        assert !debit.error.ErrInsufficientBalance?;
        Abort(cmd, cs, pid);
        return if debit.error.ErrInsufficientBalance? then InsufficientFunds else Broken;
      }
      reply := Enqueue(tx, cmd, hash, planned, pid, cs);
    }

    /** One call of the API. Under any interference its answer is recorded and means what it says; with
        nobody else around it is the stored answer, a conflict, or exactly one new request. */
    method Send(cmd: SendRequest) returns (reply: Reply, ghost pid: int)
      requires Valid()
      modifies system.repo, system.redis, system.broker, system.sender, system.world
      ensures Valid()
      ensures Longer(old(system.world.states), old(system.world.steps), system.world.states, system.world.steps)
      ensures Answered(Now(), pid, cmd, reply)
      ensures AnswerOk(Now().db.requests, Now().db.users.Keys, Answer(cmd, reply))
      ensures system.reliable && system.alone ==> Undisturbed(cfg, old(Now()), Now(), cmd, reply)
    {
      hide IsExecution, Truthful, Persisted, Answered, AnswerOk, Undisturbed;
      ghost var s := Now();
      pid := Start(cmd);
      ghost var before := Now();
      var cached := LookInCache(cmd, pid);
      if cached.Some? {
        AnswerMeans(system.world, pid, cmd, Success(cached.value));
        if system.alone { KnownAnswer(cfg, s, Now(), Now(), cmd, Found(cached.value, PayloadHash(cmd))); }
        return Success(cached.value), pid;
      }
      Yield(pid);
      before := Now();
      var hash := PayloadHash(cmd);
      var loaded := LoadIdempotentFromDB(cmd, hash, pid, LookingUp(cmd), false);
      if loaded.Absent? {
        ghost var after := Now();
        reply := Store(cmd, hash, pid);
        if system.reliable && system.alone { NewAnswer(cfg, s, before, after, Now(), cmd, reply); }
      } else {
        reply := match loaded
          case Found(result, _) => Success(result)
          case Clashing => Conflict
          case _ => Broken;
        if system.reliable && system.alone { KnownAnswer(cfg, s, before, Now(), cmd, loaded); }
      }
      AnswerMeans(system.world, pid, cmd, reply);
    }

    method Start(cmd: SendRequest) returns (ghost pid: int)
      requires Valid()
      modifies system.repo, system.redis, system.broker, system.sender, system.world
      ensures Valid()
      ensures Longer(old(system.world.states), old(system.world.steps), system.world.states, system.world.steps)
      ensures Pc(Now(), pid, Resolving(cmd)) && (system.alone ==> SameTables(old(Now()), Now()))
    {
      hide IsExecution;
      pid := Sums.FreshId(Now().sends);
      system.world.TookStartSend(pid, cmd);
      Yield(pid);
    }

    // Send after a miss: persist, and save the new answer.
    method Store(cmd: SendRequest, hash: Hash, ghost pid: int) returns (reply: Reply)
      requires Valid() && hash == PayloadHash(cmd) && Pc(Now(), pid, Persisting(cmd))
      modifies system.repo, system.redis, system.broker, system.sender, system.world
      ensures Valid()
      ensures Longer(old(system.world.states), old(system.world.steps), system.world.states, system.world.steps)
      ensures Answered(Now(), pid, cmd, reply)
      ensures system.reliable && system.alone && Truthful(old(Now()), cmd, Absent) ==>
                Persisted(cfg, old(Now()), Now(), cmd, reply)
    {
      hide IsExecution, Load, HasRequest, Stores;
      ghost var s := Now();
      FreeKey(system.world, cmd);
      Yield(pid);
      reply := PersistSend(cmd, hash, pid);
      if reply.Success? {
        Yield(pid);
        Save(cmd, hash, reply.result, pid, true);
      }
    }
  }

  lemma SamePersisted(cfg: Config, a: State, a': State, b: State, cmd: SendRequest, reply: Reply)
    requires SameTables(a, a') && Persisted(cfg, a', b, cmd, reply)
    ensures Persisted(cfg, a, b, cmd, reply)
  {
    if reply.Success? {
      var cs, requestId, mids, eids :| Persisting.StoredBy(cfg, a', cmd, cs, requestId, mids, eids, b.db, reply.result);
      assert Persisting.StoredBy(cfg, a, cmd, cs, requestId, mids, eids, b.db, reply.result);
    }
  }

  // The three verdicts of the lookup, in a state with the same tables as at the start of the call.
  lemma KnownAnswer(cfg: Config, a: State, a': State, b: State, cmd: SendRequest, loaded: Loaded)
    requires SameTables(a, a') && SameTables(a', b) && Truthful(a', cmd, loaded)
    ensures loaded.Found? ==> Undisturbed(cfg, a, b, cmd, Success(loaded.result))
    ensures loaded.Clashing? ==> Undisturbed(cfg, a, b, cmd, Conflict)
  {
    hide Load;
  }

  lemma NewAnswer(cfg: Config, a: State, a': State, a'': State, b: State, cmd: SendRequest, reply: Reply)
    requires SameTables(a, a') && SameTables(a', a'') && Truthful(a', cmd, Absent)
    requires Truthful(a'', cmd, Absent) ==> Persisted(cfg, a'', b, cmd, reply)
    ensures Undisturbed(cfg, a, b, cmd, reply)
  {
    hide Load, Persisted;
    assert Truthful(a'', cmd, Absent);
    SamePersisted(cfg, a, a'', b, cmd, reply);
  }

  lemma FreeKey(world: World, cmd: SendRequest)
    requires world.Valid()
    ensures Truthful(world.Now(), cmd, Absent) <==> !HasRequest(world.Now().db.requests, cmd.userId, cmd.key)
  {
    hide IsExecution, Inv;
    world.Holds();
    Preservation.StoredComplete(world.cfg, world.Now());
    Preservation.LoadMeaning(world.cfg, world.Now().db.requests, cmd.userId, cmd.key, PayloadHash(cmd));
  }

  lemma AnswerMeans(world: World, pid: int, cmd: SendRequest, reply: Reply)
    requires world.Valid() && Answered(world.Now(), pid, cmd, reply)
    ensures AnswerOk(world.Now().db.requests, world.Now().db.users.Keys, Answer(cmd, reply))
  {
    hide IsExecution, RowsOk, MoneyOk, RefundsOk, LogOk, OutboxOk, DeliveryStateOk, ProviderOk, AnswerOk;
    world.Holds();
  }

  // What a call answers when nobody interferes and nothing fails.
  ghost predicate Undisturbed(cfg: Config, a: State, b: State, cmd: SendRequest, reply: Reply) {
    match Load(a.db.requests, cmd.userId, cmd.key, PayloadHash(cmd))
    case Hit(result) => reply == Success(result) && b.db == a.db
    case Mismatch => reply == Conflict && b.db == a.db
    case Miss => Persisted(cfg, a, b, cmd, reply)
  }

  // What an undisturbed transaction on a free key answers.
  ghost predicate Persisted(cfg: Config, a: State, b: State, cmd: SendRequest, reply: Reply) {
    if cmd.userId !in a.db.users then reply.UserNotFound? && b.db == a.db
    else reply.Success? && Stores(cfg, a, cmd, b.db, reply.result)
  }

  ghost function WithRequest(db: Db, id: int, r: Request): Db {
    db.(requests := db.requests[id := r])
  }

  lemma DebitKeepsTables(db: Db, user: int, total: int)
    ensures Debited(db, user, total) == db.(users := Debited(db, user, total).users)
  {
  }

  lemma ConflictPolls(cfg: Config, s: State, pid: int, cmd: SendRequest, cs: seq<Message>)
    requires cmd.userId in s.db.users && !TooPoor(cfg, s.db, cmd, cs)
    ensures Unstored(cfg, s, pid, cmd, cs, Done) == s.(sends := s.sends[pid := Polling(cmd, 0)])
  {
  }

  lemma CountersAhead(repo: Repository.Repo)
    requires repo.Valid()
    ensures 0 < repo.requestIds && 0 < repo.messageIds && 0 < repo.outboxIds
    ensures forall id :: id in repo.requests ==> id < repo.requestIds
    ensures forall id :: id in repo.messages ==> id < repo.messageIds
    ensures forall id :: id in repo.outbox ==> id < repo.outboxIds
  {
  }

  // Serial numbers are new, and stay below the counter.
  lemma RangeIsFresh<T>(m: map<int, T>, ids: seq<int>, rows: seq<T>, a: int, b: int)
    requires |ids| == |rows| && IsRange(ids, a, b) && 0 < a && forall id :: id in m ==> id < a
    ensures Sums.Fresh(m, ids) && forall id :: id in Sums.Insert(m, ids, rows) ==> id < b
  {
    Sums.InsertFacts(m, ids, rows);
  }

  ghost predicate StoresNothing(cfg: Config, db: Db, cmd: SendRequest, cs: seq<Message>) {
    cmd.userId in db.users ==>
      TooPoor(cfg, db, cmd, cs) || HasRequest(db.requests, cmd.userId, cmd.key)
  }

  ghost predicate TooPoor(cfg: Config, db: Db, cmd: SendRequest, cs: seq<Message>)
    requires cmd.userId in db.users
  {
    var total := Plan.TotalCost(cfg, PlanFor(cfg, db, cmd, cs));
    0 < total && db.users[cmd.userId] < total
  }

  // Where such a transaction leaves the call.
  ghost function Unstored(cfg: Config, s: State, pid: int, cmd: SendRequest, cs: seq<Message>, fate: Fate): State {
    if fate.Aborted? then Finish(s, pid, cmd, Broken)
    else if cmd.userId !in s.db.users then Finish(s, pid, cmd, UserNotFound)
    else if TooPoor(cfg, s.db, cmd, cs) then Finish(s, pid, cmd, InsufficientFunds)
    else s.(sends := s.sends[pid := Polling(cmd, 0)])
  }

  lemma RehearsalIs(cfg: Config, s: State, pid: int, cmd: SendRequest, cs: seq<Message>, requestId: int, mids: seq<int>,
                    eids: seq<int>, fate: Fate)
    requires CanPersist(cfg, s, pid, cs, requestId, mids, eids) && s.sends[pid].cmd == cmd
    requires fate.Aborted? || StoresNothing(cfg, s.db, cmd, cs)
    ensures DoPersist(cfg, s, pid, cs, requestId, mids, eids, fate) == Unstored(cfg, s, pid, cmd, cs, fate)
  {
    hide Plan.AreCandidates, HasRequest;
  }

  ghost function Debited(db: Db, user: int, total: int): Db {
    if 0 < total then db.(users := AddBalance(db.users, user, -total)) else db
  }

  // Some run of the transaction stores this.
  ghost predicate Stores(cfg: Config, s: State, cmd: SendRequest, db: Db, result: SendResult) {
    exists cs, requestId, mids, eids :: Persisting.StoredBy(cfg, s, cmd, cs, requestId, mids, eids, db, result)
  }

  // The pieces the statements left in the transaction are what it stores.
  lemma Assembled(cfg: Config, s: State, cmd: SendRequest, cs: seq<Message>, requestId: int, mids: seq<int>,
                  eids: seq<int>,
                  db: Db, result: SendResult)
    requires cmd.userId in s.db.users && !TooPoor(cfg, s.db, cmd, cs) && Plan.AreCandidates(cfg, cmd, cs)
    requires !HasRequest(s.db.requests, cmd.userId, cmd.key)
    requires 0 < requestId && requestId !in s.db.requests
    requires Sums.Fresh(s.db.messages, mids) && Sums.Fresh(s.db.outbox, eids)
    requires |mids| == |eids| == |PlanFor(cfg, s.db, cmd, cs).payable|
    requires var plan := PlanFor(cfg, s.db, cmd, cs);
             var total := Plan.TotalCost(cfg, plan);
             var rows := MessageRows(plan.payable, requestId, s.now);
             && result == ResultOf(cfg, plan, requestId, Lines(mids, rows))
             && db == Db(Debited(s.db, cmd.userId, total).users,
                         s.db.requests[requestId := Request(cmd.userId, cmd.key, PayloadHash(cmd), total, |rows|,
                                                            plan.rejectedCount, Some(result))],
                         Sums.Insert(s.db.messages, mids, rows),
                         Sums.Insert(s.db.outbox, eids, EventRows(cfg, mids, rows)))
    ensures Persisting.StoredBy(cfg, s, cmd, cs, requestId, mids, eids, db, result)
  {
    hide Plan.AreCandidates, HasRequest, Sums.Insert, EventRows, Lines, Sums.Fresh, AddBalance;
  }

  function Range(start: int, n: nat): (ids: seq<int>)
    ensures |ids| == n && IsRange(ids, start, start + n)
  {
    seq(n, i => start + i)
  }

  ghost predicate IsRange(ids: seq<int>, a: int, b: int) {
    b == a + |ids| && forall i :: 0 <= i < |ids| ==> ids[i] == a + i
  }

  lemma NoRows(cfg: Config, payable: seq<Message>, requestId: int, now: int, db: Db)
    ensures |MessageRows(payable, requestId, now)| == |payable|
    ensures MessageRows(payable[..0], requestId, now) == [] && Lines([], []) == []
    ensures Sums.Insert(db.messages, [], []) == db.messages
    ensures Sums.Insert(db.outbox, [], EventRows(cfg, [], [])) == db.outbox
    ensures forall ids, rows :: |ids| == |rows| ==> |EventRows(cfg, ids, rows)| == |ids|
    ensures forall ids, rows :: |ids| == |rows| ==> |Lines(ids, rows)| == |ids|
  {
  }

  lemma EventIs(cfg: Config, id: int, m: Message, e: OutboxEvent)
    requires e == OutboxEvent(id, KafkaTopic(cfg, m.mode), m.recipient, EventPayload(id, ContentOf(m)),
                              OutboxPending, 0, None, None, None)
    ensures forall now :: e == EventRow(cfg, id, ContentOf(m.(updatedAt := now)))
  {
  }

  lemma OneMoreRow(cfg: Config, payable: seq<Message>, i: nat, requestId: int, now: int, mids: seq<int>, eids: seq<int>,
                   mid: int, eid: int, db: Db)
    requires i < |payable| && |mids| == |eids| == i
    ensures var rows := MessageRows(payable[..i], requestId, now);
            var row := payable[i].(requestId := requestId, status := MessageQueued, updatedAt := now);
            var mids', eids' := mids + [mid], eids + [eid];
            && MessageRows(payable[..i + 1], requestId, now) == rows + [row]
            && Lines(mids', rows + [row]) == Lines(mids, rows) + [ToMessageResult(mid, row)]
            && Sums.Insert(db.messages, mids', rows + [row]) == Sums.Insert(db.messages, mids, rows)[mid := row]
            && Sums.Insert(db.outbox, eids', EventRows(cfg, mids', rows + [row]))
               == Sums.Insert(db.outbox, eids, EventRows(cfg, mids, rows))[eid := EventRow(cfg, mid, ContentOf(row))]
  {
    var rows := MessageRows(payable[..i], requestId, now);
    var row := payable[i].(requestId := requestId, status := MessageQueued, updatedAt := now);
    Sums.InsertSnoc(db.messages, mids, rows, mid, row);
    assert EventRows(cfg, mids + [mid], rows + [row])
        == EventRows(cfg, mids, rows) + [EventRow(cfg, mid, ContentOf(row))];
    Sums.InsertSnoc(db.outbox, eids, EventRows(cfg, mids, rows), eid, EventRow(cfg, mid, ContentOf(row)));
  }

  // A success still has to be saved, any other reply is final.
  ghost predicate Replied(s: State, pid: int, cmd: SendRequest, reply: Reply) {
    if reply.Success? then Pc(s, pid, Saving(cmd, reply.result)) else Answered(s, pid, cmd, reply)
  }
}
