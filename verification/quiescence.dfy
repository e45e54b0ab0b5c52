/** The pipeline comes to rest: from any reachable state, once nobody interferes and nothing fails, drain
    rounds and one pass over the unacknowledged records finish every message and every record. */
module Quiescence {
  import opened Domain
  import opened Tables
  import opened Protocol
  import opened Invariants
  import opened Runs
  import opened Shapes
  import opened Platform
  import opened Worlds
  import Consumer
  import Drain
  import Worker
  import Theorems
  import Persisting
  import Plan
  import Sums

  // ---- no lease lies in the future ----

  ghost predicate OutboxStamped(outbox: map<int, OutboxEvent>, now: int) {
    forall e :: e in outbox && outbox[e].status.OutboxPublishing? ==>
      outbox[e].lockedAt.Some? && outbox[e].lockedAt.value <= now
  }

  ghost predicate MessagesStamped(messages: map<int, Message>, now: int) {
    forall m :: m in messages && messages[m].status.MessageSending? ==> messages[m].updatedAt <= now
  }

  ghost predicate Stamped(s: State) {
    OutboxStamped(s.db.outbox, s.now) && MessagesStamped(s.db.messages, s.now)
  }

  lemma PersistStamped(cfg: Config, s: State, pid: int, cs: seq<Message>, requestId: int, mids: seq<int>,
                       eids: seq<int>, fate: Fate)
    requires CanPersist(cfg, s, pid, cs, requestId, mids, eids) && Stamped(s)
    ensures Stamped(DoPersist(cfg, s, pid, cs, requestId, mids, eids, fate))
  {
    hide Stamped, Plan.AreCandidates, Plan.Sendable, Plan.Split;
    var cmd, t := s.sends[pid].cmd, DoPersist(cfg, s, pid, cs, requestId, mids, eids, fate);
    match SendTransaction(cfg, s.db, cmd, cs, requestId, mids, eids, s.now)
    case Stored(db, result) =>
      StoredStamped(cfg, s, cmd, cs, requestId, mids, eids, db, result);
      SameStamps(if fate.Aborted? then s else s.(db := db), t);
    case _ => SameStamps(s, t);
  }

  lemma StoredStamped(cfg: Config, s: State, cmd: SendRequest, cs: seq<Message>, requestId: int, mids: seq<int>,
                      eids: seq<int>, db: Db, result: SendResult)
    requires Persisting.StoredBy(cfg, s, cmd, cs, requestId, mids, eids, db, result) && Stamped(s)
    ensures Stamped(s.(db := db))
  {
    var rows := Persisting.StoredShape(cfg, s, cmd, cs, requestId, mids, eids, db, result);
    hide SendTransaction, HasRequest;
    Sums.InsertFacts(s.db.messages, mids, rows);
    Sums.InsertFacts(s.db.outbox, eids, EventRows(cfg, mids, rows));
    forall e | e in db.outbox && e !in s.db.outbox ensures db.outbox[e].status.OutboxPending? {
      var i :| 0 <= i < |eids| && eids[i] == e;
    }
    forall m | m in db.messages && m !in s.db.messages ensures db.messages[m].status.MessageQueued? {
      var i :| 0 <= i < |mids| && mids[i] == m;
    }
  }

  lemma SameStamps(a: State, b: State)
    requires Stamped(a) && b.db.outbox == a.db.outbox && b.db.messages == a.db.messages && a.now <= b.now
    ensures Stamped(b)
  {
  }

  lemma MarkStamped(s: State, did: int, row: Message, fate: Fate)
    requires Stamped(s) && AtPhase(s, did) && Terminal(row)
    ensures Stamped(DoMark(s, did, s.db.messages[EventOf(s, did).messageId := row], fate))
  {
  }

  lemma TryClaimStamped(s: State, did: int, fate: Fate)
    requires Stamped(s) && AtPhase(s, did)
    ensures Stamped(DoTryClaim(s, did, fate))
  {
  }

  lemma DeliveryStamped(cfg: Config, s: State, step: Step)
    requires Enabled(cfg, s, step) && IsMark(step) && Stamped(s) && EventOfKnown(s)
    ensures Stamped(Apply(cfg, s, step))
  {
    hide Stamped;
    match step
    case TryClaim(did, fate) => TryClaimStamped(s, did, fate);
    case MarkSent(did, fate) =>
      var row := s.db.messages[EventOf(s, did).messageId];
      MarkStamped(s, did, row.(status := MessageSent, errorCode := None, updatedAt := s.now), fate);
    case MarkFailed(did, fate) =>
      var row := s.db.messages[EventOf(s, did).messageId];
      MarkStamped(s, did, row.(status := MessageFailed, errorCode := Some(ProviderError), updatedAt := s.now), fate);
  }

  ghost predicate EventOfKnown(s: State) {
    forall d :: AtPhase(s, d) ==> EventOf(s, d).messageId in s.db.messages
  }

  lemma WorkerStamped(cfg: Config, s: State, step: Step)
    requires Enabled(cfg, s, step) && IsClaim(step) && Stamped(s)
    ensures Stamped(Apply(cfg, s, step))
  {
    hide ClaimsOf;
  }

  lemma FinalizeStamped(s: State, c: Claim, err: string, fate: Fate)
    requires Stamped(s) && c.event in s.db.outbox
    ensures Stamped(DoFinalize(s, c, err, fate))
  {
  }

  lemma OtherStamped(cfg: Config, s: State, step: Step)
    requires Enabled(cfg, s, step) && Stamped(s) && (IsCall(step) || IsRecord(step) || step.TopUp? || step.Tick?)
    ensures Stamped(Apply(cfg, s, step))
  {
    hide Enabled, Apply, Stamped;
    StepShape(cfg, s, step);
    SameStamps(s, Apply(cfg, s, step));
  }

  lemma StepStamped(cfg: Config, s: State, step: Step)
    requires Inv(cfg, s) && Enabled(cfg, s, step) && Stamped(s)
    ensures Stamped(Apply(cfg, s, step))
  {
    hide Stamped, Inv;
    if IsMark(step) {
      KnownEvents(cfg, s);
      DeliveryStamped(cfg, s, step);
    } else if IsClaim(step) {
      WorkerStamped(cfg, s, step);
    } else if step.Finalize? {
      FinalizeStamped(s, step.claim, step.err, step.fate);
    } else if step.Persist? {
      PersistStamped(cfg, s, step.pid, step.cs, step.requestId, step.mids, step.eids, step.fate);
    } else {
      OtherStamped(cfg, s, step);
    }
  }

  lemma KnownEvents(cfg: Config, s: State)
    requires Inv(cfg, s)
    ensures EventOfKnown(s)
  {
    hide RowsOk, MoneyOk, RefundsOk, LogOk, OutboxOk, ProviderOk, ApiOk;
    forall d | AtPhase(s, d) ensures EventOf(s, d).messageId in s.db.messages {
      assert DeliveryOk(s.deliveries[d], s.log, s.db.messages, s.seen);
    }
  }

  /** No lease was ever taken in the future, and a publishing event is always leased. */
  lemma {:induction false} RunStamped(cfg: Config, ss: seq<State>, steps: seq<Step>, i: nat)
    requires IsExecution(cfg, ss, steps) && i < |ss|
    ensures Stamped(ss[i])
  {
    hide Stamped, Inv, Init, Enabled, Apply;
    if i == 0 {
      InitStamped(ss[0]);
    } else {
      RunStamped(cfg, ss, steps, i - 1);
      ExecutionKeeps(cfg, ss, steps, i - 1);
      StepStamped(cfg, ss[i - 1], steps[i - 1]);
    }
  }

  lemma InitStamped(s: State)
    requires Init(s)
    ensures Stamped(s)
  {
  }

  lemma StampedNow(world: World)
    requires world.Valid()
    ensures Stamped(world.Now())
  {
    hide Stamped, Init, Enabled, Apply;
    RunStamped(world.cfg, world.states, world.steps, |world.steps|);
  }

  // ---- coming to rest ----

  ghost predicate AllClosed(outbox: map<int, OutboxEvent>) {
    forall e :: e in outbox ==> !Open(outbox[e])
  }

  // Nobody is in the way of a claim on any message.
  ghost predicate AllFree(s: State) {
    forall m :: m in s.db.messages ==> Consumer.Free(s, m)
  }

  // After a minute every open event can be claimed.
  lemma OpenIsClaimable(a: State, b: State)
    requires Stamped(a) && b.db == a.db && a.now + OUTBOX_CLAIM_STALE_AFTER < b.now
    ensures forall e :: e in b.db.outbox && Open(b.db.outbox[e]) ==> Claimable(b.db.outbox[e], b.now)
  {
  }

  // After two minutes every message is finished or can be claimed.
  lemma AllAreFree(cfg: Config, a: State, b: State)
    requires Inv(cfg, a) && Stamped(a) && b.db == a.db && a.now + SENDING_STALE_AFTER < b.now
    ensures AllFree(b)
  {
    hide RowsOk, MoneyOk, LogOk, OutboxOk, DeliveryStateOk, ProviderOk, ApiOk;
  }

  // What is closed or was claimable at the start is closed in the end.
  lemma DrainedIsClosed(world: World, states: seq<State>, steps: seq<Step>)
    requires world.Valid() && IsExecution(world.cfg, states, steps) && Longer(states, steps, world.states, world.steps)
    requires world.Now().db.outbox.Keys == states[|steps|].db.outbox.Keys
    requires forall e :: e in states[|steps|].db.outbox && Open(states[|steps|].db.outbox[e]) ==>
               e in world.Now().db.outbox && !Open(world.Now().db.outbox[e])
    ensures AllClosed(world.Now().db.outbox)
  {
    hide Enabled, Apply, Init;
    RunProgress(world.cfg, world.states, world.steps, |steps|, |world.steps|);
  }

  // Handling one record leaves the others to be claimed.
  lemma StillFree(a: State, b: State, o: nat)
    requires AllFree(a) && o < |a.log| && Consumer.OnlyRow(a, b, a.log[o].value.messageId) && Consumer.Processed(b, o)
    ensures AllFree(b)
  {
  }

  lemma StillAcked(world: World, states: seq<State>, steps: seq<Step>)
    requires world.Valid() && IsExecution(world.cfg, states, steps) && Longer(states, steps, world.states, world.steps)
    ensures states[|steps|].acked <= world.Now().acked
  {
    hide Enabled, Apply, Init;
    RunProgress(world.cfg, world.states, world.steps, |steps|, |world.steps|);
  }

  ghost predicate AckedUpTo(s: State, n: nat) {
    forall o :: 0 <= o < n ==> o in s.acked
  }

  // The pass of a consumer over all records of the log.
  method ConsumeAll(p: Consumer.MessageProcessor)
    requires p.Valid() && p.system.reliable && p.system.alone && p.system.patient
    requires AllFree(p.Now())
    modifies p.system.repo, p.system.redis, p.system.broker, p.system.sender, p.system.world
    ensures p.Valid()
    ensures Longer(old(p.system.world.states), old(p.system.world.steps), p.system.world.states, p.system.world.steps)
    ensures p.Now().log == old(p.Now()).log && AckedUpTo(p.Now(), |p.Now().log|)
    ensures p.Now().db.outbox == old(p.Now()).db.outbox
  {
    hide IsExecution, AllFree, Consumer.OnlyRow, Consumer.Free, Consumer.Processed;
    var n := |p.system.broker.log|;
    ghost var s := p.Now();
    for o := 0 to n
      invariant p.Valid() && p.Now().log == s.log && p.Now().db.outbox == s.db.outbox
      invariant Longer(old(p.system.world.states), old(p.system.world.steps), p.system.world.states,
                       p.system.world.steps)
      invariant AllFree(p.Now()) && AckedUpTo(p.Now(), o)
    {
      if o !in p.system.broker.acked {
        ghost var before, states, steps := p.Now(), p.system.world.states, p.system.world.steps;
        RecordIsFree(p.system.world, o);
        var ok, committed := p.HandleFetched(o);
        SameLog(before, p.Now(), before.log[o].value.messageId);
        StillFree(before, p.Now(), o);
        StillAcked(p.system.world, states, steps);
      }
    }
  }

  lemma SameLog(a: State, b: State, id: int)
    requires Consumer.OnlyRow(a, b, id)
    ensures b.log == a.log && b.db.outbox == a.db.outbox
  {
  }

  lemma RecordIsFree(world: World, o: nat)
    requires world.Valid() && o < |world.Now().log| && AllFree(world.Now())
    ensures Consumer.Free(world.Now(), world.Now().log[o].value.messageId)
  {
    hide IsExecution, MoneyOk, RefundsOk, OutboxOk, DeliveryStateOk, ProviderOk, ApiOk, Consumer.Free;
    world.Holds();
  }

  /** From any reachable state, with reliable stores, patient contexts and nobody else at work, whatever Publish
      and the provider answer: an outbox worker and one consumer, started after the leases ran out, bring every
      event to published or failed, every message to sent or failed, and every record to acknowledged. */
  method Settle(w: Worker.OutboxWorker, p: Consumer.MessageProcessor) returns (rounds: nat)
    requires w.Valid() && p.system == w.system && w.system.reliable && w.system.alone && w.system.patient
    modifies w.system.repo, w.system.redis, w.system.broker, w.system.sender, w.system.world
    ensures w.Valid()
    ensures Longer(old(w.system.world.states), old(w.system.world.steps), w.system.world.states, w.system.world.steps)
    ensures rounds <= Drain.Bound(w.maxAttempts, old(w.Now()).db.outbox,
                                  old(w.Now()).now + 60001)
    ensures forall e :: e in w.Now().db.outbox ==>
              w.Now().db.outbox[e].status == OutboxPublished || w.Now().db.outbox[e].status == OutboxFailed
    ensures forall o :: 0 <= o < |w.Now().log| ==> o in w.Now().acked
    ensures forall m :: m in old(w.Now()).db.messages ==> m in w.Now().db.messages
    ensures forall m :: m in w.Now().db.messages ==>
              w.Now().db.messages[m].status == MessageSent || w.Now().db.messages[m].status == MessageFailed
  {
    hide IsExecution, Inv, Stamped, AllClosed, AckedUpTo, AllFree, Drain.Bound, Terminal;
    ghost var world := w.system.world;
    ghost var s := w.Now();
    StampedNow(world);
    w.system.Sleep(OUTBOX_CLAIM_STALE_AFTER + 1);
    OpenIsClaimable(s, w.Now());
    ghost var states, steps := world.states, world.steps;
    rounds := Drain.Run(w, w.system.repo.now, 0);
    DrainedIsClosed(world, states, steps);
    ghost var t := w.Now();
    StampedNow(world);
    world.Holds();
    w.system.Sleep(SENDING_STALE_AFTER + 1);
    AllAreFree(world.cfg, t, w.Now());
    ConsumeAll(p);
    EverythingFinished(world);
    InPlainWords(w.Now());
    MessagesKept(world, old(world.states), old(world.steps));
  }

  lemma MessagesKept(world: World, states: seq<State>, steps: seq<Step>)
    requires world.Valid() && IsExecution(world.cfg, states, steps) && Longer(states, steps, world.states, world.steps)
    ensures forall m :: m in states[|steps|].db.messages ==> m in world.Now().db.messages
  {
    hide Enabled, Apply, Init;
    RunProgress(world.cfg, world.states, world.steps, |steps|, |world.steps|);
  }

  lemma InPlainWords(s: State)
    ensures AllClosed(s.db.outbox) ==> forall e :: e in s.db.outbox ==>
              s.db.outbox[e].status == OutboxPublished || s.db.outbox[e].status == OutboxFailed
    ensures AckedUpTo(s, |s.log|) ==> forall o :: 0 <= o < |s.log| ==> o in s.acked
  {
  }

  // With all events closed and all records acknowledged nothing is left to do.
  lemma EverythingFinished(world: World)
    requires world.Valid() && AllClosed(world.Now().db.outbox) && AckedUpTo(world.Now(), |world.Now().log|)
    ensures forall m :: m in world.Now().db.messages ==>
              world.Now().db.messages[m].status == MessageSent || world.Now().db.messages[m].status == MessageFailed
  {
    hide Init, Enabled, Apply;
    var s := world.Now();
    forall m | m in s.db.messages
      ensures s.db.messages[m].status == MessageSent || s.db.messages[m].status == MessageFailed
    {
      if s.db.messages[m].status != MessageSent && s.db.messages[m].status != MessageFailed {
        Theorems.NotForgotten(world.cfg, world.states, world.steps, |world.steps|, m);
      }
    }
  }
}
