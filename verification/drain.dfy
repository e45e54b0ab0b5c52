/** The outbox drains: whatever Publish answers, undisturbed rounds close every event that can be
    claimed, and the number of rounds is bounded in advance. */
module Drain {
  import opened Domain
  import opened Sums
  import opened Tables
  import opened Protocol
  import opened Platform
  import opened Worker
  import Repository
  import Worlds

  // Rounds that an open event can take up.
  function Weight(maxAttempts: int, e: OutboxEvent): int {
    if maxAttempts - e.attempts < 1 then 1 else maxAttempts - e.attempts
  }

  // The events that can be claimed until the horizon, with their weights.
  function Waiting(maxAttempts: int, outbox: map<int, OutboxEvent>, horizon: int): map<int, int> {
    map e | e in outbox && Claimable(outbox[e], horizon) :: Weight(maxAttempts, outbox[e])
  }

  ghost function Bound(maxAttempts: int, outbox: map<int, OutboxEvent>, horizon: int): int {
    Sum(Waiting(maxAttempts, outbox, horizon))
  }

  lemma {:induction false} SumDrops(a: map<int, int>, b: map<int, int>, ids: set<int>)
    requires b.Keys <= a.Keys && ids <= a.Keys
    requires forall k :: k in a ==> 1 <= a[k]
    requires forall k :: k in b ==> 0 <= b[k] <= a[k] - (if k in ids then 1 else 0)
    ensures 0 <= Sum(b) && Sum(b) + |ids| <= Sum(a)
    decreases |a|
  {
    if a.Keys == {} {
      assert a == map[] && b == map[] && ids == {};
    } else {
      var k := Pick(a.Keys);
      SumTakeOut(a, k);
      if k in b { SumTakeOut(b, k); } else { assert b - {k} == b; }
      SumDrops(a - {k}, b - {k}, ids - {k});
      if k in ids { assert ids == ids - {k} + {k}; } else { assert ids - {k} == ids; }
    }
  }

  /** A round takes at least one off the bound for every event it claims. */
  lemma RoundShrinks(maxAttempts: int, a: map<int, OutboxEvent>, ids: set<int>, b: map<int, OutboxEvent>, now: int,
                     horizon: int)
    requires RoundDone(maxAttempts, a, ids, b) && now <= horizon
    requires forall e :: e in ids ==> e in a && Claimable(a[e], now)
    ensures 0 <= Bound(maxAttempts, b, horizon)
    ensures Bound(maxAttempts, b, horizon) + |ids| <= Bound(maxAttempts, a, horizon)
  {
    var x, y := Waiting(maxAttempts, a, horizon), Waiting(maxAttempts, b, horizon);
    forall e | e in y.Keys ensures e in x.Keys {
      if e !in ids { assert b[e] == a[e]; }
    }
    forall e | e in ids ensures e in x.Keys {}
    SumDrops(x, y, ids);
  }

  // What rounds leave of an event: untouched so far, waiting for its next attempt, or closed.
  ghost predicate Draining(a: map<int, OutboxEvent>, b: map<int, OutboxEvent>) {
    && b.Keys == a.Keys
    && forall e :: e in a ==> b[e] == a[e] || b[e].status.OutboxPending? || !Open(b[e])
  }

  lemma RoundDrains(maxAttempts: int, o: map<int, OutboxEvent>, a: map<int, OutboxEvent>, ids: set<int>,
                    b: map<int, OutboxEvent>)
    requires Draining(o, a) && RoundDone(maxAttempts, a, ids, b)
    ensures Draining(o, b)
  {
  }

  lemma IdleMeansNothingClaimable(s: State, preferTopic: string, limit: Pos, ids: set<int>)
    requires IsFairBatch(s, preferTopic, limit, {}, ids) && |ids| == 0
    ensures forall e :: e in s.db.outbox ==> !Claimable(s.db.outbox[e], s.now)
  {
    var eligible := Repository.Eligible(s.db.outbox, s.now, OUTBOX_CLAIM_STALE_AFTER, {});
    assert eligible == {};
    assert forall e :: e in s.db.outbox && Claimable(s.db.outbox[e], s.now) ==> e in eligible;
  }

  lemma FairBatchClaims(s: State, preferTopic: string, limit: nat, locked: set<int>, ids: set<int>)
    requires IsFairBatch(s, preferTopic, limit, locked, ids)
    ensures forall e :: e in ids ==> e in s.db.outbox && Claimable(s.db.outbox[e], s.now)
  {
  }

  /** Run, until a round finds nothing to claim. No database failures, no other process, and no more
      time passes than up to the horizon; the answers of Publish are arbitrary. Every event that
      could be claimed at the start ends published or failed, after at most as many rounds as the
      weights of the claimable events add up to. */
  method Run(w: OutboxWorker, horizon: int, interval: nat) returns (rounds: nat)
    requires w.Valid() && w.system.reliable && w.system.alone && w.Now().now <= horizon
    modifies w.system.repo, w.system.redis, w.system.broker, w.system.sender, w.system.world
    ensures w.Valid() && old(w.Now()).now <= w.Now().now <= horizon
    ensures Longer(old(w.system.world.states), old(w.system.world.steps), w.system.world.states, w.system.world.steps)
    ensures rounds <= Bound(w.maxAttempts, old(w.Now()).db.outbox, horizon)
    ensures w.Now().db.outbox.Keys == old(w.Now()).db.outbox.Keys
    ensures forall e :: e in old(w.Now()).db.outbox && Claimable(old(w.Now()).db.outbox[e], old(w.Now()).now) ==>
              w.Now().db.outbox[e].status.OutboxPublished? || w.Now().db.outbox[e].status.OutboxFailed?
    ensures forall e :: e in w.Now().db.outbox ==> !Claimable(w.Now().db.outbox[e], w.Now().now)
  {
    hide IsExecution, Bound, RoundDone, Draining, NoCrash, Worlds.Ended, IsFairBatch, FirstChosen;
    ghost var start := w.Now();
    rounds := 0;
    var more := true;
    StartDraining(start.db.outbox);
    BoundIsNat(w.maxAttempts, start.db.outbox, horizon);
    while more
      invariant w.Valid() && start.now <= w.Now().now <= horizon
      invariant Longer(old(w.system.world.states), old(w.system.world.steps), w.system.world.states,
                       w.system.world.steps)
      invariant Draining(start.db.outbox, w.Now().db.outbox) && 0 <= Bound(w.maxAttempts, w.Now().db.outbox, horizon)
      invariant rounds + Bound(w.maxAttempts, w.Now().db.outbox, horizon)
             <= Bound(w.maxAttempts, start.db.outbox, horizon)
      invariant !more ==> NothingLeft(w.Now())
      decreases Bound(w.maxAttempts, w.Now().db.outbox, horizon), more
    {
      ghost var before := w.Now();
      var err, claimed;
      ghost var ids, mine;
      err, claimed, ids, mine := w.ProcessOnce();
      RoundFacts(w.maxAttempts, w.preferTopic, w.batchSize, start, before, ids, w.Now(), horizon);
      more := claimed != 0;
      if more {
        rounds := rounds + 1;
        var ms := if horizon - w.system.repo.now < interval then horizon - w.system.repo.now else interval;
        w.system.Sleep(ms);
      }
    }
    AllClosed(start, w.Now());
  }

  /** The bound in numbers: max(1, maxAttempts - attempts) rounds for every event that is pending, or publishing
      under a lease that is older than a minute at the horizon. */
  lemma BoundIs(maxAttempts: int, outbox: map<int, OutboxEvent>, horizon: int)
    ensures Bound(maxAttempts, outbox, horizon)
         == Sum(map e | e in outbox
                        && (outbox[e].status.OutboxPending?
                            || (outbox[e].status.OutboxPublishing? && outbox[e].lockedAt.Some?
                                && 60000 < horizon - outbox[e].lockedAt.value))
                    :: if maxAttempts - outbox[e].attempts < 1 then 1 else maxAttempts - outbox[e].attempts)
  {
    var x := map e | e in outbox
                     && (outbox[e].status.OutboxPending?
                         || (outbox[e].status.OutboxPublishing? && outbox[e].lockedAt.Some?
                             && 60000 < horizon - outbox[e].lockedAt.value))
                 :: if maxAttempts - outbox[e].attempts < 1 then 1 else maxAttempts - outbox[e].attempts;
    var y := Waiting(maxAttempts, outbox, horizon);
    assert forall e :: e in x <==> e in y;
    assert forall e :: e in x ==> x[e] == y[e];
    assert x == y;
  }

  ghost predicate NothingLeft(s: State) {
    forall e :: e in s.db.outbox ==> !Claimable(s.db.outbox[e], s.now)
  }

  lemma StartDraining(outbox: map<int, OutboxEvent>)
    ensures Draining(outbox, outbox)
  {
  }

  lemma BoundIsNat(maxAttempts: int, outbox: map<int, OutboxEvent>, horizon: int)
    ensures 0 <= Bound(maxAttempts, outbox, horizon)
  {
    SumDrops(Waiting(maxAttempts, outbox, horizon), Waiting(maxAttempts, outbox, horizon), {});
  }

  lemma RoundFacts(maxAttempts: int, preferTopic: string, limit: Pos, start: State, a: State, ids: set<int>, b: State,
                   horizon: int)
    requires IsFairBatch(a, preferTopic, limit, {}, ids)
    requires RoundDone(maxAttempts, a.db.outbox, ids, b.db.outbox) && b.now == a.now <= horizon
    requires Draining(start.db.outbox, a.db.outbox)
    ensures Draining(start.db.outbox, b.db.outbox) && 0 <= Bound(maxAttempts, b.db.outbox, horizon)
    ensures Bound(maxAttempts, b.db.outbox, horizon) + |ids| <= Bound(maxAttempts, a.db.outbox, horizon)
    ensures |ids| == 0 ==> NothingLeft(b)
  {
    FairBatchClaims(a, preferTopic, limit, {}, ids);
    RoundShrinks(maxAttempts, a.db.outbox, ids, b.db.outbox, a.now, horizon);
    RoundDrains(maxAttempts, start.db.outbox, a.db.outbox, ids, b.db.outbox);
    if |ids| == 0 {
      IdleMeansNothingClaimable(a, preferTopic, limit, ids);
      assert ids == {};
      assert forall e :: e in b.db.outbox ==> b.db.outbox[e] == a.db.outbox[e];
    }
  }

  lemma AllClosed(a: State, b: State)
    requires Draining(a.db.outbox, b.db.outbox) && NothingLeft(b) && a.now <= b.now
    ensures b.db.outbox.Keys == a.db.outbox.Keys
    ensures forall e :: e in a.db.outbox && Claimable(a.db.outbox[e], a.now) ==>
              b.db.outbox[e].status.OutboxPublished? || b.db.outbox[e].status.OutboxFailed?
  {
  }
}
