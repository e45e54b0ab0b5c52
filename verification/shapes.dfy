/** What each kind of step may change, and that it changes nothing else. */
module Shapes {
  import opened Domain
  import opened Tables
  import opened Protocol
  import Plan
  import Provider

  // API calls and evictions.
  predicate IsCall(step: Step) {
    || step.StartSend? || step.ReadCache? || step.ReadDb? || step.Poll? || step.SaveCache? || step.CrashSend?
    || step.Evict?
  }

  ghost predicate ByCalls(a: State, b: State) {
    && b == a.(sends := b.sends, cache := b.cache, hist := a.hist.(answers := b.hist.answers))
    && a.hist.answers <= b.hist.answers
  }

  // Deliveries, apart from their statements on messages.
  predicate IsRecord(step: Step) {
    step.Fetch? || step.Check? || step.CallProvider? || step.Wake? || step.Ack? || step.Drop?
  }

  ghost predicate ByRecords(a: State, b: State) {
    && b == a.(deliveries := b.deliveries, acked := b.acked, seen := b.seen, sms := b.sms)
    && a.acked <= b.acked && a.seen <= b.seen && a.sms <= b.sms
  }

  // Statements of a delivery on its message.
  predicate IsMark(step: Step) {
    step.TryClaim? || step.MarkSent? || step.MarkFailed?
  }

  ghost predicate ByMarks(a: State, b: State) {
    && b == a.(db := a.db.(messages := b.db.messages), deliveries := b.deliveries)
    && b.db.messages.Keys == a.db.messages.Keys
  }

  // The outbox worker, apart from the dead letter.
  predicate IsClaim(step: Step) {
    step.ClaimBatch? || step.Publish? || step.MarkPublished? || step.RecordFailure? || step.CrashClaim?
  }

  ghost predicate ByClaims(a: State, b: State) {
    && b == a.(db := a.db.(outbox := b.db.outbox), log := b.log, claims := b.claims,
               hist := a.hist.(publishes := b.hist.publishes))
    && a.log <= b.log && a.hist.publishes <= b.hist.publishes
  }

  ghost predicate ByFinalize(a: State, b: State) {
    && b == a.(db := b.db, claims := b.claims, hist := a.hist.(refunds := b.hist.refunds))
    && b.db.requests == a.db.requests && b.db.messages.Keys == a.db.messages.Keys && b.claims.Keys <= a.claims.Keys
  }

  ghost predicate ByPersist(a: State, b: State) {
    b == a.(db := b.db, sends := b.sends, hist := a.hist.(answers := b.hist.answers, demand := b.hist.demand))
  }

  ghost predicate ByTopUp(a: State, b: State) {
    b == a.(db := a.db.(users := b.db.users), hist := a.hist.(deposits := b.hist.deposits))
  }

  ghost predicate Shape(a: State, b: State, step: Step) {
    if IsCall(step) then ByCalls(a, b)
    else if IsRecord(step) then ByRecords(a, b) && (step.CallProvider? || (b.seen == a.seen && b.sms == a.sms))
    else if IsMark(step) then ByMarks(a, b)
    else if IsClaim(step) then ByClaims(a, b) && (step.ClaimBatch? || b.claims.Keys <= a.claims.Keys)
    else if step.Finalize? then ByFinalize(a, b)
    else if step.Persist? then ByPersist(a, b)
    else if step.TopUp? then ByTopUp(a, b)
    else b == a.(now := b.now) && a.now <= b.now
  }

  lemma ReadCacheShape(s: State, pid: int, broken: bool)
    requires pid in s.sends && s.sends[pid].Resolving?
    ensures ByCalls(s, DoReadCache(s, pid, broken))
  {
  }

  lemma ReadDbShape(s: State, pid: int, broken: bool)
    requires pid in s.sends && s.sends[pid].LookingUp?
    ensures ByCalls(s, DoReadDb(s, pid, broken))
  {
    hide Load;
  }

  lemma PollShape(s: State, pid: int, broken: bool)
    requires pid in s.sends && s.sends[pid].Polling?
    ensures ByCalls(s, DoPoll(s, pid, broken))
  {
    hide Load;
  }

  lemma LookupShape(cfg: Config, s: State, step: Step)
    requires Enabled(cfg, s, step) && (step.ReadCache? || step.ReadDb? || step.Poll?)
    ensures ByCalls(s, Apply(cfg, s, step))
  {
    hide ByCalls, Load;
    match step
    case ReadCache(pid, broken) => ReadCacheShape(s, pid, broken);
    case ReadDb(pid, broken) => ReadDbShape(s, pid, broken);
    case Poll(pid, broken) => PollShape(s, pid, broken);
  }

  lemma CallShape(cfg: Config, s: State, step: Step)
    requires Enabled(cfg, s, step) && (step.StartSend? || step.SaveCache? || step.CrashSend? || step.Evict?)
    ensures ByCalls(s, Apply(cfg, s, step))
  {
  }

  lemma ProviderShape(s: State, did: int, result: CallResult, reached: bool, delay: int)
    requires CanCallProvider(s, did, result, reached, delay)
    ensures ByRecords(s, DoCallProvider(s, did, result, reached, delay))
  {
    hide Provider.ProviderIdempotencyKey;
  }

  lemma RecordShape(cfg: Config, s: State, step: Step)
    requires Enabled(cfg, s, step) && IsRecord(step)
    ensures ByRecords(s, Apply(cfg, s, step))
    ensures step.CallProvider? || (Apply(cfg, s, step).seen == s.seen && Apply(cfg, s, step).sms == s.sms)
  {
    if step.CallProvider? {
      ProviderShape(s, step.did, step.result, step.reached, step.delay);
    } else {
      hide Classify;
    }
  }

  lemma DoMarkShape(s: State, did: int, messages: map<int, Message>, fate: Fate)
    requires did in s.deliveries && messages.Keys == s.db.messages.Keys
    ensures ByMarks(s, DoMark(s, did, messages, fate))
  {
  }

  lemma TryClaimShape(s: State, did: int, fate: Fate)
    requires AtPhase(s, did)
    ensures ByMarks(s, DoTryClaim(s, did, fate))
  {
  }

  lemma MarkShape(cfg: Config, s: State, step: Step)
    requires Enabled(cfg, s, step) && IsMark(step)
    ensures ByMarks(s, Apply(cfg, s, step))
  {
    match step
    case TryClaim(did, fate) => TryClaimShape(s, did, fate);
    case MarkSent(did, fate) =>
      DoMarkShape(s, did, Tables.MarkSent(s.db.messages, EventOf(s, did).messageId, s.now), fate);
    case MarkFailed(did, fate) =>
      DoMarkShape(s, did, Tables.MarkFailed(s.db.messages, EventOf(s, did).messageId, ProviderError, s.now), fate);
  }

  lemma ClaimShape(cfg: Config, s: State, step: Step)
    requires Enabled(cfg, s, step) && IsClaim(step)
    ensures ByClaims(s, Apply(cfg, s, step)) && (step.ClaimBatch? || Apply(cfg, s, step).claims.Keys <= s.claims.Keys)
  {
    hide ClaimRows, ClaimsOf, Tables.MarkPublished, Tables.RecordFailure;
  }

  lemma FinalizeShape(s: State, c: Claim, err: string, fate: Fate)
    requires c in s.claims && c.event in s.db.outbox
    ensures ByFinalize(s, DoFinalize(s, c, err, fate))
  {
  }

  lemma PersistShape(cfg: Config, s: State, pid: int, cs: seq<Message>, requestId: int, mids: seq<int>, eids: seq<int>,
                     fate: Fate)
    requires CanPersist(cfg, s, pid, cs, requestId, mids, eids)
    ensures ByPersist(s, DoPersist(cfg, s, pid, cs, requestId, mids, eids, fate))
  {
    hide SendTransaction, Plan.AreCandidates, Plan.Sendable;
  }

  /** Every step keeps to its kind. */
  lemma StepShape(cfg: Config, s: State, step: Step)
    requires Enabled(cfg, s, step)
    ensures Shape(s, Apply(cfg, s, step), step)
  {
    hide ByCalls, ByRecords, ByMarks, ByClaims, ByFinalize, ByPersist;
    if step.ReadCache? || step.ReadDb? || step.Poll? {
      LookupShape(cfg, s, step);
    } else if IsCall(step) {
      CallShape(cfg, s, step);
    } else if IsRecord(step) {
      RecordShape(cfg, s, step);
    } else if IsMark(step) {
      MarkShape(cfg, s, step);
    } else if IsClaim(step) {
      ClaimShape(cfg, s, step);
    } else if step.Finalize? {
      FinalizeShape(s, step.claim, step.err, step.fate);
    } else if step.Persist? {
      PersistShape(cfg, s, step.pid, step.cs, step.requestId, step.mids, step.eids, step.fate);
    }
  }
}
