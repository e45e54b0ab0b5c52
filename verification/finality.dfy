/** Exactly when a refund is final: what can still follow it, as conditions that hold if and only if. */
module Finality {
  import opened Domain
  import opened Tables
  import opened Protocol
  import opened Invariants
  import opened Runs
  import opened Shapes
  import opened Refunds
  import Provider

  // ---- the dead letter ----

  // The delivery holds an unfinished claim on the message.
  ghost predicate Holds(s: State, d: int, m: int) {
    AtPhase(s, d) && Holding(s.deliveries[d].phase) && EventOf(s, d).messageId == m
  }

  // Its provider call succeeds.
  lemma CallSucceeds(cfg: Config, s: State, t: State, d: int, m: int) returns (u: State)
    requires Leads(cfg, s, t) && Holds(t, d, m) && t.deliveries[d].phase.Calling? && m in t.db.messages
    ensures Leads(cfg, s, u) && Holds(u, d, m) && u.deliveries[d].phase.Accepted? && m in u.db.messages
    ensures KeyOf(m) in u.seen && (KeyOf(m) !in t.seen ==> |t.sms| < |u.sms| && u.sms[|t.sms|].messageId == m)
  {
    hide Provider.ProviderIdempotencyKey;
    u := LeadsNext(cfg, s, t, CallProvider(d, Ok, true, 0));
  }

  lemma Wakes(cfg: Config, s: State, t: State, d: int, m: int) returns (u: State)
    requires Leads(cfg, s, t) && Holds(t, d, m) && t.deliveries[d].phase.Waiting? && m in t.db.messages
    ensures Leads(cfg, s, u) && Holds(u, d, m) && u.deliveries[d].phase.Calling? && m in u.db.messages
    ensures u.seen == t.seen && u.sms == t.sms
  {
    u := LeadsNext(cfg, s, t, Wake(d));
  }

  lemma MarksSent(cfg: Config, s: State, t: State, d: int, m: int) returns (u: State)
    requires Leads(cfg, s, t) && Holds(t, d, m) && t.deliveries[d].phase.Accepted? && m in t.db.messages
    ensures Leads(cfg, s, u) && !Exhausted(u, m)
  {
    u := LeadsNext(cfg, s, t, MarkSent(d, Done));
  }

  lemma MarksFailed(cfg: Config, s: State, t: State, d: int, m: int) returns (u: State)
    requires Leads(cfg, s, t) && Holds(t, d, m) && t.deliveries[d].phase.GaveUp? && m in t.db.messages
    ensures Leads(cfg, s, u) && !Exhausted(u, m)
  {
    u := LeadsNext(cfg, s, t, MarkFailed(d, Done));
  }

  // Whatever it is doing, a holder can go on to overwrite the row.
  lemma HolderOverwrites(cfg: Config, s: State, d: int, m: int) returns (t: State)
    requires Holds(s, d, m) && m in s.db.messages
    ensures Leads(cfg, s, t) && !Exhausted(t, m)
  {
    hide Leads, Exhausted;
    LeadsSelf(cfg, s);
    t := s;
    if t.deliveries[d].phase.GaveUp? {
      t := MarksFailed(cfg, s, t, d, m);
    } else {
      if t.deliveries[d].phase.Waiting? { t := Wakes(cfg, s, t, d, m); }
      if t.deliveries[d].phase.Calling? { t := CallSucceeds(cfg, s, t, d, m); }
      t := MarksSent(cfg, s, t, d, m);
    }
  }

  /** A dead letter is final if and only if no consumer holds an unfinished claim on the message. */
  lemma DeadLetterIsFinal(cfg: Config, s: State, m: int)
    requires Inv(cfg, s) && Exhausted(s, m)
    ensures (forall t :: Leads(cfg, s, t) ==> Exhausted(t, m)) <==> Unclaimed(s.deliveries, s.log, m)
  {
    hide Inv, Leads, IsRun;
    if Unclaimed(s.deliveries, s.log, m) {
      forall t | Leads(cfg, s, t) ensures Exhausted(t, m) { SealedFollows(cfg, s, t, m); }
    } else {
      var d :| d in s.deliveries && Holding(s.deliveries[d].phase) && s.deliveries[d].offset < |s.log|
               && s.log[s.deliveries[d].offset].value.messageId == m;
      var t := HolderOverwrites(cfg, s, d, m);
    }
  }

  // Every refund is a finalization that leaves the row failed with outbox_exhausted.
  lemma RefundExhausts(cfg: Config, s: State, step: Step, m: int)
    requires Enabled(cfg, s, step)
    requires !IsRefunded(s.hist.refunds, m) && IsRefunded(Apply(cfg, s, step).hist.refunds, m)
    ensures step.Finalize? && Exhausted(Apply(cfg, s, step), m)
    ensures Apply(cfg, s, step).deliveries == s.deliveries && Apply(cfg, s, step).log == s.log
    ensures Apply(cfg, s, step).sms == s.sms && m in s.db.messages
  {
    if step.Finalize? {
      FinalizeRefunds(s, step.claim, step.err, step.fate, m);
      FinalizeTouches(s, step.claim, step.err, step.fate, m);
    } else {
      RefundsUnmoved(cfg, s, step);
    }
  }

  lemma FinalizeTouches(s: State, c: Claim, err: string, fate: Fate, m: int)
    requires c.event in s.db.outbox
    ensures DoFinalize(s, c, err, fate).sms == s.sms
    ensures m in DoFinalize(s, c, err, fate).db.messages ==> m in s.db.messages
  {
  }

  /** For every refund of every execution: it is final if and only if no consumer held an unfinished
      claim on the message at that moment. */
  lemma RefundIsFinal(cfg: Config, ss: seq<State>, steps: seq<Step>, i: nat, m: int)
    requires IsExecution(cfg, ss, steps) && i < |steps|
    requires !IsRefunded(ss[i].hist.refunds, m) && IsRefunded(ss[i + 1].hist.refunds, m)
    ensures Exhausted(ss[i + 1], m)
    ensures (forall t :: Leads(cfg, ss[i + 1], t) ==> Exhausted(t, m)) <==> Unclaimed(ss[i].deliveries, ss[i].log, m)
  {
    hide Inv, Leads, Unclaimed, Exhausted, IsRefunded, Init;
    ExecutionKeeps(cfg, ss, steps, i + 1);
    RefundExhausts(cfg, ss[i], steps[i], m);
    DeadLetterIsFinal(cfg, ss[i + 1], m);
  }

  // ---- delivery ----

  ghost predicate Delivered(s: State, m: int) {
    exists k :: 0 <= k < |s.sms| && s.sms[k].messageId == m
  }

  // No consumer is calling the provider for the message or about to.
  ghost predicate Quiet(s: State, m: int) {
    forall d :: AtPhase(s, d) && (s.deliveries[d].phase.Calling? || s.deliveries[d].phase.Waiting?) ==>
      EventOf(s, d).messageId != m
  }

  ghost predicate Settled(s: State, m: int) {
    m in s.db.messages && Terminal(s.db.messages[m]) && Quiet(s, m) && !Delivered(s, m)
  }

  lemma QuietCall(s: State, did: int, result: CallResult, reached: bool, delay: int, m: int)
    requires Quiet(s, m) && !Delivered(s, m) && CanCallProvider(s, did, result, reached, delay)
    ensures Quiet(DoCallProvider(s, did, result, reached, delay), m)
    ensures !Delivered(DoCallProvider(s, did, result, reached, delay), m)
  {
    hide Provider.ProviderIdempotencyKey;
    assert EventOf(s, did).messageId != m;
  }

  lemma QuietTryClaim(s: State, did: int, fate: Fate, m: int)
    requires Quiet(s, m) && m in s.db.messages && Terminal(s.db.messages[m]) && AtPhase(s, did)
    ensures Quiet(DoTryClaim(s, did, fate), m)
  {
    hide ClaimMessage;
  }

  lemma QuietMark(s: State, did: int, messages: map<int, Message>, fate: Fate, m: int)
    requires Quiet(s, m) && did in s.deliveries
    ensures Quiet(DoMark(s, did, messages, fate), m)
  {
  }

  lemma QuietDelivery(cfg: Config, s: State, step: Step, m: int)
    requires Enabled(cfg, s, step) && IsMark(step)
    requires Quiet(s, m) && m in s.db.messages && Terminal(s.db.messages[m])
    ensures Quiet(Apply(cfg, s, step), m)
  {
    hide Quiet;
    match step
    case TryClaim(did, fate) => QuietTryClaim(s, did, fate, m);
    case MarkSent(did, fate) =>
      QuietMark(s, did, Tables.MarkSent(s.db.messages, EventOf(s, did).messageId, s.now), fate, m);
    case MarkFailed(did, fate) =>
      QuietMark(s, did, Tables.MarkFailed(s.db.messages, EventOf(s, did).messageId, ProviderError, s.now), fate, m);
  }

  lemma QuietRecord(cfg: Config, s: State, step: Step, m: int)
    requires Enabled(cfg, s, step) && IsRecord(step) && !step.CallProvider? && Quiet(s, m)
    requires OffsetsOk(s)
    ensures Quiet(Apply(cfg, s, step), m)
  {
    hide Classify;
  }

  lemma QuietOther(cfg: Config, s: State, step: Step, m: int)
    requires Enabled(cfg, s, step) && !IsRecord(step) && !IsMark(step) && Quiet(s, m) && OffsetsOk(s)
    ensures Quiet(Apply(cfg, s, step), m)
  {
    hide Enabled, Apply;
    StepShape(cfg, s, step);
  }

  lemma StepQuiet(cfg: Config, s: State, step: Step, m: int)
    requires Inv(cfg, s) && Enabled(cfg, s, step) && Settled(s, m)
    ensures Quiet(Apply(cfg, s, step), m) && !Delivered(Apply(cfg, s, step), m)
  {
    hide Inv, Quiet, Delivered;
    OffsetsInLog(cfg, s);
    if step.CallProvider? {
      QuietCall(s, step.did, step.result, step.reached, step.delay, m);
    } else {
      SameSms(cfg, s, step, m);
      if IsMark(step) { QuietDelivery(cfg, s, step, m); }
      else if IsRecord(step) { QuietRecord(cfg, s, step, m); }
      else { QuietOther(cfg, s, step, m); }
    }
  }

  lemma SameSms(cfg: Config, s: State, step: Step, m: int)
    requires Enabled(cfg, s, step) && !step.CallProvider?
    ensures Apply(cfg, s, step).sms == s.sms
    ensures Delivered(Apply(cfg, s, step), m) <==> Delivered(s, m)
  {
    hide Enabled, Apply;
    StepShape(cfg, s, step);
  }

  lemma StepSettled(cfg: Config, s: State, step: Step, m: int)
    requires Inv(cfg, s) && Enabled(cfg, s, step) && Settled(s, m)
    ensures Settled(Apply(cfg, s, step), m)
  {
    hide Inv, Quiet, Delivered, OutboxEvolves;
    StepProgress(cfg, s, step);
    StepQuiet(cfg, s, step, m);
  }

  lemma {:induction false} RunStaysSettled(cfg: Config, ss: seq<State>, steps: seq<Step>, i: nat, m: int)
    requires IsRun(cfg, ss, steps) && Inv(cfg, ss[0]) && i < |ss| && Settled(ss[0], m)
    ensures Settled(ss[i], m)
  {
    hide Settled, Inv, Enabled, Apply;
    if i != 0 {
      RunStaysSettled(cfg, ss, steps, i - 1, m);
      RunKeeps(cfg, ss, steps, i - 1);
      NextSettled(cfg, ss, steps, i - 1, m);
    }
  }

  lemma NextSettled(cfg: Config, ss: seq<State>, steps: seq<Step>, i: nat, m: int)
    requires IsRun(cfg, ss, steps) && i < |steps| && Inv(cfg, ss[i]) && Settled(ss[i], m)
    ensures Settled(ss[i + 1], m)
  {
    hide Settled, Inv, Enabled, Apply;
    StepSettled(cfg, ss[i], steps[i], m);
  }

  lemma SettledFollows(cfg: Config, s: State, t: State, m: int)
    requires Inv(cfg, s) && Settled(s, m) && Leads(cfg, s, t)
    ensures !Delivered(t, m)
  {
    hide Inv, IsRun, Delivered, Quiet;
    var ss, steps :| RunFromTo(cfg, ss, steps, s, t);
    RunLength(cfg, ss, steps);
    RunStaysSettled(cfg, ss, steps, |steps|, m);
  }

  // A key the provider remembers belongs to an SMS that left.
  lemma SeenMeansDelivered(cfg: Config, s: State, m: int)
    requires Inv(cfg, s) && KeyOf(m) in s.seen
    ensures Delivered(s, m)
  {
    hide RowsOk, MoneyOk, RefundsOk, LogOk, OutboxOk, DeliveryStateOk, ApiOk;
    var k :| 0 <= k < |s.sms| && s.sms[k].key == KeyOf(m);
    Provider.KeyInjective(s.sms[k].messageId, m);
  }

  lemma CallerDelivers(cfg: Config, s: State, d: int, m: int) returns (t: State)
    requires Inv(cfg, s) && !Delivered(s, m) && Holds(s, d, m) && m in s.db.messages
    requires s.deliveries[d].phase.Calling? || s.deliveries[d].phase.Waiting?
    ensures Leads(cfg, s, t) && Delivered(t, m)
  {
    hide Leads, Inv, Provider.ProviderIdempotencyKey;
    LeadsSelf(cfg, s);
    if KeyOf(m) in s.seen { SeenMeansDelivered(cfg, s, m); }
    t := s;
    if t.deliveries[d].phase.Waiting? { t := Wakes(cfg, s, t, d, m); }
    t := CallSucceeds(cfg, s, t, d, m);
  }

  /** A sent or failed message is never delivered from now on if and only if no SMS of it has left and
      no consumer is calling the provider for it or waiting to. Refunded or not. */
  lemma NeverDelivered(cfg: Config, s: State, m: int)
    requires Inv(cfg, s) && m in s.db.messages && Terminal(s.db.messages[m])
    ensures (forall t :: Leads(cfg, s, t) ==> !Delivered(t, m)) <==> !Delivered(s, m) && Quiet(s, m)
  {
    hide Inv, Leads, Delivered;
    LeadsSelf(cfg, s);
    if !Delivered(s, m) {
      if Quiet(s, m) {
        forall t | Leads(cfg, s, t) ensures !Delivered(t, m) { SettledFollows(cfg, s, t, m); }
      } else {
        var d :| AtPhase(s, d) && (s.deliveries[d].phase.Calling? || s.deliveries[d].phase.Waiting?)
                 && EventOf(s, d).messageId == m;
        var t := CallerDelivers(cfg, s, d, m);
      }
    }
  }

  /** In every execution: a dead letter without an unfinished claim and without an SMS so far stays
      undelivered, whatever happens to leases, publishes and marks. */
  lemma SealedNeverDelivered(cfg: Config, ss: seq<State>, steps: seq<Step>, i: nat, j: nat, m: int)
    requires IsExecution(cfg, ss, steps) && i <= j < |ss|
    requires Sealed(ss[i], m) && !Delivered(ss[i], m)
    ensures !Delivered(ss[j], m)
  {
    hide Enabled, Apply, Inv, Delivered;
    ExecutionKeeps(cfg, ss, steps, i);
    LeadsAlong(cfg, ss, steps, i, j);
    SettledFollows(cfg, ss[i], ss[j], m);
  }

  // ---- the row's own status ----

  // Only messages that were claimed have been delivered.
  ghost predicate OnlyTakenDelivered(s: State) {
    forall k :: 0 <= k < |s.sms| ==>
      s.sms[k].messageId in s.db.messages && !s.db.messages[s.sms[k].messageId].status.MessageQueued?
  }

  lemma StepTaken(cfg: Config, s: State, step: Step)
    requires Inv(cfg, s) && Enabled(cfg, s, step) && OnlyTakenDelivered(s)
    ensures OnlyTakenDelivered(Apply(cfg, s, step))
  {
    hide Inv, OutboxEvolves;
    if step.CallProvider? {
      CallTaken(cfg, s, step.did, step.result, step.reached, step.delay);
    } else {
      hide Enabled, Apply;
      StepProgress(cfg, s, step);
      SameSms(cfg, s, step, 0);
    }
  }

  lemma CallTaken(cfg: Config, s: State, did: int, result: CallResult, reached: bool, delay: int)
    requires Inv(cfg, s) && CanCallProvider(s, did, result, reached, delay) && OnlyTakenDelivered(s)
    ensures OnlyTakenDelivered(DoCallProvider(s, did, result, reached, delay))
  {
    hide RowsOk, MoneyOk, RefundsOk, LogOk, OutboxOk, ProviderOk, ApiOk, Provider.ProviderIdempotencyKey;
    assert DeliveryOk(s.deliveries[did], s.log, s.db.messages, s.seen);
  }

  lemma {:induction false} RunTaken(cfg: Config, ss: seq<State>, steps: seq<Step>, i: nat)
    requires IsExecution(cfg, ss, steps) && i < |ss|
    ensures OnlyTakenDelivered(ss[i])
  {
    hide OnlyTakenDelivered, Inv, Init, Enabled, Apply;
    if i == 0 {
      InitTaken(ss[0]);
    } else {
      RunTaken(cfg, ss, steps, i - 1);
      ExecutionKeeps(cfg, ss, steps, i - 1);
      StepTaken(cfg, ss[i - 1], steps[i - 1]);
    }
  }

  lemma InitTaken(s: State)
    requires Init(s)
    ensures OnlyTakenDelivered(s)
  {
  }

  /** Nobody holds a claim on a queued message. */
  lemma QueuedIsUnclaimed(cfg: Config, s: State, m: int)
    requires Inv(cfg, s) && m in s.db.messages && s.db.messages[m].status.MessageQueued?
    ensures Unclaimed(s.deliveries, s.log, m)
  {
    hide RowsOk, MoneyOk, RefundsOk, LogOk, OutboxOk, ProviderOk, ApiOk;
    forall d | d in s.deliveries && Holding(s.deliveries[d].phase) && s.deliveries[d].offset < |s.log|
      ensures s.log[s.deliveries[d].offset].value.messageId != m
    {
      assert DeliveryOk(s.deliveries[d], s.log, s.db.messages, s.seen);
    }
  }

  /** The guard its caller can see: a message refunded from a queued row stays failed with
      outbox_exhausted and is never delivered, in every execution. */
  lemma QueuedRefundIsFinal(cfg: Config, ss: seq<State>, steps: seq<Step>, i: nat, m: int)
    requires IsExecution(cfg, ss, steps) && i < |steps|
    requires !IsRefunded(ss[i].hist.refunds, m) && IsRefunded(ss[i + 1].hist.refunds, m)
    requires m in ss[i].db.messages && ss[i].db.messages[m].status.MessageQueued?
    ensures forall t :: Leads(cfg, ss[i + 1], t) ==> Exhausted(t, m) && !Delivered(t, m)
  {
    hide Inv, Leads, Init, Enabled, Apply;
    ExecutionKeeps(cfg, ss, steps, i);
    ExecutionKeeps(cfg, ss, steps, i + 1);
    QueuedIsUnclaimed(cfg, ss[i], m);
    RefundExhausts(cfg, ss[i], steps[i], m);
    RunTaken(cfg, ss, steps, i);
    assert Sealed(ss[i + 1], m) && !Delivered(ss[i + 1], m);
    forall t | Leads(cfg, ss[i + 1], t) ensures Exhausted(t, m) && !Delivered(t, m) {
      SealedFollows(cfg, ss[i + 1], t, m);
      SettledFollows(cfg, ss[i + 1], t, m);
    }
  }
}
