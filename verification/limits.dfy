/** What the pipeline does not promise: concrete executions that bound the theorems. */
module Limits {
  import opened Domain
  import opened Tables
  import opened Protocol
  import opened Invariants
  import opened Runs
  import Plan
  import Provider

  ghost predicate Reachable(cfg: Config, s: State) {
    exists start :: Init(start) && Leads(cfg, start, s)
  }

  lemma Next(cfg: Config, s: State, step: Step) returns (t: State)
    requires Reachable(cfg, s) && Enabled(cfg, s, step)
    ensures t == Apply(cfg, s, step) && Reachable(cfg, t)
  {
    hide Leads, Enabled, Apply, Init;
    var start :| Init(start) && Leads(cfg, start, s);
    t := LeadsNext(cfg, start, s, step);
  }

  // One user with the price of one SMS, and a single publish attempt for every event.
  const CFG := Config(1, 1, 50, "sms.normal", "sms.express")
  const CMD := SendRequest(7, "key", None, Some(TextPayload(Normal, "hi", ["0912345678"])))

  function Candidate(): Message {
    Plan.QueuedMessage(CFG, 7, "0912345678", TypeText, Normal, "hi")
  }

  function Row(): Message {
    Candidate().(requestId := 1)
  }

  lemma MobileIsValid()
    ensures Plan.IsValidMobile("0912345678")
  {
    assert Plan.TrimSpace("0912345678") == "0912345678";
  }

  lemma Candidates()
    ensures Plan.AreCandidates(CFG, CMD, [Candidate()])
    ensures PlanFor(CFG, Db(map[7 := 1], map[], map[], map[]), CMD, [Candidate()]).payable == [Candidate()]
  {
    MobileIsValid();
    assert Plan.TextCandidate(CFG, 7, CMD.text.value, "0912345678") == Candidate();
    var cs := [Candidate()];
    assert cs[..0] == [] && Plan.Split(cs[..0], 1) == Plan.Planned([], [], 0, 0);
  }

  // Sent to the database: one queued message, one pending event.
  ghost predicate Enqueued(s: State) {
    && s.db.messages == map[1 := Row()] && s.db.outbox == map[1 := EventRow(CFG, 1, ContentOf(Row()))]
    && s.log == [] && s.claims == map[] && s.deliveries == map[] && s.seen == {} && s.sms == [] && s.hist.refunds == []
    && s.now == 0
  }

  lemma SendOne() returns (s: State)
    ensures Reachable(CFG, s) && Enqueued(s)
  {
    s := State(Db(map[7 := 1], map[], map[], map[]), map[], [], {}, map[], map[], map[], {}, [], 0,
               History(map[7 := 1], map[], [], [], []));
    assert Reachable(CFG, s) by {
      LeadsSelf(CFG, s);
    }
    s := Next(CFG, s, StartSend(1, CMD));
    s := Next(CFG, s, ReadCache(1, false));
    assert !HasRequest(map[], 7, "key");
    s := Next(CFG, s, ReadDb(1, false));
    s := PersistOne(s);
  }

  lemma PersistOne(s: State) returns (t: State)
    requires Reachable(CFG, s)
    requires s == State(Db(map[7 := 1], map[], map[], map[]), map[], [], {}, map[], map[], map[1 := Persisting(CMD)],
                        {}, [], 0, History(map[7 := 1], map[], [], [], []))
    ensures Reachable(CFG, t) && Enqueued(t)
  {
    Candidates();
    assert !HasRequest(map[], 7, "key");
    hide HasRequest, Plan.AreCandidates, Plan.Split, Plan.Sendable, Plan.Affordable;
    t := Next(CFG, s, Persist(1, [Candidate()], 1, [1], [1], Done));
  }

  // Its record was appended although Publish reported an error, and its claim is on the way to dead-letter it.
  ghost predicate Ambiguous(s: State) {
    && s.db.messages == map[1 := Row()] && 1 in s.db.outbox && s.db.outbox[1].aggregateId == 1
    && s.log == [RecordFor(EventRow(CFG, 1, ContentOf(Row())))]
    && s.claims == map[Claim(1, 1) := PublishErr] && s.deliveries == map[] && s.seen == {} && s.sms == []
    && s.hist.refunds == [] && s.now == 0
  }

  ghost predicate BatchClaimed(s: State) {
    && s.db.messages == map[1 := Row()]
    && s.db.outbox == map[1 := ClaimedRow(EventRow(CFG, 1, ContentOf(Row())), 0)]
    && s.log == [] && s.claims == map[Claim(1, 1) := Claimed] && s.deliveries == map[] && s.seen == {} && s.sms == []
    && s.hist.refunds == [] && s.now == 0
  }

  lemma ClaimBatchOne(s: State) returns (t: State)
    requires Reachable(CFG, s) && Enqueued(s)
    ensures Reachable(CFG, t) && BatchClaimed(t)
  {
    assert ClaimsOf(s.db.outbox, {1}) == {Claim(1, 1)};
    t := Next(CFG, s, ClaimBatch({1}));
  }

  lemma PublishOne(s: State) returns (t: State)
    requires Reachable(CFG, s) && BatchClaimed(s)
    ensures Reachable(CFG, t) && Ambiguous(t)
  {
    t := Next(CFG, s, Publish(Claim(1, 1), true, false));
  }

  // A consumer has sent the SMS and is about to mark the message.
  ghost predicate Delivered(s: State) {
    && s.db.messages == map[1 := Row().(status := MessageSending)]
    && 1 in s.db.outbox && s.db.outbox[1].aggregateId == 1
    && s.log == [RecordFor(EventRow(CFG, 1, ContentOf(Row())))]
    && s.claims == map[Claim(1, 1) := PublishErr] && s.deliveries == map[1 := Delivery(0, Accepted(0, 0))]
    && s.sms == [Sms(KeyOf(1), 1, "0912345678", "hi")] && s.hist.refunds == [] && s.now == 0
  }

  lemma DeliverOne(s: State) returns (t: State)
    requires Reachable(CFG, s) && Ambiguous(s)
    ensures Reachable(CFG, t) && Delivered(t)
  {
    hide Ambiguous, Delivered, InCall, Enabled, Apply;
    t := FetchOne(s);
    t := ClaimOne(t);
    t := CallOne(t);
  }

  lemma FetchOne(s: State) returns (t: State)
    requires Reachable(CFG, s) && Ambiguous(s)
    ensures Reachable(CFG, t) && t == s.(deliveries := t.deliveries) && t.deliveries == map[1 := Delivery(0, Fetched)]
    ensures Ambiguous(t.(deliveries := map[]))
  {
    t := Next(CFG, s, Fetch(1, 0));
  }

  // A consumer has claimed the message and calls the provider.
  ghost predicate InCall(s: State) {
    && s.db.messages == map[1 := Row().(status := MessageSending)]
    && 1 in s.db.outbox && s.db.outbox[1].aggregateId == 1
    && s.log == [RecordFor(EventRow(CFG, 1, ContentOf(Row())))]
    && s.claims == map[Claim(1, 1) := PublishErr] && s.deliveries == map[1 := Delivery(0, Calling(1, 0, 0))]
    && s.seen == {} && s.sms == [] && s.hist.refunds == [] && s.now == 0
  }

  lemma ClaimOne(s: State) returns (t: State)
    requires Reachable(CFG, s) && Ambiguous(s.(deliveries := map[])) && s.deliveries == map[1 := Delivery(0, Fetched)]
    ensures Reachable(CFG, t) && InCall(t)
  {
    t := Next(CFG, s, TryClaim(1, Done));
  }

  lemma CallOne(s: State) returns (t: State)
    requires Reachable(CFG, s) && InCall(s)
    ensures Reachable(CFG, t) && Delivered(t)
  {
    hide Provider.ProviderIdempotencyKey;
    t := Next(CFG, s, CallProvider(1, Ok, true, 0));
  }

  /** One attempt, one ambiguous Publish, one consumer that is faster than the dead letter: the message
      is refunded although its SMS left, and the dead letter is overwritten with sent. This is why a
      refund is final only without takeovers, ambiguous errors and unfinished claims. */
  lemma RefundedAndSent()
    ensures exists s :: Reachable(CFG, s) && IsRefunded(s.hist.refunds, 1) && |s.sms| == 1 && s.sms[0].messageId == 1
                        && 1 in s.db.messages && s.db.messages[1].status.MessageSent?
  {
    var s := SendOne();
    s := ClaimBatchOne(s);
    s := PublishOne(s);
    s := DeliverOne(s);
    s := RefundOne(s);
    s := MarkOne(s);
    assert s.hist.refunds[0].messageId == 1;
  }

  lemma RefundOne(s: State) returns (t: State)
    requires Reachable(CFG, s) && Delivered(s)
    ensures Reachable(CFG, t) && t.hist.refunds == [Refund(1, 7, 1)] && t.sms == s.sms
    ensures 1 in t.db.messages && t.log == s.log && t.deliveries == s.deliveries
  {
    t := Next(CFG, s, Finalize(Claim(1, 1), "kafka unavailable", Done));
  }

  lemma MarkOne(s: State) returns (t: State)
    requires Reachable(CFG, s) && 1 in s.db.messages && s.log == [RecordFor(EventRow(CFG, 1, ContentOf(Row())))]
    requires s.deliveries == map[1 := Delivery(0, Accepted(0, 0))]
    ensures Reachable(CFG, t) && t.hist.refunds == s.hist.refunds && t.sms == s.sms
    ensures 1 in t.db.messages && t.db.messages[1].status.MessageSent?
  {
    t := Next(CFG, s, MarkSent(1, Done));
  }
}
