/** The tables column by column: what every row of every reachable state looks like, spelled out in the
    fields and numbers of the schema. */
module Columns {
  import opened Domain
  import opened Tables
  import opened Protocol
  import opened Invariants
  import opened Runs
  import opened Shapes
  import Persisting
  import Plan
  import Sums

  // ---- rows ----

  // Only a failed message has an error code, and it is one of two.
  ghost predicate MessageColumns(messages: map<int, Message>) {
    forall m :: m in messages ==>
      var row := messages[m];
      && (row.status == MessageQueued || row.status == MessageSending || row.status == MessageSent
          || row.status == MessageFailed)
      && (if row.status == MessageFailed
          then row.errorCode == Some(ProviderError) || row.errorCode == Some(OutboxExhausted)
          else row.errorCode == None)
  }

  ghost predicate EventColumns(cfg: Config, e: OutboxEvent, now: int) {
    && 0 <= e.attempts
    && (e.attempts == 0 ==> e.status == OutboxPending && e.lastError == None)
    && (e.status == OutboxPending ==> e.lockedAt == None && e.publishedAt == None)
    && (e.status == OutboxPublishing ==> e.lockedAt.Some? && e.lockedAt.value <= now && e.publishedAt == None)
    && (e.status == OutboxPublished ==>
          e.lockedAt == None && e.lastError == None && e.publishedAt.Some? && e.publishedAt.value <= now)
    && (e.status == OutboxFailed ==>
          e.lockedAt == None && e.lastError.Some? && e.publishedAt == None && cfg.maxAttempts <= e.attempts)
  }

  ghost predicate OutboxColumns(cfg: Config, outbox: map<int, OutboxEvent>, now: int) {
    forall e :: e in outbox ==> EventColumns(cfg, outbox[e], now)
  }

  // The command whose body a request stores the hash of.
  function CommandOf(r: Request): SendRequest
    requires r.hash.Digest?
  {
    SendRequest(r.hash.userId, r.key, r.hash.otp, r.hash.text)
  }

  // The line of the answer for recipient j: accepted in order while the money lasted, or skipped.
  ghost predicate LineFor(cfg: Config, cmd: SendRequest, res: SendResult, j: nat)
    requires j < |Plan.Mobiles(cmd)|
  {
    var valid := Plan.IsValidMobile(Plan.Mobiles(cmd)[j]);
    var before := Plan.ValidCount(Plan.Mobiles(cmd)[..j]);
    if valid && before < |res.messages| then
      var line := res.messages[before];
      && Plan.Wants(cmd, j, line.recipient, line.kind, line.mode, line.text)
      && 0 < line.id && line.status == MessageQueued && line.cost == cfg.smsCost && line.errorCode == None
    else
      var k := j - (if before < |res.messages| then before else |res.messages|);
      && 0 <= k < |res.skipped|
      && var line := res.skipped[k];
      && Plan.Wants(cmd, j, line.recipient, line.kind, line.mode, line.text)
      && line.id == 0 && line.status == MessageRejected && line.cost == 0
      && line.errorCode == Some(if valid then InsufficientBalance else InvalidMobile)
  }

  ghost predicate AnswerFits(cfg: Config, cmd: SendRequest, res: SendResult) {
    var ms := Plan.Mobiles(cmd);
    && |res.messages| + |res.skipped| == |ms|
    && res.acceptedCount == |res.messages| <= Plan.ValidCount(ms)
    && res.rejectedCount == |ms| - Plan.ValidCount(ms)
    && res.skippedCount == Plan.ValidCount(ms) - |res.messages|
    && forall j :: 0 <= j < |ms| ==> LineFor(cfg, cmd, res, j)
  }

  ghost predicate RequestColumns(cfg: Config, r: Request) {
    && r.hash.Digest? && r.hash.userId == r.userId && r.response.Some?
    && r.rejected == r.response.value.rejectedCount
    && AnswerFits(cfg, CommandOf(r), r.response.value)
  }

  ghost predicate RequestsColumns(cfg: Config, requests: map<int, Request>) {
    forall r :: r in requests ==> RequestColumns(cfg, requests[r])
  }

  ghost predicate ColumnsOk(cfg: Config, s: State) {
    MessageColumns(s.db.messages) && OutboxColumns(cfg, s.db.outbox, s.now) && RequestsColumns(cfg, s.db.requests)
  }

  // ---- statements on messages ----

  lemma TryClaimColumns(s: State, did: int, fate: Fate)
    requires MessageColumns(s.db.messages) && AtPhase(s, did)
    ensures MessageColumns(DoTryClaim(s, did, fate).db.messages)
  {
  }

  lemma MarkColumns(s: State, did: int, row: Message, fate: Fate)
    requires MessageColumns(s.db.messages) && AtPhase(s, did)
    requires || (row.status == MessageSent && row.errorCode == None)
             || (row.status == MessageFailed && row.errorCode == Some(ProviderError))
    ensures MessageColumns(DoMark(s, did, s.db.messages[EventOf(s, did).messageId := row], fate).db.messages)
  {
  }

  ghost predicate KnownEvents(s: State) {
    forall d :: AtPhase(s, d) ==> EventOf(s, d).messageId in s.db.messages
  }

  lemma EventsAreKnown(cfg: Config, s: State)
    requires Inv(cfg, s)
    ensures KnownEvents(s)
  {
    hide RowsOk, MoneyOk, RefundsOk, LogOk, OutboxOk, ProviderOk, ApiOk;
    forall d | AtPhase(s, d) ensures EventOf(s, d).messageId in s.db.messages {
      assert DeliveryOk(s.deliveries[d], s.log, s.db.messages, s.seen);
    }
  }

  /** The row after MarkSent: sent, without an error code, updated now, otherwise as before. */
  lemma MarkSentWrites(s: State, did: int, fate: Fate)
    requires AtPhase(s, did) && EventOf(s, did).messageId in s.db.messages
    ensures var m := EventOf(s, did).messageId;
            DoMarkSent(s, did, fate)
            == DoMark(s, did, s.db.messages[m := s.db.messages[m].(status := MessageSent, errorCode := None,
                                                                    updatedAt := s.now)], fate)
  {
  }

  /** The row after MarkFailed: failed with provider_error, updated now, otherwise as before. */
  lemma MarkFailedWrites(s: State, did: int, fate: Fate)
    requires AtPhase(s, did) && EventOf(s, did).messageId in s.db.messages
    ensures var m := EventOf(s, did).messageId;
            DoMarkFailed(s, did, fate)
            == DoMark(s, did, s.db.messages[m := s.db.messages[m].(status := MessageFailed,
                                                                    errorCode := Some(ProviderError),
                                                                    updatedAt := s.now)], fate)
  {
  }

  lemma DeliveryColumns(cfg: Config, s: State, step: Step)
    requires Enabled(cfg, s, step) && IsMark(step) && MessageColumns(s.db.messages) && KnownEvents(s)
    ensures MessageColumns(Apply(cfg, s, step).db.messages)
  {
    hide MessageColumns, DoMark;
    match step
    case TryClaim(did, fate) => TryClaimColumns(s, did, fate);
    case MarkSent(did, fate) =>
      var row := s.db.messages[EventOf(s, did).messageId];
      MarkSentWrites(s, did, fate);
      MarkColumns(s, did, row.(status := MessageSent, errorCode := None, updatedAt := s.now), fate);
    case MarkFailed(did, fate) =>
      var row := s.db.messages[EventOf(s, did).messageId];
      MarkFailedWrites(s, did, fate);
      MarkColumns(s, did, row.(status := MessageFailed, errorCode := Some(ProviderError), updatedAt := s.now), fate);
  }

  // ---- statements on events ----

  lemma ClaimBatchColumns(cfg: Config, s: State, ids: set<int>)
    requires CanClaimBatch(cfg, s, ids) && OutboxColumns(cfg, s.db.outbox, s.now)
    ensures OutboxColumns(cfg, DoClaimBatch(s, ids).db.outbox, s.now)
  {
  }

  lemma MarkPublishedColumns(cfg: Config, s: State, c: Claim, fate: Fate)
    requires OutboxColumns(cfg, s.db.outbox, s.now) && c.event in s.db.outbox && 1 <= s.db.outbox[c.event].attempts
    ensures OutboxColumns(cfg, DoMarkPublished(s, c, fate).db.outbox, s.now)
  {
  }

  lemma RecordFailureColumns(cfg: Config, s: State, c: Claim, err: string, fate: Fate)
    requires OutboxColumns(cfg, s.db.outbox, s.now) && c.event in s.db.outbox && 1 <= s.db.outbox[c.event].attempts
    ensures OutboxColumns(cfg, DoRecordFailure(s, c, err, fate).db.outbox, s.now)
  {
  }

  lemma FinalizeColumns(cfg: Config, s: State, c: Claim, err: string, fate: Fate)
    requires c.event in s.db.outbox && cfg.maxAttempts <= s.db.outbox[c.event].attempts
    requires OutboxColumns(cfg, s.db.outbox, s.now) && MessageColumns(s.db.messages)
    ensures OutboxColumns(cfg, DoFinalize(s, c, err, fate).db.outbox, s.now)
    ensures MessageColumns(DoFinalize(s, c, err, fate).db.messages)
  {
  }

  lemma ClaimColumns(cfg: Config, s: State, step: Step)
    requires Inv(cfg, s) && Enabled(cfg, s, step) && IsClaim(step) && OutboxColumns(cfg, s.db.outbox, s.now)
    ensures OutboxColumns(cfg, Apply(cfg, s, step).db.outbox, s.now)
  {
    hide OutboxColumns, RowsOk, MoneyOk, RefundsOk, LogOk, DeliveryStateOk, ProviderOk, ApiOk;
    match step
    case ClaimBatch(ids) => ClaimBatchColumns(cfg, s, ids);
    case MarkPublished(c, fate) =>
      assert ClaimOk(cfg, c, s.claims[c], s.db.outbox, s.log, s.hist.publishes);
      MarkPublishedColumns(cfg, s, c, fate);
    case RecordFailure(c, err, fate) =>
      assert ClaimOk(cfg, c, s.claims[c], s.db.outbox, s.log, s.hist.publishes);
      RecordFailureColumns(cfg, s, c, err, fate);
    case _ =>
  }

  // ---- the send transaction ----

  lemma StoredColumns(cfg: Config, s: State, cmd: SendRequest, cs: seq<Message>, requestId: int, mids: seq<int>,
                      eids: seq<int>, db: Db, result: SendResult)
    requires Persisting.StoredBy(cfg, s, cmd, cs, requestId, mids, eids, db, result) && ColumnsOk(cfg, s)
    ensures ColumnsOk(cfg, s.(db := db))
  {
    hide RequestColumns, MessageColumns, OutboxColumns, SendTransaction, HasRequest, Sums.Insert, Sums.Fresh;
    var rows := Persisting.StoredShape(cfg, s, cmd, cs, requestId, mids, eids, db, result);
    StoredAnswerFits(cfg, s, cmd, cs, requestId, mids, eids, db, result);
    InsertedMessages(s.db.messages, mids, rows);
    InsertedEvents(cfg, s.db.outbox, eids, mids, rows, s.now);
  }

  lemma InsertedMessages(messages: map<int, Message>, mids: seq<int>, rows: seq<Message>)
    requires MessageColumns(messages) && |mids| == |rows| && Sums.Fresh(messages, mids)
    requires forall i :: 0 <= i < |rows| ==> rows[i].status == MessageQueued && rows[i].errorCode == None
    ensures MessageColumns(Sums.Insert(messages, mids, rows))
  {
    Sums.InsertFacts(messages, mids, rows);
    var b := Sums.Insert(messages, mids, rows);
    forall m | m in b && m !in messages ensures b[m].status == MessageQueued && b[m].errorCode == None {
      var i :| 0 <= i < |mids| && mids[i] == m;
    }
  }

  lemma InsertedEvents(cfg: Config, outbox: map<int, OutboxEvent>, eids: seq<int>, mids: seq<int>, rows: seq<Message>,
                       now: int)
    requires OutboxColumns(cfg, outbox, now) && |eids| == |mids| == |rows| && Sums.Fresh(outbox, eids)
    ensures OutboxColumns(cfg, Sums.Insert(outbox, eids, EventRows(cfg, mids, rows)), now)
  {
    Sums.InsertFacts(outbox, eids, EventRows(cfg, mids, rows));
    var b := Sums.Insert(outbox, eids, EventRows(cfg, mids, rows));
    forall e | e in b && e !in outbox ensures EventColumns(cfg, b[e], now) {
      var i :| 0 <= i < |eids| && eids[i] == e;
    }
  }

  lemma StoredAnswerFits(cfg: Config, s: State, cmd: SendRequest, cs: seq<Message>, requestId: int, mids: seq<int>,
                         eids: seq<int>, db: Db, result: SendResult)
    requires Persisting.StoredBy(cfg, s, cmd, cs, requestId, mids, eids, db, result)
    ensures requestId in db.requests && RequestColumns(cfg, db.requests[requestId])
  {
    hide AnswerFits;
    var rows := Persisting.StoredShape(cfg, s, cmd, cs, requestId, mids, eids, db, result);
    PlanFits(cfg, s.db.users[cmd.userId], cmd, cs, requestId, mids, rows, s.now, result);
    assert CommandOf(db.requests[requestId]) == cmd;
  }

  lemma PlanFits(cfg: Config, balance: int, cmd: SendRequest, cs: seq<Message>, requestId: int, mids: seq<int>,
                 rows: seq<Message>, now: int, result: SendResult)
    requires Plan.AreCandidates(cfg, cmd, cs)
    requires rows == MessageRows(Plan.Split(cs, Plan.Affordable(cfg, balance)).payable, requestId, now)
    requires |mids| == |rows| && (forall i :: 0 <= i < |mids| ==> 0 < mids[i])
    requires result == ResultOf(cfg, Plan.Split(cs, Plan.Affordable(cfg, balance)), requestId, Lines(mids, rows))
    ensures AnswerFits(cfg, cmd, result)
  {
    hide Plan.AreCandidates, Plan.Split, Plan.Wants, Plan.IsValidMobile, Plan.Mobiles, Plan.Affordable, Plan.ValidCount;
    var affordable := Plan.Affordable(cfg, balance);
    Plan.SplitSizes(cs, affordable);
    Plan.CandidatesLength(cfg, cmd, cs);
    Plan.SendableCount(cfg, cmd, cs, |cs|);
    assert cs[..|cs|] == cs && Plan.Mobiles(cmd)[..|cs|] == Plan.Mobiles(cmd);
    forall j | 0 <= j < |cs| ensures LineFor(cfg, cmd, result, j) {
      Plan.PlacedFields(cfg, cmd, cs, affordable, j);
      CountBelow(Plan.Mobiles(cmd), j);
    }
  }

  lemma {:induction false} CountBelow(ms: seq<string>, j: nat)
    requires j < |ms|
    ensures Plan.ValidCount(ms[..j]) + (if Plan.IsValidMobile(ms[j]) then 1 else 0) <= Plan.ValidCount(ms)
    decreases |ms| - j
  {
    hide Plan.IsValidMobile;
    assert ms[..j + 1][..j] == ms[..j];
    if j + 1 < |ms| { CountBelow(ms, j + 1); } else { assert ms[..j + 1] == ms; }
  }

  lemma PersistColumns(cfg: Config, s: State, pid: int, cs: seq<Message>, requestId: int, mids: seq<int>,
                       eids: seq<int>, fate: Fate)
    requires CanPersist(cfg, s, pid, cs, requestId, mids, eids) && ColumnsOk(cfg, s)
    ensures ColumnsOk(cfg, DoPersist(cfg, s, pid, cs, requestId, mids, eids, fate))
  {
    hide ColumnsOk, Plan.AreCandidates, Plan.Sendable, Plan.Split;
    var cmd, t := s.sends[pid].cmd, DoPersist(cfg, s, pid, cs, requestId, mids, eids, fate);
    match SendTransaction(cfg, s.db, cmd, cs, requestId, mids, eids, s.now)
    case Stored(db, result) =>
      StoredColumns(cfg, s, cmd, cs, requestId, mids, eids, db, result);
      SameColumns(cfg, if fate.Aborted? then s else s.(db := db), t);
    case _ => SameColumns(cfg, s, t);
  }

  lemma SameColumns(cfg: Config, a: State, b: State)
    requires ColumnsOk(cfg, a) && a.now <= b.now
    requires b.db.messages == a.db.messages && b.db.outbox == a.db.outbox && b.db.requests == a.db.requests
    ensures ColumnsOk(cfg, b)
  {
    hide RequestColumns;
  }

  // ---- every reachable state ----

  lemma OtherColumns(cfg: Config, s: State, step: Step)
    requires Enabled(cfg, s, step) && ColumnsOk(cfg, s)
    requires IsCall(step) || IsRecord(step) || step.TopUp? || step.Tick?
    ensures ColumnsOk(cfg, Apply(cfg, s, step))
  {
    hide Enabled, Apply, ColumnsOk;
    StepShape(cfg, s, step);
    SameColumns(cfg, s, Apply(cfg, s, step));
  }

  lemma TableColumns(cfg: Config, s: State, step: Step)
    requires Inv(cfg, s) && Enabled(cfg, s, step) && ColumnsOk(cfg, s) && (IsMark(step) || IsClaim(step))
    ensures ColumnsOk(cfg, Apply(cfg, s, step))
  {
    hide Inv, Enabled, Apply, MessageColumns, OutboxColumns, RequestsColumns;
    StepShape(cfg, s, step);
    if IsMark(step) {
      EventsAreKnown(cfg, s);
      DeliveryColumns(cfg, s, step);
    } else {
      ClaimColumns(cfg, s, step);
    }
  }

  lemma ExhaustedColumns(cfg: Config, s: State, c: Claim, err: string, fate: Fate)
    requires Inv(cfg, s) && CanFinalize(cfg, s, c) && ColumnsOk(cfg, s)
    ensures ColumnsOk(cfg, DoFinalize(s, c, err, fate))
    ensures cfg.maxAttempts <= s.db.outbox[c.event].attempts
  {
    hide RowsOk, MoneyOk, RefundsOk, LogOk, DeliveryStateOk, ProviderOk, ApiOk, MessageColumns, OutboxColumns,
         RequestsColumns;
    assert ClaimOk(cfg, c, s.claims[c], s.db.outbox, s.log, s.hist.publishes);
    FinalizeColumns(cfg, s, c, err, fate);
  }

  lemma StepColumns(cfg: Config, s: State, step: Step)
    requires Inv(cfg, s) && Enabled(cfg, s, step) && ColumnsOk(cfg, s)
    ensures ColumnsOk(cfg, Apply(cfg, s, step))
  {
    hide Inv, ColumnsOk;
    if IsMark(step) || IsClaim(step) {
      TableColumns(cfg, s, step);
    } else if step.Finalize? {
      ExhaustedColumns(cfg, s, step.claim, step.err, step.fate);
    } else if step.Persist? {
      PersistColumns(cfg, s, step.pid, step.cs, step.requestId, step.mids, step.eids, step.fate);
    } else {
      OtherColumns(cfg, s, step);
    }
  }

  lemma InitColumns(cfg: Config, s: State)
    requires Init(s)
    ensures ColumnsOk(cfg, s)
  {
  }

  lemma {:induction false} RunColumns(cfg: Config, ss: seq<State>, steps: seq<Step>, i: nat)
    requires IsExecution(cfg, ss, steps) && i < |ss|
    ensures ColumnsOk(cfg, ss[i])
  {
    hide ColumnsOk, Inv, Init, Enabled, Apply;
    if i == 0 {
      InitColumns(cfg, ss[0]);
    } else {
      RunColumns(cfg, ss, steps, i - 1);
      ExecutionKeeps(cfg, ss, steps, i - 1);
      StepColumns(cfg, ss[i - 1], steps[i - 1]);
    }
  }

  /** In every execution: only failed messages have an error code, provider_error or outbox_exhausted, and
      every failed message has one. */
  lemma ErrorCodes(cfg: Config, ss: seq<State>, steps: seq<Step>, i: nat, m: int)
    requires IsExecution(cfg, ss, steps) && i < |ss| && m in ss[i].db.messages
    ensures var row := ss[i].db.messages[m];
            && (row.errorCode != None <==> row.status == MessageFailed)
            && (row.status == MessageFailed ==>
                  row.errorCode == Some(ProviderError) || row.errorCode == Some(OutboxExhausted))
            && (row.status == MessageQueued || row.status == MessageSending || row.status == MessageSent
                || row.status == MessageFailed)
  {
    hide Init, Enabled, Apply, OutboxColumns, RequestsColumns;
    RunColumns(cfg, ss, steps, i);
  }

  /** In every execution: what the other columns of an event say in each of its states. */
  lemma EventStates(cfg: Config, ss: seq<State>, steps: seq<Step>, i: nat, e: int)
    requires IsExecution(cfg, ss, steps) && i < |ss| && e in ss[i].db.outbox
    ensures var row := ss[i].db.outbox[e];
            && (row.lockedAt.Some? <==> row.status == OutboxPublishing)
            && (row.publishedAt.Some? <==> row.status == OutboxPublished)
            && (row.publishedAt.Some? ==> row.publishedAt.value <= ss[i].now)
            && (row.status == OutboxPublished ==> row.lastError == None)
            && (row.status == OutboxFailed ==> row.lastError.Some? && cfg.maxAttempts <= row.attempts)
            && (row.status != OutboxPending ==> 1 <= row.attempts)
  {
    hide Init, Enabled, Apply, MessageColumns, RequestsColumns;
    RunColumns(cfg, ss, steps, i);
  }

  // ---- what was asked for ----

  /** In every execution: the stored answer of a request accounts for every recipient of its command, in order,
      as accepted while the money lasted, skipped for want of money, or rejected as invalid. */
  lemma AnswersFit(cfg: Config, ss: seq<State>, steps: seq<Step>, i: nat, r: int)
    requires IsExecution(cfg, ss, steps) && i < |ss| && r in ss[i].db.requests
    ensures RequestColumns(cfg, ss[i].db.requests[r])
  {
    hide Init, Enabled, Apply, MessageColumns, OutboxColumns, RequestColumns;
    RunColumns(cfg, ss, steps, i);
  }

  lemma {:induction false} NthValid(ms: seq<string>, n: nat) returns (j: nat)
    requires n < Plan.ValidCount(ms)
    ensures j < |ms| && Plan.IsValidMobile(ms[j]) && Plan.ValidCount(ms[..j]) == n
  {
    hide Plan.IsValidMobile;
    j := |ms| - 1;
    if n < Plan.ValidCount(ms[..j]) {
      var front := ms[..j];
      j := NthValid(front, n);
      assert front[..j] == ms[..j];
    }
  }

  /** In every execution: every stored message is what a valid recipient of its request's command asked for:
      that mobile, that kind and delivery mode, that text, for that user. */
  lemma MessagesAreWanted(cfg: Config, ss: seq<State>, steps: seq<Step>, i: nat, m: int)
    requires IsExecution(cfg, ss, steps) && i < |ss| && m in ss[i].db.messages
    ensures ss[i].db.messages[m].requestId in ss[i].db.requests
    ensures var row := ss[i].db.messages[m];
            var r := ss[i].db.requests[row.requestId];
            && r.hash.Digest? && row.userId == r.userId == CommandOf(r).userId
            && exists j :: 0 <= j < |Plan.Mobiles(CommandOf(r))| && Plan.IsValidMobile(row.recipient)
                           && Plan.Wants(CommandOf(r), j, row.recipient, row.kind, row.mode, row.text)
  {
    hide Init, Enabled, Apply, RequestColumns, Plan.Wants, Plan.IsValidMobile, Plan.Mobiles, Plan.ValidCount, MoneyOk,
         RefundsOk, LogOk, OutboxOk, DeliveryStateOk, ProviderOk, ApiOk, MessageColumns, OutboxColumns;
    ExecutionKeeps(cfg, ss, steps, i);
    RunColumns(cfg, ss, steps, i);
    var contents := Contents(ss[i].db.messages);
    assert m in contents;
    var q := ss[i].db.messages[m].requestId;
    var r := ss[i].db.requests[q];
    assert RequestOk(cfg, q, r, contents) && RequestColumns(cfg, r);
    WantedLine(cfg, q, r, contents, m);
  }

  lemma WantedLine(cfg: Config, q: int, r: Request, contents: map<int, Content>, m: int)
    requires RequestOk(cfg, q, r, contents) && RequestColumns(cfg, r) && m in contents && contents[m].requestId == q
    ensures var cmd, c := CommandOf(r), contents[m];
            && cmd.userId == r.userId
            && exists j :: 0 <= j < |Plan.Mobiles(cmd)| && Plan.IsValidMobile(c.recipient)
                           && Plan.Wants(cmd, j, c.recipient, c.kind, c.mode, c.text)
  {
    hide Plan.IsValidMobile, Plan.ValidCount, Plan.Wants, Plan.Mobiles;
    var cmd, res := CommandOf(r), r.response.value;
    assert IsLine(res.messages, m);
    var n :| 0 <= n < |res.messages| && res.messages[n].id == m;
    assert LineOk(q, res.messages[n], contents);
    var j := NthValid(Plan.Mobiles(cmd), n);
    assert LineFor(cfg, cmd, res, j);
    WantsRecipient(cmd, j, contents[m].recipient, contents[m].kind, contents[m].mode, contents[m].text);
  }

  lemma WantsRecipient(cmd: SendRequest, j: nat, recipient: string, kind: MessageType, mode: DeliveryMode, text: string)
    requires j < |Plan.Mobiles(cmd)| && Plan.Wants(cmd, j, recipient, kind, mode, text)
    ensures recipient == Plan.Mobiles(cmd)[j]
  {
    hide Plan.IsValidMobile;
  }
}
