/** What every execution of the pipeline guarantees, for any interleaving of sends, workers,
    consumers, crashes, database errors, broker redeliveries, lease takeovers and top-ups. */
module Theorems {
  import opened Domain
  import opened Sums
  import opened Tables
  import opened Protocol
  import opened Invariants
  import opened Preservation
  import opened Runs
  import opened Shapes
  import Provider

  // ---- money ----

  // The initial balance of a user plus the top-ups among the steps.
  function Deposited(initial: map<int, int>, steps: seq<Step>, user: int): int
    requires user in initial
  {
    if steps == [] then initial[user]
    else
      var last := steps[|steps| - 1];
      Deposited(initial, steps[..|steps| - 1], user)
      + if last.TopUp? && last.user == user then last.amount else 0
  }

  // Only top-ups move the deposits.
  lemma DepositsKept(cfg: Config, s: State, step: Step)
    requires Enabled(cfg, s, step) && !step.TopUp?
    ensures Apply(cfg, s, step).hist.deposits == s.hist.deposits
  {
    hide Enabled, Apply;
    StepShape(cfg, s, step);
  }

  lemma DepositsMove(cfg: Config, s: State, step: Step, user: int)
    requires Enabled(cfg, s, step) && user in s.hist.deposits
    ensures var d := Apply(cfg, s, step).hist.deposits;
            user in d && d[user] == s.hist.deposits[user] + if step.TopUp? && step.user == user then step.amount else 0
  {
    if !step.TopUp? {
      hide Enabled, Apply;
      DepositsKept(cfg, s, step);
    }
  }

  lemma {:induction false} DepositsAre(cfg: Config, ss: seq<State>, steps: seq<Step>, i: nat, user: int)
    requires IsExecution(cfg, ss, steps) && i < |ss| && user in ss[0].db.users
    ensures user in ss[i].hist.deposits && ss[i].hist.deposits[user] == Deposited(ss[0].db.users, steps[..i], user)
  {
    hide Enabled, Apply;
    if i != 0 {
      DepositsAre(cfg, ss, steps, i - 1, user);
      DepositsMove(cfg, ss[i - 1], steps[i - 1], user);
      assert steps[..i][..i - 1] == steps[..i - 1];
    }
  }

  /** Money is conserved: balance plus what all messages of the user cost is what was deposited plus
      what was refunded, in every reachable state; and no balance is ever negative. */
  lemma MoneyConserved(cfg: Config, ss: seq<State>, steps: seq<Step>, i: nat, user: int)
    requires IsExecution(cfg, ss, steps) && i < |ss| && user in ss[0].db.users
    ensures user in ss[i].db.users && 0 <= ss[i].db.users[user]
    ensures ss[i].db.users[user] + Spent(Contents(ss[i].db.messages), user)
         == Deposited(ss[0].db.users, steps[..i], user) + Refunded(ss[i].hist.refunds, user)
  {
    hide Enabled, Apply;
    ExecutionKeeps(cfg, ss, steps, i);
    DepositsAre(cfg, ss, steps, i, user);
  }

  // ---- refunds ----

  function RefundIds(refunds: seq<Refund>): seq<int> {
    seq(|refunds|, i requires 0 <= i < |refunds| => refunds[i].messageId)
  }

  lemma {:induction false} DistinctCounts(xs: seq<int>, x: int)
    requires forall i, j :: 0 <= i < j < |xs| ==> xs[i] != xs[j]
    ensures multiset(xs)[x] == if x in xs then 1 else 0
  {
    if xs != [] {
      var n := |xs| - 1;
      DistinctCounts(xs[..n], x);
      assert xs == xs[..n] + [xs[n]];
      if x == xs[n] {
        assert x !in xs[..n];
      }
    }
  }

  /** A message is refunded at most once, a refunded message is sent or failed, and the error code
      outbox_exhausted means exactly one refund, of the full cost and to the owner. */
  lemma RefundedAtMostOnce(cfg: Config, ss: seq<State>, steps: seq<Step>, i: nat, m: int)
    requires IsExecution(cfg, ss, steps) && i < |ss|
    ensures var s, ids := ss[i], RefundIds(ss[i].hist.refunds);
            && multiset(ids)[m] <= 1
            && (m in ids ==> m in s.db.messages
                             && (s.db.messages[m].status == MessageSent || s.db.messages[m].status == MessageFailed))
            && (m in s.db.messages && s.db.messages[m].errorCode == Some(OutboxExhausted) ==> multiset(ids)[m] == 1)
    ensures forall r :: r in ss[i].hist.refunds ==>
              r.messageId in ss[i].db.messages
              && r.userId == ss[i].db.messages[r.messageId].userId && r.amount == ss[i].db.messages[r.messageId].cost
  {
    hide Enabled, Apply;
    ExecutionKeeps(cfg, ss, steps, i);
    var refunds := ss[i].hist.refunds;
    var ids := RefundIds(refunds);
    DistinctCounts(ids, m);
    if IsRefunded(refunds, m) {
      var k :| 0 <= k < |refunds| && refunds[k].messageId == m;
      assert ids[k] == m;
    }
  }

  /** The set {sent, failed} is closed: a terminal message is terminal ever after. */
  lemma TerminalForever(cfg: Config, ss: seq<State>, steps: seq<Step>, i: nat, j: nat, m: int)
    requires IsRun(cfg, ss, steps) && i <= j < |ss|
    requires m in ss[i].db.messages
    requires ss[i].db.messages[m].status == MessageSent || ss[i].db.messages[m].status == MessageFailed
    ensures m in ss[j].db.messages
    ensures ss[j].db.messages[m].status == MessageSent || ss[j].db.messages[m].status == MessageFailed
    ensures ContentOf(ss[j].db.messages[m]) == ContentOf(ss[i].db.messages[m])
  {
    hide Enabled, Apply;
    RunProgress(cfg, ss, steps, i, j);
  }

  // ---- nothing is forgotten ----

  /** A message that is neither sent nor failed still has work waiting for it: its outbox event is
      pending or publishing, or a record of it is in the log and not acknowledged. */
  lemma NotForgotten(cfg: Config, ss: seq<State>, steps: seq<Step>, i: nat, m: int)
    requires IsExecution(cfg, ss, steps) && i < |ss|
    requires m in ss[i].db.messages
    requires ss[i].db.messages[m].status != MessageSent && ss[i].db.messages[m].status != MessageFailed
    ensures var s := ss[i];
            || (exists e :: e in s.db.outbox && s.db.outbox[e].aggregateId == m
                            && (s.db.outbox[e].status == OutboxPending || s.db.outbox[e].status == OutboxPublishing))
            || (exists o :: 0 <= o < |s.log| && s.log[o].value.messageId == m && o !in s.acked)
  {
    hide Enabled, Apply;
    ExecutionKeeps(cfg, ss, steps, i);
    var s := ss[i];
    assert m in Contents(s.db.messages);
    assert HasEvent(Headers(s.db.outbox), m);
    var e :| e in Headers(s.db.outbox) && Headers(s.db.outbox)[e].aggregateId == m;
    assert EventOk(s.db.outbox[e], s.db.messages, s.log);
    if s.db.outbox[e].status.OutboxPublished? {
      var o :| 0 <= o < |s.log| && s.log[o].value.messageId == m;
      assert o !in s.acked;
    } else {
      assert Open(s.db.outbox[e]);
    }
  }

  /** An acknowledged record belongs to a message that is terminal, now and ever after. */
  lemma AckedMeansDone(cfg: Config, ss: seq<State>, steps: seq<Step>, i: nat, j: nat, o: nat)
    requires IsExecution(cfg, ss, steps) && i <= j < |ss| && o in ss[i].acked
    ensures o < |ss[i].log|
    ensures var m := ss[i].log[o].value.messageId;
            && m in ss[j].db.messages
            && (ss[j].db.messages[m].status == MessageSent || ss[j].db.messages[m].status == MessageFailed)
  {
    hide Enabled, Apply;
    ExecutionKeeps(cfg, ss, steps, i);
    TerminalForever(cfg, ss, steps, i, j, ss[i].log[o].value.messageId);
  }

  /** A failed event belongs to a terminal message; published and failed events never change again. */
  lemma ClosedEventsStay(cfg: Config, ss: seq<State>, steps: seq<Step>, i: nat, j: nat, e: int)
    requires IsExecution(cfg, ss, steps) && i <= j < |ss|
    requires e in ss[i].db.outbox
    requires ss[i].db.outbox[e].status == OutboxPublished || ss[i].db.outbox[e].status == OutboxFailed
    ensures e in ss[j].db.outbox && ss[j].db.outbox[e].status == ss[i].db.outbox[e].status
    ensures var m := ss[j].db.outbox[e].aggregateId;
            ss[i].db.outbox[e].status == OutboxFailed ==>
              && m in ss[j].db.messages
              && (ss[j].db.messages[m].status == MessageSent || ss[j].db.messages[m].status == MessageFailed)
  {
    hide Enabled, Apply;
    RunProgress(cfg, ss, steps, i, j);
    ExecutionKeeps(cfg, ss, steps, j);
    assert EventOk(ss[j].db.outbox[e], ss[j].db.messages, ss[j].log);
  }

  // ---- idempotency ----

  lemma AnswersHold(cfg: Config, ss: seq<State>, steps: seq<Step>, i: nat, a: Answer)
    requires IsExecution(cfg, ss, steps) && i < |ss| && a in ss[i].hist.answers
    ensures AnswerOk(ss[i].db.requests, ss[i].db.users.Keys, a) && Unique(ss[i].db.requests)
  {
    hide Enabled, Apply;
    ExecutionKeeps(cfg, ss, steps, i);
    var k :| 0 <= k < |ss[i].hist.answers| && ss[i].hist.answers[k] == a;
    assert AnswerOk(ss[i].db.requests, ss[i].db.users.Keys, ss[i].hist.answers[k]);
  }

  /** All successful answers for one key, over a whole run, are the same answer to the same body. */
  lemma SuccessesAgree(cfg: Config, ss: seq<State>, steps: seq<Step>, i: nat, a: Answer, b: Answer)
    requires IsExecution(cfg, ss, steps) && i < |ss|
    requires a in ss[i].hist.answers && b in ss[i].hist.answers
    requires a.cmd.userId == b.cmd.userId && a.cmd.key == b.cmd.key
    requires a.reply.Success? && b.reply.Success?
    ensures a.reply.result == b.reply.result && a.cmd.otp == b.cmd.otp && a.cmd.text == b.cmd.text
  {
    hide Enabled, Apply;
    AnswersHold(cfg, ss, steps, i, a);
    AnswersHold(cfg, ss, steps, i, b);
    var requests := ss[i].db.requests;
    var x :| BoundAt(requests, x, a.cmd.userId, a.cmd.key, PayloadHash(a.cmd), a.reply.result);
    var y :| BoundAt(requests, y, b.cmd.userId, b.cmd.key, PayloadHash(b.cmd), b.reply.result);
    assert x == y;
  }

  /** One key, two bodies: they never both succeed, and a conflict is only ever answered when
      the key is taken by another body. */
  lemma ConflictMeansOtherBody(cfg: Config, ss: seq<State>, steps: seq<Step>, i: nat, a: Answer)
    requires IsExecution(cfg, ss, steps) && i < |ss| && a in ss[i].hist.answers
    ensures a.reply.Conflict? ==>
              exists id :: Matches(ss[i].db.requests, id, a.cmd.userId, a.cmd.key)
                           && ss[i].db.requests[id].hash != PayloadHash(a.cmd)
    ensures !a.reply.InsufficientFunds?
  {
    hide Enabled, Apply;
    AnswersHold(cfg, ss, steps, i, a);
    if a.reply.Conflict? {
      var id :| ClashAt(ss[i].db.requests, id, a.cmd.userId, a.cmd.key, PayloadHash(a.cmd));
      assert Matches(ss[i].db.requests, id, a.cmd.userId, a.cmd.key);
    }
  }

  /** At most one request a key, and it is never changed afterwards. */
  lemma OneRequestPerKey(cfg: Config, ss: seq<State>, steps: seq<Step>, i: nat, j: nat, x: int, y: int, user: int,
                         key: string)
    requires IsExecution(cfg, ss, steps) && i <= j < |ss|
    requires Matches(ss[i].db.requests, x, user, key) && Matches(ss[j].db.requests, y, user, key)
    ensures x == y && ss[j].db.requests[x] == ss[i].db.requests[x]
  {
    hide Enabled, Apply;
    ExecutionKeeps(cfg, ss, steps, j);
    RunProgress(cfg, ss, steps, i, j);
    assert Matches(ss[j].db.requests, x, user, key);
  }

  /** Once a key is taken, no call with that key ever debits or inserts again, whatever its body,
      however its check and its transaction interleave with others. */
  lemma TakenKeyChangesNothing(cfg: Config, ss: seq<State>, steps: seq<Step>, i: nat, j: nat)
    requires IsExecution(cfg, ss, steps) && i <= j < |steps| && steps[j].Persist?
    requires steps[j].pid in ss[j].sends
    requires var cmd := ss[j].sends[steps[j].pid].cmd; HasRequest(ss[i].db.requests, cmd.userId, cmd.key)
    ensures ss[j + 1].db == ss[j].db
  {
    RunProgress(cfg, ss, steps, i, j);
    var cmd := ss[j].sends[steps[j].pid].cmd;
    var id :| Matches(ss[i].db.requests, id, cmd.userId, cmd.key);
    assert Matches(ss[j].db.requests, id, cmd.userId, cmd.key);
  }

  /** A key taken by one body: a call with another body is answered with a conflict, unless it ends in an
      error of the infrastructure, and its lookup in the database, wherever it happens, is a conflict. */
  lemma OtherBodyConflicts(cfg: Config, ss: seq<State>, steps: seq<Step>, i: nat, j: nat, id: int, cmd: SendRequest)
    requires IsExecution(cfg, ss, steps) && i <= j < |ss|
    requires Matches(ss[i].db.requests, id, cmd.userId, cmd.key) && ss[i].db.requests[id].hash != PayloadHash(cmd)
    ensures Load(ss[j].db.requests, cmd.userId, cmd.key, PayloadHash(cmd)).Mismatch?
    ensures forall a :: a in ss[j].hist.answers && a.cmd == cmd ==> a.reply.Conflict? || a.reply.Broken?
  {
    hide Enabled, Apply;
    ExecutionKeeps(cfg, ss, steps, j);
    RunProgress(cfg, ss, steps, i, j);
    StoredComplete(cfg, ss[j]);
    LoadMeaning(cfg, ss[j].db.requests, cmd.userId, cmd.key, PayloadHash(cmd));
    assert ClashAt(ss[j].db.requests, id, cmd.userId, cmd.key, PayloadHash(cmd));
    forall a | a in ss[j].hist.answers && a.cmd == cmd ensures a.reply.Conflict? || a.reply.Broken? {
      AnswersHold(cfg, ss, steps, j, a);
    }
  }

  // resolveIdempotent on one state: the cache, and on a miss or a Redis error the database.
  ghost function Resolve(s: State, user: int, key: string, hash: Hash, broken: bool): Lookup {
    if !broken && CacheHit(s.cache, user, key, hash) then Hit(s.cache[(user, key)].result)
    else Load(s.db.requests, user, key, hash)
  }

  /** The cache is invisible: with it or without it, the lookup gives the same. */
  lemma CacheInvisible(cfg: Config, ss: seq<State>, steps: seq<Step>, i: nat, user: int, key: string, hash: Hash,
                       broken: bool)
    requires IsExecution(cfg, ss, steps) && i < |ss| && hash != NoHash
    ensures Resolve(ss[i], user, key, hash, broken) == Load(ss[i].db.requests, user, key, hash)
  {
    hide Enabled, Apply;
    ExecutionKeeps(cfg, ss, steps, i);
    var s := ss[i];
    StoredComplete(cfg, s);
    LoadMeaning(cfg, s.db.requests, user, key, hash);
    if CacheHit(s.cache, user, key, hash) {
      var entry := s.cache[(user, key)];
      assert Bound(s.db.requests, user, key, entry.hash, entry.result);
    }
  }

  /** After a unique conflict the very first poll finds the winner's answer or a mismatch. */
  lemma PollNeverMisses(cfg: Config, ss: seq<State>, steps: seq<Step>, i: nat, pid: int)
    requires IsExecution(cfg, ss, steps) && i < |ss| && pid in ss[i].sends && ss[i].sends[pid].Polling?
    ensures var cmd := ss[i].sends[pid].cmd;
            !Load(ss[i].db.requests, cmd.userId, cmd.key, PayloadHash(cmd)).Miss?
  {
    hide Enabled, Apply;
    ExecutionKeeps(cfg, ss, steps, i);
    FirstPollAnswers(cfg, ss[i], pid);
  }

  // ---- one SMS ----

  function SmsIds(sms: seq<Sms>): seq<int> {
    seq(|sms|, i requires 0 <= i < |sms| => sms[i].messageId)
  }

  /** With a provider that deduplicates by key at most one SMS leaves per message, with the recipient
      and text of its row; and a message is marked sent only when exactly one left. */
  lemma OneSmsPerMessage(cfg: Config, ss: seq<State>, steps: seq<Step>, i: nat, m: int)
    requires IsExecution(cfg, ss, steps) && i < |ss|
    ensures var s, ids := ss[i], SmsIds(ss[i].sms);
            && multiset(ids)[m] <= 1
            && (m in s.db.messages && s.db.messages[m].status.MessageSent? ==> multiset(ids)[m] == 1)
    ensures forall x :: x in ss[i].sms ==>
              x.messageId in ss[i].db.messages
              && x.recipient == ss[i].db.messages[x.messageId].recipient
              && x.text == ss[i].db.messages[x.messageId].text
  {
    hide Enabled, Apply, RowsOk, MoneyOk, RefundsOk, LogOk, OutboxOk, ApiOk;
    ExecutionKeeps(cfg, ss, steps, i);
    var s := ss[i];
    var ids := SmsIds(s.sms);
    DistinctCounts(ids, m);
    if m in s.db.messages && s.db.messages[m].status.MessageSent? {
      assert KeyOf(m) in s.seen;
      var k :| 0 <= k < |s.sms| && s.sms[k].key == KeyOf(m);
      Provider.KeyInjective(s.sms[k].messageId, m);
      assert ids[k] == m;
    }
    forall x | x in s.sms
      ensures x.messageId in s.db.messages
              && x.recipient == s.db.messages[x.messageId].recipient && x.text == s.db.messages[x.messageId].text
    {
      var k :| 0 <= k < |s.sms| && s.sms[k] == x;
      assert Contents(s.db.messages)[x.messageId] == ContentOf(s.db.messages[x.messageId]);
    }
  }

  // ---- publishing ----

  function CallsFor(publishes: seq<Claim>, e: int): seq<int> {
    if publishes == [] then []
    else
      var last := publishes[|publishes| - 1];
      CallsFor(publishes[..|publishes| - 1], e) + if last.event == e then [last.attempt] else []
  }

  lemma {:induction false} CallsAreDistinct(publishes: seq<Claim>, e: int, n: nat)
    requires forall i, j :: 0 <= i < j < |publishes| ==> publishes[i] != publishes[j]
    requires forall i :: 0 <= i < |publishes| ==> 1 <= publishes[i].attempt <= n
    ensures forall i :: 0 <= i < |CallsFor(publishes, e)| ==>
              Claim(e, CallsFor(publishes, e)[i]) in publishes && 1 <= CallsFor(publishes, e)[i] <= n
    ensures forall i, j :: 0 <= i < j < |CallsFor(publishes, e)| ==>
              CallsFor(publishes, e)[i] != CallsFor(publishes, e)[j]
  {
    if publishes != [] {
      var k := |publishes| - 1;
      var calls := CallsFor(publishes[..k], e);
      var last := publishes[k];
      assert publishes == publishes[..k] + [last];
      CallsAreDistinct(publishes[..k], e, n);
      if last.event == e {
        assert last == Claim(e, last.attempt);
        assert CallsFor(publishes, e) == calls + [last.attempt];
        assert last !in publishes[..k];
      } else {
        assert CallsFor(publishes, e) == calls;
      }
    }
  }

  lemma {:induction false} Pigeonhole(xs: seq<int>, n: nat)
    requires forall i :: 0 <= i < |xs| ==> 1 <= xs[i] <= n
    requires forall i, j :: 0 <= i < j < |xs| ==> xs[i] != xs[j]
    ensures |xs| <= n
    decreases n
  {
    assert |xs| == 0 || 1 <= xs[0] <= n;
    if k :| 0 <= k < |xs| && xs[k] == n {
      var rest := xs[..k] + xs[k + 1..];
      forall j | 0 <= j < |rest| ensures 1 <= rest[j] <= n - 1 {
        assert rest[j] == if j < k then xs[j] else xs[j + 1];
      }
      Pigeonhole(rest, n - 1);
    } else if n != 0 {
      Pigeonhole(xs, n - 1);
    }
  }

  /** Each event causes at most maxAttempts calls to Publish over a whole run, with any number of
      workers, crashes and takeovers. */
  lemma PublishBound(cfg: Config, ss: seq<State>, steps: seq<Step>, i: nat, e: int)
    requires IsExecution(cfg, ss, steps) && i < |ss|
    ensures |CallsFor(ss[i].hist.publishes, e)| <= cfg.maxAttempts
  {
    hide Enabled, Apply;
    ExecutionKeeps(cfg, ss, steps, i);
    CallsAreDistinct(ss[i].hist.publishes, e, cfg.maxAttempts);
    Pigeonhole(CallsFor(ss[i].hist.publishes, e), cfg.maxAttempts);
  }

  /** Claims of one event carry strictly increasing attempt numbers: a later claim is above every
      claim and every publish call that came before it. */
  lemma AttemptsIncrease(cfg: Config, ss: seq<State>, steps: seq<Step>, i: nat, j: nat, c: Claim, e: int)
    requires IsExecution(cfg, ss, steps) && i <= j < |steps|
    requires c.event == e && (c in ss[i].claims || c in ss[i].hist.publishes)
    requires steps[j].ClaimBatch? && e in steps[j].ids
    ensures e in ss[j].db.outbox && Claim(e, ss[j].db.outbox[e].attempts + 1) in ss[j + 1].claims
    ensures c.attempt < ss[j].db.outbox[e].attempts + 1
  {
    hide RowsOk, MoneyOk, RefundsOk, LogOk, DeliveryStateOk, ProviderOk, ApiOk;
    ExecutionKeeps(cfg, ss, steps, i);
    RunProgress(cfg, ss, steps, i, j);
    if c in ss[i].claims {
      assert ClaimOk(cfg, c, ss[i].claims[c], ss[i].db.outbox, ss[i].log, ss[i].hist.publishes);
    }
    assert Claim(e, ss[j].db.outbox[e].attempts + 1) in ClaimsOf(ss[j].db.outbox, steps[j].ids);
  }

  // ---- the two-statement claim of a message ----

  /** Whatever happens between the UPDATE and the SELECT of ClaimMessageForSending, the SELECT never
      sees a queued row nor a missing one, and a row it calls sent or failed stays terminal. */
  lemma ClaimClassifies(cfg: Config, ss: seq<State>, steps: seq<Step>, i: nat, j: nat, did: int)
    requires IsExecution(cfg, ss, steps) && i <= j < |ss|
    requires AtPhase(ss[i], did) && ss[i].deliveries[did].phase.Checking?
    ensures var id := EventOf(ss[i], did).messageId;
            var outcome := Classify(ss[i].db.messages, id);
            && id in ss[i].db.messages && !ss[i].db.messages[id].status.MessageQueued?
            && !outcome.ClaimNotFound?
            && (outcome == ClaimAlreadySent <==> ss[i].db.messages[id].status == MessageSent)
            && (outcome == ClaimAlreadyFailed <==> ss[i].db.messages[id].status == MessageFailed)
            && (outcome == ClaimInFlight <==> ss[i].db.messages[id].status == MessageSending)
            && (outcome == ClaimAlreadySent || outcome == ClaimAlreadyFailed ==>
                  && id in ss[j].db.messages
                  && (ss[j].db.messages[id].status == MessageSent || ss[j].db.messages[id].status == MessageFailed))
  {
    hide Enabled, Apply;
    ExecutionKeeps(cfg, ss, steps, i);
    assert DeliveryOk(ss[i].deliveries[did], ss[i].log, ss[i].db.messages, ss[i].seen);
    var id := EventOf(ss[i], did).messageId;
    if Terminal(ss[i].db.messages[id]) { TerminalForever(cfg, ss, steps, i, j, id); }
  }

  // ---- requests and their rows ----

  function RowsOf(contents: map<int, Content>, request: int): map<int, int> {
    map m | m in contents && contents[m].requestId == request :: contents[m].cost
  }

  lemma {:induction false} DistinctSetSize<T>(xs: seq<T>, s: set<T>)
    requires forall i, j :: 0 <= i < j < |xs| ==> xs[i] != xs[j]
    requires forall x :: x in s <==> x in xs
    ensures |s| == |xs|
  {
    if xs == [] {
      assert s == {};
    } else {
      var n := |xs| - 1;
      assert xs == xs[..n] + [xs[n]];
      assert xs[n] !in xs[..n];
      DistinctSetSize(xs[..n], s - {xs[n]});
    }
  }

  // The lines of a stored answer are its message rows, each once, as they were when they were queued.
  ghost predicate LineIsRow(line: MessageResult, row: Message, request: int) {
    && row.requestId == request
    && line.recipient == row.recipient && line.kind == row.kind && line.mode == row.mode && line.text == row.text
    && line.cost == row.cost && line.status == MessageQueued && line.errorCode == None
  }

  ghost predicate LinesAreRows(messages: map<int, Message>, request: int, lines: seq<MessageResult>) {
    && (forall i :: 0 <= i < |lines| ==>
          lines[i].id in messages && LineIsRow(lines[i], messages[lines[i].id], request))
    && (forall i, j :: 0 <= i < j < |lines| ==> lines[i].id != lines[j].id)
    && (forall m :: m in messages && messages[m].requestId == request ==> IsLine(lines, m))
  }

  lemma LinesAre(messages: map<int, Message>, request: int, lines: seq<MessageResult>)
    requires LinesAgree(request, lines, Contents(messages))
    ensures LinesAreRows(messages, request, lines)
  {
    forall i | 0 <= i < |lines|
      ensures lines[i].id in messages && LineIsRow(lines[i], messages[lines[i].id], request)
    {
      assert LineOk(request, lines[i], Contents(messages));
    }
    forall m | m in messages && messages[m].requestId == request ensures IsLine(lines, m) {
      assert m in Contents(messages);
    }
  }

  /** The totals of a stored request and its stored answer are those of its message rows, and the lines of
      the answer are those rows, each exactly once. */
  lemma TotalsAgree(cfg: Config, ss: seq<State>, steps: seq<Step>, i: nat, r: int)
    requires IsExecution(cfg, ss, steps) && i < |ss| && r in ss[i].db.requests
    ensures var q := ss[i].db.requests[r];
            var rows := RowsOf(Contents(ss[i].db.messages), r);
            && q.response.Some? && q.response.value.requestId == r
            && q.accepted == q.response.value.acceptedCount == |rows|
            && q.totalCost == q.response.value.totalCost == Sum(rows)
            && |q.response.value.messages| == |rows|
            && LinesAreRows(ss[i].db.messages, r, q.response.value.messages)
  {
    hide Enabled, Apply, MoneyOk, RefundsOk, LogOk, OutboxOk, DeliveryStateOk, ProviderOk, ApiOk, LinesAreRows,
         LinesAgree;
    ExecutionKeeps(cfg, ss, steps, i);
    var contents := Contents(ss[i].db.messages);
    assert RequestOk(cfg, r, ss[i].db.requests[r], contents);
    var lines := ss[i].db.requests[r].response.value.messages;
    LinesAre(ss[i].db.messages, r, lines);
    RowsCount(cfg, contents, r, lines);
  }

  lemma RowsCount(cfg: Config, contents: map<int, Content>, r: int, lines: seq<MessageResult>)
    requires LinesAgree(r, lines, contents) && (forall m :: m in contents ==> contents[m].cost == cfg.smsCost)
    ensures var rows := RowsOf(contents, r); |rows| == |lines| && Sum(rows) == |lines| * cfg.smsCost
  {
    var rows := RowsOf(contents, r);
    var ids := seq(|lines|, k requires 0 <= k < |lines| => lines[k].id);
    forall m ensures m in rows.Keys <==> m in ids {
      if m in rows.Keys {
        assert IsLine(lines, m);
        var k :| 0 <= k < |lines| && lines[k].id == m;
        assert ids[k] == m;
      }
      if m in ids {
        var k :| 0 <= k < |ids| && ids[k] == m;
        assert LineOk(r, lines[k], contents);
      }
    }
    DistinctSetSize(ids, rows.Keys);
    SumConstant(rows, cfg.smsCost);
  }

  // Every column that an event or a record copies from its message.
  ghost predicate Carries(cfg: Config, m: Message, id: int, topic: string, key: string, value: SmsEvent) {
    && topic == (if m.mode == Express then cfg.topicExpress else cfg.topicNormal)
    && key == m.recipient
    && value.messageId == id && value.requestId == m.requestId && value.userId == m.userId
    && value.recipient == m.recipient && value.text == m.text && value.kind == m.kind && value.mode == m.mode
    && value.cost == m.cost
  }

  ghost predicate EventCarries(cfg: Config, messages: map<int, Message>, e: OutboxEvent) {
    && e.aggregateId in messages
    && Carries(cfg, messages[e.aggregateId], e.aggregateId, e.topic, e.partitionKey, e.payload)
  }

  ghost predicate RecordCarries(cfg: Config, messages: map<int, Message>, r: Record) {
    && r.value.messageId in messages
    && Carries(cfg, messages[r.value.messageId], r.value.messageId, r.topic, r.key, r.value)
  }

  /** Messages and outbox events are in bijection. Express messages are on the express topic and all others on the
      normal one, in the outbox and in the log, keyed by their recipient, with every field of the payload. */
  lemma EventsMirrorMessages(cfg: Config, ss: seq<State>, steps: seq<Step>, i: nat)
    requires IsExecution(cfg, ss, steps) && i < |ss|
    ensures var s := ss[i];
            && (forall m :: m in s.db.messages ==> exists e :: e in s.db.outbox && s.db.outbox[e].aggregateId == m)
            && (forall e, f :: e in s.db.outbox && f in s.db.outbox && e != f ==>
                  s.db.outbox[e].aggregateId != s.db.outbox[f].aggregateId)
            && (forall e :: e in s.db.outbox ==> EventCarries(cfg, s.db.messages, s.db.outbox[e]))
            && (forall o :: 0 <= o < |s.log| ==> RecordCarries(cfg, s.db.messages, s.log[o]))
  {
    hide Init, Enabled, Apply, MoneyOk, RefundsOk, OutboxOk, DeliveryStateOk, ProviderOk, ApiOk;
    ExecutionKeeps(cfg, ss, steps, i);
    var s := ss[i];
    var h, c := Headers(s.db.outbox), Contents(s.db.messages);
    forall m | m in s.db.messages ensures exists e :: e in s.db.outbox && s.db.outbox[e].aggregateId == m {
      assert m in c && HasEvent(h, m);
      var e :| e in h && h[e].aggregateId == m;
      assert s.db.outbox[e].aggregateId == m;
    }
    forall e, f | e in s.db.outbox && f in s.db.outbox && e != f
      ensures s.db.outbox[e].aggregateId != s.db.outbox[f].aggregateId
    {
      assert h[e].aggregateId != h[f].aggregateId;
    }
    forall e | e in s.db.outbox ensures EventCarries(cfg, s.db.messages, s.db.outbox[e]) {
      assert HeaderOk(cfg, h[e], c);
    }
    forall o | 0 <= o < |s.log| ensures RecordCarries(cfg, s.db.messages, s.log[o]) {
      assert s.log[o] == RecordFor(EventRow(cfg, s.log[o].value.messageId, c[s.log[o].value.messageId]));
    }
  }
}
