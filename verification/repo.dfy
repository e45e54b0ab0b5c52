/** The repository over Postgres: one method a query. A Fate parameter is the database's answer to a
    write, a broken flag its answer to a read or to a statement inside a transaction. */
module Repository {
  import opened Domain
  import opened Sums
  import opened Tables
  import Protocol

  datatype RepoError = ErrNotFound | ErrInsufficientBalance | ErrConflict | ErrDb

  datatype Result<+T> = Ok(value: T) | Err(error: RepoError)

  datatype ClaimedEvent = ClaimedEvent(id: int, row: OutboxEvent)

  const DEFAULT_CLAIM_LIMIT := 50

  // ORDER BY CASE WHEN topic = preferTopic THEN 0 ELSE 1 END, id
  predicate Precedes(outbox: map<int, OutboxEvent>, preferTopic: string, a: int, b: int)
    requires a in outbox && b in outbox
  {
    var x, y := outbox[a].topic == preferTopic, outbox[b].topic == preferTopic;
    if x != y then x else a < b
  }

  function Eligible(outbox: map<int, OutboxEvent>, now: int, staleAfter: int, locked: set<int>): set<int> {
    set id | id in outbox && ClaimableAfter(outbox[id], now, staleAfter) && id !in locked
  }

  // ORDER BY ... LIMIT: as many as allowed, and none left out precedes one taken.
  ghost predicate IsBatch(outbox: map<int, OutboxEvent>, eligible: set<int>, preferTopic: string, limit: nat,
                          ids: set<int>)
    requires eligible <= outbox.Keys
  {
    && ids <= eligible
    && |ids| == (if limit < |eligible| then limit else |eligible|)
    && forall a, b :: a in ids && b in eligible - ids ==> Precedes(outbox, preferTopic, a, b)
  }

  lemma SubsetSize<T>(a: set<T>, b: set<T>)
    requires a <= b && |a| == |b|
    ensures a == b
  {
    assert b == a + (b - a);
  }

  lemma NoRest<T>(a: set<T>, b: set<T>)
    requires a - b == {}
    ensures a <= b
  {
    assert forall x :: x in a && x !in b ==> x in a - b;
  }

  lemma Asymmetric(outbox: map<int, OutboxEvent>, preferTopic: string, a: int, b: int)
    requires a in outbox && b in outbox && a != b
    ensures Precedes(outbox, preferTopic, a, b) <==> !Precedes(outbox, preferTopic, b, a)
  {
  }

  /** The batch is determined: an event of the preferred topic is never left behind for another one. */
  lemma BatchUnique(outbox: map<int, OutboxEvent>, eligible: set<int>, preferTopic: string, limit: nat,
                    x: set<int>, y: set<int>)
    requires eligible <= outbox.Keys
    requires IsBatch(outbox, eligible, preferTopic, limit, x) && IsBatch(outbox, eligible, preferTopic, limit, y)
    ensures x == y
  {
    if x - y != {} && y - x != {} {
      var a, b := Pick(x - y), Pick(y - x);
      Asymmetric(outbox, preferTopic, a, b);
    } else if x - y == {} {
      assert x <= y by { NoRest(x, y); }
      SubsetSize(x, y);
    } else {
      assert y <= x by { NoRest(y, x); }
      SubsetSize(y, x);
    }
  }

  // The order of the claim, spelled out: the preferred topic first, then by identifier.
  ghost predicate TakesFirst(outbox: map<int, OutboxEvent>, eligible: set<int>, preferTopic: string, ids: set<int>)
    requires ids <= eligible <= outbox.Keys
  {
    && (forall a, b :: a in ids && b in eligible - ids && outbox[b].topic == preferTopic ==>
          outbox[a].topic == preferTopic)
    && (forall a, b :: a in ids && b in eligible - ids ==>
          ((outbox[a].topic == preferTopic <==> outbox[b].topic == preferTopic) ==> a < b))
  }

  /** An eligible event of the preferred topic is left behind only by a batch of that topic alone; among events
      both on it or both off it the smaller identifiers are taken. */
  lemma PreferredFirst(outbox: map<int, OutboxEvent>, eligible: set<int>, preferTopic: string, limit: nat,
                       ids: set<int>)
    requires eligible <= outbox.Keys
    ensures IsBatch(outbox, eligible, preferTopic, limit, ids) <==>
              ids <= eligible && |ids| == (if limit < |eligible| then limit else |eligible|)
              && TakesFirst(outbox, eligible, preferTopic, ids)
  {
    if ids <= eligible && TakesFirst(outbox, eligible, preferTopic, ids) {
      forall a, b | a in ids && b in eligible - ids ensures Precedes(outbox, preferTopic, a, b) {}
    }
    if IsBatch(outbox, eligible, preferTopic, limit, ids) {
      forall a, b | a in ids && b in eligible - ids
        ensures Precedes(outbox, preferTopic, a, b) && a != b {}
    }
  }

  method PickAny<T>(s: set<T>) returns (x: T)
    requires s != {}
    ensures x in s
  {
    x :| x in s;
  }

  method First(outbox: map<int, OutboxEvent>, preferTopic: string, s: set<int>) returns (best: int)
    requires s != {} && s <= outbox.Keys
    ensures best in s
    ensures forall x :: x in s && x != best ==> Precedes(outbox, preferTopic, best, x)
  {
    best := PickAny(s);
    var todo := s - {best};
    while todo != {}
      invariant todo <= s && best in s && best !in todo
      invariant forall x :: x in s && x !in todo && x != best ==> Precedes(outbox, preferTopic, best, x)
      decreases |todo|
    {
      var x := PickAny(todo);
      todo := todo - {x};
      if Precedes(outbox, preferTopic, x, best) { best := x; }
    }
  }

  function EventIds(events: seq<ClaimedEvent>): set<int> {
    set i | 0 <= i < |events| :: events[i].id
  }

  // Each claimed row is returned once, as the UPDATE leaves it.
  ghost predicate AreRows(outbox: map<int, OutboxEvent>, now: int, events: seq<ClaimedEvent>) {
    && (forall i :: 0 <= i < |events| ==>
          events[i].id in outbox && events[i].row == ClaimedRow(outbox[events[i].id], now))
    && (forall i, j :: 0 <= i < j < |events| ==> events[i].id != events[j].id)
  }

  lemma OneMoreRow(outbox: map<int, OutboxEvent>, now: int, events: seq<ClaimedEvent>, id: int)
    requires AreRows(outbox, now, events) && id in outbox && id !in EventIds(events)
    ensures AreRows(outbox, now, events + [ClaimedEvent(id, ClaimedRow(outbox[id], now))])
    ensures EventIds(events + [ClaimedEvent(id, ClaimedRow(outbox[id], now))]) == EventIds(events) + {id}
  {
    var more := events + [ClaimedEvent(id, ClaimedRow(outbox[id], now))];
    assert forall i :: 0 <= i < |events| ==> more[i] == events[i] && events[i].id in EventIds(events);
    assert more[|events|].id == id;
  }

  // The common table expression, and the rows the UPDATE will return.
  method SelectBatch(outbox: map<int, OutboxEvent>, eligible: set<int>, preferTopic: string, limit: nat, now: int)
    returns (events: seq<ClaimedEvent>)
    requires eligible <= outbox.Keys
    ensures IsBatch(outbox, eligible, preferTopic, limit, EventIds(events)) && AreRows(outbox, now, events)
  {
    hide AreRows, EventIds, Precedes, ClaimedRow;
    var rest := eligible;
    events := [];
    ghost var taken := {};
    EmptyRows(outbox, now);
    while |events| < limit && rest != {}
      invariant rest == eligible - taken && taken <= eligible && |taken| == |events| <= limit
      invariant taken == EventIds(events) && AreRows(outbox, now, events)
      invariant forall a, b :: a in taken && b in rest ==> Precedes(outbox, preferTopic, a, b)
      decreases |rest|
    {
      var id := First(outbox, preferTopic, rest);
      OneMoreRow(outbox, now, events, id);
      events := events + [ClaimedEvent(id, ClaimedRow(outbox[id], now))];
      taken, rest := taken + {id}, rest - {id};
    }
    assert eligible == taken + rest;
    assert rest == {} ==> taken == eligible;
  }

  lemma EmptyRows(outbox: map<int, OutboxEvent>, now: int)
    ensures AreRows(outbox, now, []) && EventIds([]) == {}
  {
  }

  // A transaction works on its own copy of the tables; only Commit makes it visible.
  class Tx {
    var db: Db

    constructor (snapshot: Db)
      ensures db == snapshot
    {
      db := snapshot;
    }
  }

  class Repo {
    var users: map<int, int>
    var requests: map<int, Request>
    var messages: map<int, Message>
    var outbox: map<int, OutboxEvent>
    // BIGSERIAL counters; they do not roll back.
    var requestIds: int
    var messageIds: int
    var outboxIds: int
    var now: int

    ghost function Snapshot(): Db
      reads this
    {
      Db(users, requests, messages, outbox)
    }

    // The counters are ahead of every row.
    ghost predicate Valid()
      reads this
    {
      && 0 < requestIds && 0 < messageIds && 0 < outboxIds
      && (forall id :: id in requests ==> id < requestIds)
      && (forall id :: id in messages ==> id < messageIds)
      && (forall id :: id in outbox ==> id < outboxIds)
    }

    constructor (balances: map<int, int>)
      ensures Valid() && Snapshot() == Db(balances, map[], map[], map[]) && now == 0
    {
      users, requests, messages, outbox := balances, map[], map[], map[];
      requestIds, messageIds, outboxIds, now := 1, 1, 1, 0;
    }

    // ---- requests ----

    method FindRequestByIdempotency(userId: int, key: string, broken: bool) returns (r: Result<Request>)
      ensures broken ==> r == Err(ErrDb)
      ensures !broken && r.Ok? ==> exists id :: Matches(requests, id, userId, key) && requests[id] == r.value
      ensures !broken && r.Err? ==> r.error.ErrNotFound? && !HasRequest(requests, userId, key)
    {
      if broken { return Err(ErrDb); }
      var todo := requests.Keys;
      while todo != {}
        invariant todo <= requests.Keys
        invariant forall id :: id in requests && id !in todo ==> !Matches(requests, id, userId, key)
        decreases |todo|
      {
        var id := PickAny(todo);
        if requests[id].userId == userId && requests[id].key == key {
          assert Matches(requests, id, userId, key);
          return Ok(requests[id]);
        }
        todo := todo - {id};
      }
      r := Err(ErrNotFound);
    }

    // ---- the send transaction ----

    method Begin() returns (tx: Tx)
      ensures fresh(tx) && tx.db == Snapshot()
    {
      tx := new Tx(Db(users, requests, messages, outbox));
    }

    method Commit(tx: Tx, fate: Fate) returns (ok: bool)
      requires Valid()
      requires forall id :: id in tx.db.requests ==> id < requestIds
      requires forall id :: id in tx.db.messages ==> id < messageIds
      requires forall id :: id in tx.db.outbox ==> id < outboxIds
      modifies this`users, this`requests, this`messages, this`outbox
      ensures Valid() && ok == fate.Done?
      ensures Snapshot() == if fate.Aborted? then old(Snapshot()) else tx.db
    {
      if !fate.Aborted? {
        users, requests, messages, outbox := tx.db.users, tx.db.requests, tx.db.messages, tx.db.outbox;
      }
      ok := fate.Done?;
    }

    method GetBalanceForUpdate(tx: Tx, userId: int, broken: bool) returns (r: Result<int>)
      ensures r == if broken then Err(ErrDb)
                   else if userId in tx.db.users then Ok(tx.db.users[userId]) else Err(ErrNotFound)
    {
      if broken { return Err(ErrDb); }
      if userId in tx.db.users { r := Ok(tx.db.users[userId]); } else { r := Err(ErrNotFound); }
    }

    // UPDATE ... WHERE balance >= amount
    method DebitBalance(tx: Tx, userId: int, amount: int, broken: bool) returns (r: Result<()>)
      modifies tx
      ensures var enough := userId in old(tx.db).users && amount <= old(tx.db).users[userId];
              && r == (if amount <= 0 then Ok(()) else if broken then Err(ErrDb)
                       else if enough then Ok(()) else Err(ErrInsufficientBalance))
              && tx.db == if 0 < amount && !broken && enough
                          then old(tx.db).(users := AddBalance(old(tx.db).users, userId, -amount))
                          else old(tx.db)
    {
      if amount <= 0 { return Ok(()); }
      if broken { return Err(ErrDb); }
      if userId !in tx.db.users || tx.db.users[userId] < amount { return Err(ErrInsufficientBalance); }
      tx.db := tx.db.(users := tx.db.users[userId := tx.db.users[userId] - amount]);
      r := Ok(());
    }

    // INSERT under the unique index on (user_id, idempotency_key)
    method CreateRequest(tx: Tx, request: Request, broken: bool) returns (r: Result<int>)
      modifies tx, this`requestIds
      ensures requestIds == old(requestIds) + 1 && (old(Valid()) ==> Valid())
      ensures broken ==> r == Err(ErrDb)
      ensures !broken ==> r == if HasRequest(old(tx.db).requests, request.userId, request.key) then Err(ErrConflict)
                               else Ok(old(requestIds))
      ensures tx.db == if r.Ok? then old(tx.db).(requests := old(tx.db).requests[r.value := request]) else old(tx.db)
    {
      var id := requestIds;
      requestIds := requestIds + 1;
      if broken { return Err(ErrDb); }
      var todo := tx.db.requests.Keys;
      while todo != {}
        invariant todo <= tx.db.requests.Keys && tx.db == old(tx.db) && requestIds == id + 1
        invariant forall q :: q in tx.db.requests && q !in todo ==>
                    !Matches(tx.db.requests, q, request.userId, request.key)
        decreases |todo|
      {
        var q := PickAny(todo);
        if tx.db.requests[q].userId == request.userId && tx.db.requests[q].key == request.key {
          assert Matches(tx.db.requests, q, request.userId, request.key);
          return Err(ErrConflict);
        }
        todo := todo - {q};
      }
      tx.db := tx.db.(requests := tx.db.requests[id := request]);
      r := Ok(id);
    }

    method UpdateRequestResponse(tx: Tx, id: int, accepted: int, rejected: int, totalCost: int, response: SendResult,
                                 broken: bool) returns (r: Result<()>)
      modifies tx
      ensures r == if broken then Err(ErrDb) else Ok(())
      ensures tx.db == if broken || id !in old(tx.db).requests then old(tx.db)
                       else old(tx.db).(requests := old(tx.db).requests[id := old(tx.db).requests[id].(
                              accepted := accepted, rejected := rejected, totalCost := totalCost,
                              response := Some(response))])
    {
      if broken { return Err(ErrDb); }
      if id in tx.db.requests {
        var q := tx.db.requests[id].(accepted := accepted, rejected := rejected, totalCost := totalCost,
                                     response := Some(response));
        tx.db := tx.db.(requests := tx.db.requests[id := q]);
      }
      r := Ok(());
    }

    method CreateMessage(tx: Tx, m: Message, broken: bool) returns (r: Result<int>)
      modifies tx, this`messageIds
      ensures messageIds == old(messageIds) + 1 && (old(Valid()) ==> Valid())
      ensures r == if broken then Err(ErrDb) else Ok(old(messageIds))
      ensures tx.db == if broken then old(tx.db)
                       else old(tx.db).(messages := old(tx.db).messages[old(messageIds) := m.(updatedAt := now)])
    {
      var id := messageIds;
      messageIds := messageIds + 1;
      if broken { return Err(ErrDb); }
      tx.db := tx.db.(messages := tx.db.messages[id := m.(updatedAt := now)]);
      r := Ok(id);
    }

    method CreateOutbox(tx: Tx, e: OutboxEvent, broken: bool) returns (r: Result<int>)
      modifies tx, this`outboxIds
      ensures outboxIds == old(outboxIds) + 1 && (old(Valid()) ==> Valid())
      ensures r == if broken then Err(ErrDb) else Ok(old(outboxIds))
      ensures tx.db == if broken then old(tx.db) else old(tx.db).(outbox := old(tx.db).outbox[old(outboxIds) := e])
    {
      var id := outboxIds;
      outboxIds := outboxIds + 1;
      if broken { return Err(ErrDb); }
      tx.db := tx.db.(outbox := tx.db.outbox[id := e]);
      r := Ok(id);
    }

    // ---- outbox ----

    // locked are the rows other transactions hold: SKIP LOCKED passes over them.
    method ClaimPendingOutbox(limit: int, staleAfter: int, preferTopic: string, locked: set<int>, fate: Fate)
      returns (ok: bool, events: seq<ClaimedEvent>, ghost ids: set<int>)
      requires Valid()
      modifies this`outbox
      ensures Valid() && ok == fate.Done?
      ensures IsBatch(old(outbox), Eligible(old(outbox), now, if staleAfter <= 0 then 60000 else staleAfter, locked),
                      preferTopic, if limit <= 0 then 50 else limit, ids)
      ensures TakesFirst(old(outbox), Eligible(old(outbox), now, if staleAfter <= 0 then 60000 else staleAfter, locked),
                         preferTopic, ids)
      ensures outbox == if fate.Aborted? then old(outbox) else ClaimRows(old(outbox), ids, now)
      ensures !ok ==> events == []
      ensures ok ==> ids == EventIds(events) && AreRows(old(outbox), now, events)
      ensures !fate.Aborted? ==> forall e :: e in ids ==>
                e in outbox && outbox[e] == old(outbox)[e].(status := OutboxPublishing, lockedAt := Some(now),
                                                            attempts := old(outbox)[e].attempts + 1)
    {
      var n := if limit <= 0 then DEFAULT_CLAIM_LIMIT else limit;
      var stale := if staleAfter <= 0 then OUTBOX_CLAIM_STALE_AFTER else staleAfter;
      events := SelectBatch(outbox, Eligible(outbox, now, stale, locked), preferTopic, n, now);
      PreferredFirst(outbox, Eligible(outbox, now, stale, locked), preferTopic, n, EventIds(events));
      var taken := EventIds(events);
      ids := taken;
      if !fate.Aborted? { outbox := ClaimRows(outbox, taken, now); }
      ok := fate.Done?;
      if !ok { events := []; }
    }

    method MarkOutboxPublished(id: int, fate: Fate) returns (ok: bool)
      requires Valid()
      modifies this`outbox
      ensures Valid() && ok == fate.Done?
      ensures outbox == if fate.Aborted? then old(outbox) else Tables.MarkPublished(old(outbox), id, now)
      ensures !fate.Aborted? && id in old(outbox) ==>
                && id in outbox
                && outbox[id] == if old(outbox)[id].status.OutboxPending? || old(outbox)[id].status.OutboxPublishing?
                                 then old(outbox)[id].(status := OutboxPublished, publishedAt := Some(now),
                                                       lastError := None, lockedAt := None)
                                 else old(outbox)[id]
      ensures outbox - {id} == old(outbox) - {id}
    {
      if !fate.Aborted? && id in outbox && (outbox[id].status.OutboxPending? || outbox[id].status.OutboxPublishing?) {
        outbox := outbox[id := outbox[id].(status := OutboxPublished, publishedAt := Some(now), lastError := None,
                                           lockedAt := None)];
      }
      ok := fate.Done?;
    }

    // Three statements in one transaction.
    method FinalizeOutboxExhausted(outboxId: int, messageId: int, errMsg: string, fate: Fate) returns (ok: bool)
      requires Valid()
      modifies this`users, this`messages, this`outbox
      ensures Valid() && ok == fate.Done?
      ensures Snapshot() == if fate.Aborted? then old(Snapshot())
                            else FinalizeExhausted(old(Snapshot()), outboxId, messageId, errMsg, now)
      ensures !fate.Aborted? && outboxId in old(outbox) ==>
                && outboxId in outbox
                && outbox[outboxId] == if old(outbox)[outboxId].status.OutboxPending?
                                          || old(outbox)[outboxId].status.OutboxPublishing?
                                       then old(outbox)[outboxId].(status := OutboxFailed, lastError := Some(errMsg),
                                                                   lockedAt := None)
                                       else old(outbox)[outboxId]
      ensures !fate.Aborted? && messageId in old(messages) ==>
                && messageId in messages
                && messages[messageId] == if old(messages)[messageId].status.MessageQueued?
                                             || old(messages)[messageId].status.MessageSending?
                                          then old(messages)[messageId].(status := MessageFailed,
                                                                         errorCode := Some(OutboxExhausted),
                                                                         updatedAt := now)
                                          else old(messages)[messageId]
      ensures outbox - {outboxId} == old(outbox) - {outboxId} && messages - {messageId} == old(messages) - {messageId}
    {
      if fate.Aborted? { return false; }
      if outboxId in outbox && (outbox[outboxId].status.OutboxPending? || outbox[outboxId].status.OutboxPublishing?) {
        var event := outbox[outboxId].(status := OutboxFailed, lastError := Some(errMsg), lockedAt := None);
        outbox := outbox[outboxId := event];
      }
      if messageId in messages
         && (messages[messageId].status.MessageQueued? || messages[messageId].status.MessageSending?) {
        var message := messages[messageId];
        var userId, cost := message.userId, message.cost;
        messages := messages[messageId := message.(status := MessageFailed, errorCode := Some(OutboxExhausted),
                                                   updatedAt := now)];
        if 0 < cost && userId in users { users := users[userId := users[userId] + cost]; }
      }
      ok := fate.Done?;
    }

    method RecordOutboxFailure(id: int, errMsg: string, fate: Fate) returns (ok: bool)
      requires Valid()
      modifies this`outbox
      ensures Valid() && ok == fate.Done?
      ensures outbox == if fate.Aborted? then old(outbox) else Tables.RecordFailure(old(outbox), id, errMsg)
      ensures !fate.Aborted? && id in old(outbox) ==>
                && id in outbox
                && outbox[id] == if old(outbox)[id].status.OutboxPending? || old(outbox)[id].status.OutboxPublishing?
                                 then old(outbox)[id].(status := OutboxPending, lastError := Some(errMsg),
                                                       lockedAt := None)
                                 else old(outbox)[id]
      ensures outbox - {id} == old(outbox) - {id}
    {
      if !fate.Aborted? && id in outbox && (outbox[id].status.OutboxPending? || outbox[id].status.OutboxPublishing?) {
        outbox := outbox[id := outbox[id].(status := OutboxPending, lastError := Some(errMsg), lockedAt := None)];
      }
      ok := fate.Done?;
    }

    // ---- messages ----

    // The UPDATE of ClaimMessageForSending; n is RowsAffected.
    method TryClaimMessage(id: int, fate: Fate) returns (ok: bool, n: nat)
      requires Valid()
      modifies this`messages
      ensures Valid() && ok == fate.Done?
      ensures messages == if fate.Aborted? then old(messages) else ClaimMessage(old(messages), id, now)
      ensures n == if ClaimableMessage(old(messages), id, now) then 1 else 0
      ensures n == 1 <==> id in old(messages)
                          && (old(messages)[id].status.MessageQueued?
                              || (old(messages)[id].status.MessageSending?
                                  && 120000 < now - old(messages)[id].updatedAt))
      ensures messages == if n == 1 && !fate.Aborted?
                          then old(messages)[id := old(messages)[id].(status := MessageSending, updatedAt := now)]
                          else old(messages)
    {
      n := 0;
      if id in messages
         && (messages[id].status.MessageQueued?
             || (messages[id].status.MessageSending? && messages[id].updatedAt < now - SENDING_STALE_AFTER)) {
        n := 1;
        if !fate.Aborted? { messages := messages[id := messages[id].(status := MessageSending, updatedAt := now)]; }
      }
      ok := fate.Done?;
    }

    // Its SELECT, when the UPDATE matched no row.
    method ClassifyMessage(id: int, broken: bool) returns (r: Result<ClaimOutcome>)
      ensures r == if broken then Err(ErrDb) else Ok(Protocol.Classify(messages, id))
      ensures r.Ok? ==>
                && (r.value == ClaimNotFound <==> id !in messages)
                && (r.value == ClaimAlreadySent <==> id in messages && messages[id].status == MessageSent)
                && (r.value == ClaimAlreadyFailed <==> id in messages && messages[id].status == MessageFailed)
                && (r.value == ClaimInFlight <==> id in messages && messages[id].status != MessageSent
                                                  && messages[id].status != MessageFailed)
    {
      if broken { return Err(ErrDb); }
      if id !in messages { return Ok(ClaimNotFound); }
      match messages[id].status {
        case MessageSent => r := Ok(ClaimAlreadySent);
        case MessageFailed => r := Ok(ClaimAlreadyFailed);
        case MessageSending => r := Ok(ClaimInFlight);
        case _ => r := Ok(ClaimInFlight);
      }
    }

    method MarkMessageSent(id: int, fate: Fate) returns (ok: bool)
      requires Valid()
      modifies this`messages
      ensures Valid() && ok == fate.Done?
      ensures messages == if fate.Aborted? then old(messages) else Tables.MarkSent(old(messages), id, now)
      ensures messages == if fate.Aborted? || id !in old(messages) then old(messages)
                          else old(messages)[id := old(messages)[id].(status := MessageSent, errorCode := None,
                                                                      updatedAt := now)]
    {
      if !fate.Aborted? && id in messages {
        messages := messages[id := messages[id].(status := MessageSent, errorCode := None, updatedAt := now)];
      }
      ok := fate.Done?;
    }

    method MarkMessageFailed(id: int, code: ErrorCode, fate: Fate) returns (ok: bool)
      requires Valid()
      modifies this`messages
      ensures Valid() && ok == fate.Done?
      ensures messages == if fate.Aborted? then old(messages) else Tables.MarkFailed(old(messages), id, code, now)
      ensures messages == if fate.Aborted? || id !in old(messages) then old(messages)
                          else old(messages)[id := old(messages)[id].(status := MessageFailed, errorCode := Some(code),
                                                                      updatedAt := now)]
    {
      if !fate.Aborted? && id in messages {
        messages := messages[id := messages[id].(status := MessageFailed, errorCode := Some(code), updatedAt := now)];
      }
      ok := fate.Done?;
    }
  }
}
