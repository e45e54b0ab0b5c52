/** The send transaction keeps the invariant: it debits what it inserts, and its request, messages,
    outbox events and stored answer agree. */
module Persisting {
  import opened Domain
  import opened Sums
  import opened Tables
  import opened Protocol
  import opened Invariants
  import opened Preservation
  import Plan

  ghost predicate Extends<K, V>(a: map<K, V>, b: map<K, V>) {
    forall k :: k in a ==> k in b && b[k] == a[k]
  }

  // The message rows a transaction inserts: all for one user and one request, at the flat price.
  ghost predicate NewRows(cfg: Config, user: int, requestId: int, rows: seq<Message>) {
    forall i :: 0 <= i < |rows| ==>
      && rows[i].userId == user && rows[i].requestId == requestId && rows[i].cost == cfg.smsCost
      && rows[i].status.MessageQueued? && rows[i].errorCode.None?
  }

  lemma PlannedRows(cfg: Config, cmd: SendRequest, cs: seq<Message>, affordable: nat, requestId: int, now: int)
    requires Plan.AreCandidates(cfg, cmd, cs)
    ensures NewRows(cfg, cmd.userId, requestId, MessageRows(Plan.Split(cs, affordable).payable, requestId, now))
  {
    Plan.PayableContents(cfg, cmd, cs, affordable);
    var payable := Plan.Split(cs, affordable).payable;
    forall i | 0 <= i < |payable| ensures payable[i] in payable {}
  }

  // ---- money ----

  lemma {:induction false} SpentByInsert(cfg: Config, messages: map<int, Message>, mids: seq<int>, rows: seq<Message>,
                                         user: int, requestId: int, u: int)
    requires |mids| == |rows| && Fresh(messages, mids) && NewRows(cfg, user, requestId, rows)
    ensures Spent(Contents(Insert(messages, mids, rows)), u)
         == Spent(Contents(messages), u) + if u == user then |rows| * cfg.smsCost else 0
    decreases |rows|
  {
    if mids != [] {
      var n := |mids| - 1;
      var before := Insert(messages, mids[..n], rows[..n]);
      SpentByInsert(cfg, messages, mids[..n], rows[..n], user, requestId, u);
      InsertFacts(messages, mids[..n], rows[..n]);
      assert mids[n] !in before;
      SpentByOne(before, mids[n], rows[n], u);
      OneMore(cfg.smsCost, n);
    }
  }

  lemma SpentByOne(messages: map<int, Message>, id: int, row: Message, u: int)
    requires id !in messages
    ensures Spent(Contents(messages[id := row]), u)
         == Spent(Contents(messages), u) + if row.userId == u then row.cost else 0
  {
    var a, b := CostsOf(Contents(messages), u), CostsOf(Contents(messages[id := row]), u);
    assert id !in a;
    if row.userId == u {
      assert b == a[id := row.cost];
      SumAdd(a, id, row.cost);
    } else {
      assert b == a;
    }
  }

  lemma StoredMoney(cfg: Config, s: State, cmd: SendRequest, cs: seq<Message>, mids: seq<int>, rows: seq<Message>,
                    requestId: int)
    requires Inv(cfg, s) && cmd.userId in s.db.users && Plan.AreCandidates(cfg, cmd, cs)
    requires |mids| == |rows| == |PlanFor(cfg, s.db, cmd, cs).payable| && Fresh(s.db.messages, mids)
    requires NewRows(cfg, cmd.userId, requestId, rows)
    ensures var total := Plan.TotalCost(cfg, PlanFor(cfg, s.db, cmd, cs));
            && 0 <= total <= s.db.users[cmd.userId]
            && MoneyOk(if 0 < total then AddBalance(s.db.users, cmd.userId, -total) else s.db.users,
                       Contents(Insert(s.db.messages, mids, rows)), s.hist.deposits, s.hist.refunds)
  {
    hide Plan.AreCandidates, Plan.Split, Plan.Sendable, Insert, Spent, Fresh, NewRows, RowsOk, RefundsOk, LogOk,
         OutboxOk, DeliveryStateOk, ProviderOk, ApiOk;
    Plan.SplitIsOptimal(cfg, cs, s.db.users[cmd.userId]);
    forall u | u in s.db.users
      ensures Spent(Contents(Insert(s.db.messages, mids, rows)), u)
           == Spent(Contents(s.db.messages), u) + if u == cmd.userId then |rows| * cfg.smsCost else 0
    {
      SpentByInsert(cfg, s.db.messages, mids, rows, cmd.userId, requestId, u);
    }
    var total := Plan.TotalCost(cfg, PlanFor(cfg, s.db, cmd, cs));
    assert AddBalance(s.db.users, cmd.userId, 0 - total).Keys == s.db.users.Keys;
  }

  // ---- rows ----

  // Every message id of the new map is old or one of the inserted.
  lemma InsertedContents(messages: map<int, Message>, mids: seq<int>, rows: seq<Message>)
    requires |mids| == |rows| && Fresh(messages, mids)
    ensures var c := Contents(Insert(messages, mids, rows));
            && Extends(Contents(messages), c)
            && (forall i :: 0 <= i < |mids| ==> mids[i] in c && c[mids[i]] == ContentOf(rows[i]))
            && (forall m :: m in c ==> m in messages || m in mids)
  {
    InsertFacts(messages, mids, rows);
  }

  lemma InsertedHeaders(cfg: Config, outbox: map<int, OutboxEvent>, eids: seq<int>, mids: seq<int>, rows: seq<Message>)
    requires |mids| == |rows| == |eids| && Fresh(outbox, eids)
    ensures var h := Headers(Insert(outbox, eids, EventRows(cfg, mids, rows)));
            && Extends(Headers(outbox), h)
            && (forall i :: 0 <= i < |eids| ==>
                  eids[i] in h && h[eids[i]] == HeaderOf(EventRow(cfg, mids[i], ContentOf(rows[i]))))
            && (forall e :: e in h ==> e in outbox || e in eids)
  {
    InsertFacts(outbox, eids, EventRows(cfg, mids, rows));
  }

  lemma OldRequestOk(cfg: Config, id: int, r: Request, a: map<int, Content>, b: map<int, Content>)
    requires RequestOk(cfg, id, r, a) && Extends(a, b)
    requires forall m :: m in b && m !in a ==> b[m].requestId != id
    ensures RequestOk(cfg, id, r, b)
  {
    var lines := r.response.value.messages;
    forall i | 0 <= i < |lines| ensures LineOk(id, lines[i], b) {
      assert LineOk(id, lines[i], a);
    }
  }

  lemma NewRequestOk(cfg: Config, user: int, id: int, r: Request, mids: seq<int>, rows: seq<Message>,
                     c: map<int, Content>)
    requires |mids| == |rows| && NewRows(cfg, user, id, rows)
    requires forall i :: 0 <= i < |mids| ==> mids[i] in c && c[mids[i]] == ContentOf(rows[i])
    requires forall i, j :: 0 <= i < j < |mids| ==> mids[i] != mids[j]
    requires forall m :: m in c && c[m].requestId == id ==> m in mids
    requires r.hash.Digest? && r.response.Some?
    requires var res := r.response.value;
             && res.requestId == id && r.totalCost == res.totalCost == |rows| * cfg.smsCost
             && r.accepted == res.acceptedCount == |rows| && r.rejected == res.rejectedCount
             && res.rejectedCount + res.skippedCount == |res.skipped| && res.messages == Lines(mids, rows)
    ensures RequestOk(cfg, id, r, c)
  {
    var lines := Lines(mids, rows);
    forall m | m in c && c[m].requestId == id ensures IsLine(lines, m) {
      var i :| 0 <= i < |mids| && mids[i] == m;
      assert lines[i].id == m;
    }
  }

  lemma StoredRequests(cfg: Config, users: set<int>, requests: map<int, Request>, a: map<int, Content>,
                       h: map<int, Header>, id: int, r: Request, mids: seq<int>, rows: seq<Message>,
                       b: map<int, Content>)
    requires RowsOk(cfg, users, requests, a, h) && id !in requests
    requires Extends(a, b) && (forall m :: m in b ==> m in a || m in mids)
    requires |mids| == |rows| && NewRows(cfg, r.userId, id, rows)
    requires forall i :: 0 <= i < |mids| ==> mids[i] in b && b[mids[i]] == ContentOf(rows[i])
    requires RequestOk(cfg, id, r, b)
    requires !HasRequest(requests, r.userId, r.key)
    ensures var all := requests[id := r];
            (forall q :: q in all ==> RequestOk(cfg, q, all[q], b)) && Unique(all)
  {
    var requests' := requests[id := r];
    forall q | q in requests' ensures RequestOk(cfg, q, requests'[q], b) {
      if q != id {
        forall m | m in b && m !in a ensures b[m].requestId != q {
          var i :| 0 <= i < |mids| && mids[i] == m;
        }
        OldRequestOk(cfg, q, requests[q], a, b);
      }
    }
    forall i, j, user, key | Matches(requests', i, user, key) && Matches(requests', j, user, key) ensures i == j {
      if i != id { assert Matches(requests, i, user, key); }
      if j != id { assert Matches(requests, j, user, key); }
    }
  }

  // What InsertedContents and InsertedHeaders say together.
  ghost predicate Inserted(cfg: Config, a: map<int, Content>, h: map<int, Header>, b: map<int, Content>,
                           h': map<int, Header>, eids: seq<int>, mids: seq<int>, rows: seq<Message>) {
    && |mids| == |rows| == |eids|
    && Extends(a, b) && (forall m :: m in b ==> m in a || m in mids)
    && Extends(h, h') && (forall e :: e in h' ==> e in h || e in eids)
    && (forall i :: 0 <= i < |mids| ==> mids[i] !in a && mids[i] in b && b[mids[i]] == ContentOf(rows[i]))
    && (forall i, j :: 0 <= i < j < |mids| ==> mids[i] != mids[j])
    && (forall i :: 0 <= i < |eids| ==>
          eids[i] in h' && h'[eids[i]] == HeaderOf(EventRow(cfg, mids[i], ContentOf(rows[i]))))
  }

  // An event is old, or the i-th new one.
  lemma Origin(cfg: Config, a: map<int, Content>, h: map<int, Header>, b: map<int, Content>, h': map<int, Header>,
               eids: seq<int>, mids: seq<int>, rows: seq<Message>, e: int) returns (i: int)
    requires EventsOk(cfg, a, h) && Inserted(cfg, a, h, b, h', eids, mids, rows) && e in h'
    ensures HeaderOk(cfg, h'[e], b)
    ensures if e in h then h'[e] == h[e] && h[e].aggregateId in a
            else 0 <= i < |eids| && e == eids[i] && h'[e].aggregateId == mids[i]
  {
    if e in h {
      i := -1;
      assert HeaderOk(cfg, h[e], a);
    } else {
      i :| 0 <= i < |eids| && e == eids[i];
    }
  }

  lemma StoredEvents(cfg: Config, a: map<int, Content>, h: map<int, Header>, b: map<int, Content>, h': map<int, Header>,
                     eids: seq<int>, mids: seq<int>, rows: seq<Message>)
    requires EventsOk(cfg, a, h) && Inserted(cfg, a, h, b, h', eids, mids, rows)
    ensures EventsOk(cfg, b, h')
  {
    forall e | e in h' ensures HeaderOk(cfg, h'[e], b) {
      var _ := Origin(cfg, a, h, b, h', eids, mids, rows, e);
    }
    forall e, f | e in h' && f in h' && h'[e].aggregateId == h'[f].aggregateId ensures e == f {
      StoredEventUnique(cfg, a, h, b, h', eids, mids, rows, e, f);
    }
    StoredHaveEvents(cfg, a, h, b, h', eids, mids, rows);
  }

  lemma StoredEventUnique(cfg: Config, a: map<int, Content>, h: map<int, Header>, b: map<int, Content>,
                          h': map<int, Header>, eids: seq<int>, mids: seq<int>, rows: seq<Message>, e: int, f: int)
    requires EventsOk(cfg, a, h) && Inserted(cfg, a, h, b, h', eids, mids, rows)
    requires e in h' && f in h' && h'[e].aggregateId == h'[f].aggregateId
    ensures e == f
  {
    var i := Origin(cfg, a, h, b, h', eids, mids, rows, e);
    var j := Origin(cfg, a, h, b, h', eids, mids, rows, f);
    if e !in h && f !in h { assert mids[i] == mids[j]; }
  }

  lemma StoredHaveEvents(cfg: Config, a: map<int, Content>, h: map<int, Header>, b: map<int, Content>,
                         h': map<int, Header>, eids: seq<int>, mids: seq<int>, rows: seq<Message>)
    requires EventsOk(cfg, a, h) && Inserted(cfg, a, h, b, h', eids, mids, rows)
    ensures forall m :: m in b ==> HasEvent(h', m)
  {
    forall m | m in b ensures HasEvent(h', m) {
      if m in a {
        assert HasEvent(h, m);
        var e :| e in h && h[e].aggregateId == m;
        assert h'[e] == h[e];
        assert e in h' && h'[e].aggregateId == m;
      } else {
        var i :| 0 <= i < |mids| && mids[i] == m;
        var e := eids[i];
        assert h'[e] == HeaderOf(EventRow(cfg, mids[i], ContentOf(rows[i])));
        assert e in h' && h'[e].aggregateId == m;
      }
    }
  }

  // ---- the other components ----

  lemma StoredRefunds(cfg: Config, messages: map<int, Message>, refunds: seq<Refund>, mids: seq<int>,
                      rows: seq<Message>, user: int, requestId: int)
    requires RefundsOk(messages, refunds)
    requires |mids| == |rows| && Fresh(messages, mids) && NewRows(cfg, user, requestId, rows)
    ensures RefundsOk(Insert(messages, mids, rows), refunds)
    ensures Evolves(messages, Insert(messages, mids, rows))
    ensures forall m :: m in Insert(messages, mids, rows) && m !in messages ==>
              Insert(messages, mids, rows)[m].status.MessageQueued?
  {
    InsertFacts(messages, mids, rows);
    var b := Insert(messages, mids, rows);
    forall m | m in b && m !in messages ensures b[m].status.MessageQueued? && b[m].errorCode.None? {
      var i :| 0 <= i < |mids| && mids[i] == m;
    }
  }

  lemma StoredOutbox(cfg: Config, outbox: map<int, OutboxEvent>, a: map<int, Message>, b: map<int, Message>,
                     log: seq<Record>, claims: map<Claim, ClaimPhase>, publishes: seq<Claim>,
                     eids: seq<int>, mids: seq<int>, rows: seq<Message>)
    requires OutboxOk(cfg, outbox, a, log, claims, publishes) && Evolves(a, b)
    requires |mids| == |rows| == |eids| && Fresh(outbox, eids)
    requires forall i :: 0 <= i < |mids| ==> mids[i] in b
    ensures OutboxOk(cfg, Insert(outbox, eids, EventRows(cfg, mids, rows)), b, log, claims, publishes)
  {
    InsertFacts(outbox, eids, EventRows(cfg, mids, rows));
    var o := Insert(outbox, eids, EventRows(cfg, mids, rows));
    OutboxFrame(cfg, outbox, a, b, log, claims, publishes);
    forall e | e in o ensures EventOk(o[e], b, log) {
      if e in outbox {
        assert EventOk(outbox[e], b, log);
      } else {
        var i :| 0 <= i < |eids| && eids[i] == e;
      }
    }
    forall c | c in claims ensures ClaimOk(cfg, c, claims[c], o, log, publishes) {
      assert ClaimOk(cfg, c, claims[c], outbox, log, publishes);
    }
  }

  lemma BoundGrows(a: map<int, Request>, b: map<int, Request>, user: int, key: string, hash: Hash, result: SendResult)
    requires Extends(a, b) && Bound(a, user, key, hash, result)
    ensures Bound(b, user, key, hash, result)
  {
    var id :| BoundAt(a, id, user, key, hash, result);
    assert BoundAt(b, id, user, key, hash, result);
  }

  lemma ApiGrows(a: map<int, Request>, b: map<int, Request>, users: set<int>, cache: map<(int, string), CacheEntry>,
                 sends: map<int, SendPc>, answers: seq<Answer>)
    requires ApiOk(a, users, cache, sends, answers) && Extends(a, b)
    ensures ApiOk(b, users, cache, sends, answers)
  {
    forall user, key | (user, key) in cache
      ensures Bound(b, user, key, cache[(user, key)].hash, cache[(user, key)].result)
    {
      BoundGrows(a, b, user, key, cache[(user, key)].hash, cache[(user, key)].result);
    }
    forall p | p in sends ensures SendOk(b, sends[p]) {
      assert SendOk(a, sends[p]);
      var pc := sends[p];
      if pc.Saving? { BoundGrows(a, b, pc.cmd.userId, pc.cmd.key, PayloadHash(pc.cmd), pc.result); }
      if pc.Polling? {
        var id :| Matches(a, id, pc.cmd.userId, pc.cmd.key);
        assert Matches(b, id, pc.cmd.userId, pc.cmd.key);
      }
    }
    forall i | 0 <= i < |answers| ensures AnswerOk(b, users, answers[i]) {
      AnswerGrows(a, b, users, answers[i]);
    }
  }

  lemma AnswerGrows(a: map<int, Request>, b: map<int, Request>, users: set<int>, answer: Answer)
    requires AnswerOk(a, users, answer) && Extends(a, b)
    ensures AnswerOk(b, users, answer)
  {
    var cmd := answer.cmd;
    match answer.reply
    case Success(result) => BoundGrows(a, b, cmd.userId, cmd.key, PayloadHash(cmd), result);
    case Conflict =>
      var id :| ClashAt(a, id, cmd.userId, cmd.key, PayloadHash(cmd));
      assert ClashAt(b, id, cmd.userId, cmd.key, PayloadHash(cmd));
    case _ =>
  }

  // ---- putting it together ----

  ghost predicate StoredBy(cfg: Config, s: State, cmd: SendRequest, cs: seq<Message>, requestId: int,
                           mids: seq<int>, eids: seq<int>, db: Db, result: SendResult)
  {
    && cmd.userId in s.db.users && Plan.AreCandidates(cfg, cmd, cs)
    && 0 < requestId && requestId !in s.db.requests
    && Fresh(s.db.messages, mids) && Fresh(s.db.outbox, eids)
    && |mids| == |eids| == |PlanFor(cfg, s.db, cmd, cs).payable|
    && SendTransaction(cfg, s.db, cmd, cs, requestId, mids, eids, s.now) == Stored(db, result)
  }

  // The committed tables, spelled out.
  lemma StoredShape(cfg: Config, s: State, cmd: SendRequest, cs: seq<Message>, requestId: int,
                    mids: seq<int>, eids: seq<int>, db: Db, result: SendResult) returns (rows: seq<Message>)
    requires StoredBy(cfg, s, cmd, cs, requestId, mids, eids, db, result)
    ensures |rows| == |mids| && NewRows(cfg, cmd.userId, requestId, rows)
    ensures rows == MessageRows(PlanFor(cfg, s.db, cmd, cs).payable, requestId, s.now)
    ensures db.messages == Insert(s.db.messages, mids, rows)
    ensures db.outbox == Insert(s.db.outbox, eids, EventRows(cfg, mids, rows))
    ensures var total := Plan.TotalCost(cfg, PlanFor(cfg, s.db, cmd, cs));
            db.users == if 0 < total then AddBalance(s.db.users, cmd.userId, -total) else s.db.users
    ensures requestId in db.requests
    ensures var r := db.requests[requestId];
            && db.requests == s.db.requests[requestId := r]
            && r.userId == cmd.userId && r.key == cmd.key && r.hash == PayloadHash(cmd) && r.response == Some(result)
            && result.requestId == requestId && r.totalCost == result.totalCost == |rows| * cfg.smsCost
            && r.accepted == result.acceptedCount == |rows| && r.rejected == result.rejectedCount
            && result.rejectedCount + result.skippedCount == |result.skipped| && result.messages == Lines(mids, rows)
    ensures !HasRequest(s.db.requests, cmd.userId, cmd.key)
  {
    var affordable := Plan.Affordable(cfg, s.db.users[cmd.userId]);
    rows := MessageRows(PlanFor(cfg, s.db, cmd, cs).payable, requestId, s.now);
    PlannedRows(cfg, cmd, cs, affordable, requestId, s.now);
    Plan.SplitSizes(cs, affordable);
  }

  // The rows part of the invariant, on the components alone.
  lemma StoredRows(cfg: Config, users: set<int>, requests: map<int, Request>, messages: map<int, Message>,
                   outbox: map<int, OutboxEvent>, id: int, r: Request, mids: seq<int>, eids: seq<int>,
                   rows: seq<Message>)
    requires RowsOk(cfg, users, requests, Contents(messages), Headers(outbox))
    requires id !in requests && r.userId in users && !HasRequest(requests, r.userId, r.key)
    requires |mids| == |rows| == |eids| && Fresh(messages, mids) && Fresh(outbox, eids)
    requires NewRows(cfg, r.userId, id, rows)
    requires r.hash.Digest? && r.response.Some?
    requires var res := r.response.value;
             && res.requestId == id && r.totalCost == res.totalCost == |rows| * cfg.smsCost
             && r.accepted == res.acceptedCount == |rows| && r.rejected == res.rejectedCount
             && res.rejectedCount + res.skippedCount == |res.skipped| && res.messages == Lines(mids, rows)
    ensures RowsOk(cfg, users, requests[id := r], Contents(Insert(messages, mids, rows)),
                   Headers(Insert(outbox, eids, EventRows(cfg, mids, rows))))
    ensures Extends(Contents(messages), Contents(Insert(messages, mids, rows)))
  {
    var a, b := Contents(messages), Contents(Insert(messages, mids, rows));
    var h, h' := Headers(outbox), Headers(Insert(outbox, eids, EventRows(cfg, mids, rows)));
    InsertedContents(messages, mids, rows);
    InsertedHeaders(cfg, outbox, eids, mids, rows);
    StoredEvents(cfg, a, h, b, h', eids, mids, rows);
    StoredContents(cfg, users, requests, a, id, r, mids, rows, b);
    NewRequestOk(cfg, r.userId, id, r, mids, rows, b);
    StoredRequests(cfg, users, requests, a, h, id, r, mids, rows, b);
  }

  lemma StoredContents(cfg: Config, users: set<int>, requests: map<int, Request>, a: map<int, Content>,
                       id: int, r: Request, mids: seq<int>, rows: seq<Message>, b: map<int, Content>)
    requires ContentsOk(cfg, users, requests, a)
    requires id !in requests && r.userId in users
    requires |mids| == |rows| && NewRows(cfg, r.userId, id, rows)
    requires Extends(a, b) && (forall m :: m in b ==> m in a || m in mids)
    requires forall i :: 0 <= i < |mids| ==> 0 < mids[i] && mids[i] in b && b[mids[i]] == ContentOf(rows[i])
    ensures ContentsOk(cfg, users, requests[id := r], b)
    ensures forall m :: m in b && b[m].requestId == id ==> m in mids
  {
    forall m | m in b && m !in a
      ensures 0 < m && b[m].cost == cfg.smsCost && b[m].userId == r.userId && b[m].requestId == id
    {
      var i :| 0 <= i < |mids| && mids[i] == m;
    }
    assert forall m :: m in a ==> m in b && b[m] == a[m];
  }

  lemma StoredKeeps(cfg: Config, s: State, cmd: SendRequest, cs: seq<Message>, requestId: int,
                    mids: seq<int>, eids: seq<int>, db: Db, result: SendResult)
    requires Inv(cfg, s) && StoredBy(cfg, s, cmd, cs, requestId, mids, eids, db, result)
    ensures Inv(cfg, s.(db := db))
    ensures Bound(db.requests, cmd.userId, cmd.key, PayloadHash(cmd), result)
  {
    hide RowsOk, MoneyOk, RefundsOk, LogOk, OutboxOk, ProviderOk, DeliveryStateOk, ApiOk;
    var rows := StoredShape(cfg, s, cmd, cs, requestId, mids, eids, db, result);
    StoredRows(cfg, s.db.users.Keys, s.db.requests, s.db.messages, s.db.outbox, requestId, db.requests[requestId],
               mids, eids, rows);
    StoredMoney(cfg, s, cmd, cs, mids, rows, requestId);
    assert db.users.Keys == s.db.users.Keys;
    StoredRefunds(cfg, s.db.messages, s.hist.refunds, mids, rows, cmd.userId, requestId);
    StoredRest(cfg, s, db, mids, eids, rows);
    assert BoundAt(db.requests, requestId, cmd.userId, cmd.key, PayloadHash(cmd), result);
    ApiGrows(s.db.requests, db.requests, s.db.users.Keys, s.cache, s.sends, s.hist.answers);
  }

  // Log, outbox, deliveries and provider do not mind new messages.
  lemma StoredRest(cfg: Config, s: State, db: Db, mids: seq<int>, eids: seq<int>, rows: seq<Message>)
    requires Inv(cfg, s) && |mids| == |rows| == |eids| && Fresh(s.db.messages, mids) && Fresh(s.db.outbox, eids)
    requires db.messages == Insert(s.db.messages, mids, rows)
    requires db.outbox == Insert(s.db.outbox, eids, EventRows(cfg, mids, rows))
    requires Evolves(s.db.messages, db.messages) && Extends(Contents(s.db.messages), Contents(db.messages))
    requires forall m :: m in db.messages && m !in s.db.messages ==> db.messages[m].status.MessageQueued?
    ensures LogOk(cfg, s.log, Contents(db.messages))
    ensures OutboxOk(cfg, db.outbox, db.messages, s.log, s.claims, s.hist.publishes)
    ensures DeliveryStateOk(s.deliveries, s.acked, s.log, db.messages, s.seen)
    ensures ProviderOk(s.seen, s.sms, Contents(db.messages))
  {
    InsertFacts(s.db.messages, mids, rows);
    StoredOutbox(cfg, s.db.outbox, s.db.messages, db.messages, s.log, s.claims, s.hist.publishes, eids, mids, rows);
    assert s.log + [] == s.log;
    DeliveryFrame(s.deliveries, s.acked, s.log, [], s.db.messages, db.messages, s.seen, s.seen);
  }

  /** The debit guard never fails under the row lock: InsufficientBalance is unreachable. */
  lemma DebitNeverFails(cfg: Config, s: State, cmd: SendRequest, cs: seq<Message>, requestId: int,
                        mids: seq<int>, eids: seq<int>)
    requires Inv(cfg, s) && Plan.AreCandidates(cfg, cmd, cs)
    requires cmd.userId in s.db.users ==> |mids| == |eids| == |PlanFor(cfg, s.db, cmd, cs).payable|
    ensures !SendTransaction(cfg, s.db, cmd, cs, requestId, mids, eids, s.now).NoMoney?
  {
    if cmd.userId in s.db.users { Plan.SplitIsOptimal(cfg, cs, s.db.users[cmd.userId]); }
  }

  lemma PersistKeeps(cfg: Config, s: State, pid: int, cs: seq<Message>, requestId: int, mids: seq<int>, eids: seq<int>,
                     fate: Fate)
    requires Inv(cfg, s) && CanPersist(cfg, s, pid, cs, requestId, mids, eids)
    ensures Inv(cfg, DoPersist(cfg, s, pid, cs, requestId, mids, eids, fate))
  {
    hide RowsOk, MoneyOk, RefundsOk, LogOk, OutboxOk, ProviderOk, DeliveryStateOk, CacheOk;
    var cmd := s.sends[pid].cmd;
    DebitNeverFails(cfg, s, cmd, cs, requestId, mids, eids);
    if fate.Aborted? {
      FinishKeeps(cfg, s, pid, cmd, Broken);
    } else {
      match SendTransaction(cfg, s.db, cmd, cs, requestId, mids, eids, s.now)
      case NoSuchUser => FinishKeeps(cfg, s, pid, cmd, UserNotFound);
      case NoMoney => assert false;
      case Duplicate => MoveSendKeeps(cfg, s, pid, Polling(cmd, 0));
      case Stored(db, result) =>
        StoredKeeps(cfg, s, cmd, cs, requestId, mids, eids, db, result);
        var asked := if cmd.userId in s.hist.demand then s.hist.demand[cmd.userId] else 0;
        var s1 := s.(db := db,
                     hist := s.hist.(demand := s.hist.demand[cmd.userId := asked + |Plan.Sendable(cs)|]));
        assert Inv(cfg, s1);
        if fate.Done? { MoveSendKeeps(cfg, s1, pid, Saving(cmd, result)); }
        else { FinishKeeps(cfg, s1, pid, cmd, Broken); }
    }
  }
}
