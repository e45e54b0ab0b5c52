/** Work conservation: however concurrent sends of one user interleave, together they accept
    as many messages as the money or the valid recipients allow. */
module Workload {
  import opened Domain
  import opened Sums
  import opened Tables
  import opened Protocol
  import opened Invariants
  import opened Runs
  import opened Shapes
  import opened Persisting
  import opened Theorems
  import Plan

  function Demand(demand: map<int, int>, user: int): int {
    if user in demand then demand[user] else 0
  }

  function MinInt(a: int, b: int): int { if a < b then a else b }

  // How many messages the initial money can pay for, against how many were asked for.
  ghost predicate UserServed(c: Pos, contents: map<int, Content>, user: int, initial: nat, asked: int) {
    0 <= asked && Spent(contents, user) == c * MinInt(initial / c, asked)
  }

  ghost predicate Served(cfg: Config, s: State, user: int, initial: nat) {
    UserServed(cfg.smsCost, Contents(s.db.messages), user, initial, Demand(s.hist.demand, user))
  }

  // After a messages were paid for, the rest of the money affords the rest of the count.
  lemma RestAffordable(c: Pos, initial: nat, a: nat)
    requires a <= initial / c
    ensures 0 <= initial - c * a && (initial - c * a) / c == initial / c - a
  {
    var q := initial / c;
    var r := initial - c * q;
    assert 0 <= r < c;
    assert initial - c * a == c * (q - a) + r;
    QuotientIs(c, q - a, r);
  }

  lemma QuotientIs(c: Pos, q: nat, r: nat)
    requires r < c
    ensures (c * q + r) / c == q
  {
    var x := (c * q + r) / c;
    assert c * x <= c * q + r < c * x + c;
    if x < q {
      assert c * (x + 1) <= c * q by { Monotone(c, x + 1, q); }
    } else if q < x {
      assert c * (q + 1) <= c * x by { Monotone(c, q + 1, x); }
    }
  }

  lemma Monotone(c: Pos, a: int, b: int)
    requires a <= b
    ensures c * a <= c * b
  {
    assert c * b - c * a == c * (b - a);
  }

  // One committed send: what it accepts closes the gap between served and asked.
  lemma ServeOne(c: Pos, initial: nat, asked: nat, valid: nat, balance: int, accepted: int)
    requires balance == initial - c * MinInt(initial / c, asked)
    requires 0 <= balance ==> accepted == MinInt(balance / c, valid)
    ensures 0 <= balance
    ensures c * MinInt(initial / c, asked) + accepted * c == c * MinInt(initial / c, asked + valid)
  {
    var q := initial / c;
    var served := MinInt(q, asked);
    RestAffordable(c, initial, served);
    assert served + accepted == MinInt(q, asked + valid);
    Distribute(c, served, accepted);
  }

  lemma Distribute(c: int, a: int, b: int)
    ensures c * a + b * c == c * (a + b)
  {
  }

  // The same for the planner: what it accepts from a balance that earlier sends left over.
  lemma PlanServes(cfg: Config, initial: nat, asked: nat, balance: int, cs: seq<Message>)
    requires balance == initial - cfg.smsCost * MinInt(initial / cfg.smsCost, asked)
    ensures cfg.smsCost * MinInt(initial / cfg.smsCost, asked)
            + |Plan.Split(cs, Plan.Affordable(cfg, balance)).payable| * cfg.smsCost
         == cfg.smsCost * MinInt(initial / cfg.smsCost, asked + |Plan.Sendable(cs)|)
  {
    hide Plan.Split, Plan.Sendable;
    var accepted := |Plan.Split(cs, Plan.Affordable(cfg, balance)).payable|;
    PlanAccepts(cfg, balance, cs);
    hide *;
    ServeOne(cfg.smsCost, initial, asked, |Plan.Sendable(cs)|, balance, accepted);
  }

  lemma PlanAccepts(cfg: Config, balance: int, cs: seq<Message>)
    ensures 0 <= balance ==> |Plan.Split(cs, Plan.Affordable(cfg, balance)).payable|
                             == MinInt(balance / cfg.smsCost, |Plan.Sendable(cs)|)
  {
    Plan.SplitSizes(cs, Plan.Affordable(cfg, balance));
  }

  lemma StoredServes(cfg: Config, s: State, cmd: SendRequest, cs: seq<Message>, requestId: int, mids: seq<int>,
                     eids: seq<int>, db: Db, result: SendResult, user: int, initial: nat, asked: int)
    requires StoredBy(cfg, s, cmd, cs, requestId, mids, eids, db, result)
    requires UserServed(cfg.smsCost, Contents(s.db.messages), user, initial, asked)
    requires user == cmd.userId ==> s.db.users[user] + Spent(Contents(s.db.messages), user) == initial
    ensures UserServed(cfg.smsCost, Contents(db.messages), user, initial,
                       asked + if user == cmd.userId then |Plan.Sendable(cs)| else 0)
  {
    hide Plan.AreCandidates, Spent, Plan.Split, Plan.Sendable, Plan.Affordable, Fresh, Insert, HasRequest;
    var rows := StoredShape(cfg, s, cmd, cs, requestId, mids, eids, db, result);
    hide SendTransaction;
    SpentByInsert(cfg, s.db.messages, mids, rows, cmd.userId, requestId, user);
    if user == cmd.userId {
      PlanServes(cfg, initial, asked, s.db.users[user], cs);
    }
  }

  lemma PersistServes(cfg: Config, s: State, pid: int, cs: seq<Message>, requestId: int, mids: seq<int>, eids: seq<int>,
                      fate: Fate, user: int, initial: nat)
    requires CanPersist(cfg, s, pid, cs, requestId, mids, eids)
    requires Served(cfg, s, user, initial)
    requires user in s.db.users && s.db.users[user] + Spent(Contents(s.db.messages), user) == initial
    ensures Served(cfg, DoPersist(cfg, s, pid, cs, requestId, mids, eids, fate), user, initial)
  {
    hide UserServed, Spent, Plan.AreCandidates, Plan.Split, Plan.Sendable, Plan.Affordable, Fresh;
    var cmd := s.sends[pid].cmd;
    match SendTransaction(cfg, s.db, cmd, cs, requestId, mids, eids, s.now)
    case Stored(db, result) =>
      StoredServes(cfg, s, cmd, cs, requestId, mids, eids, db, result, user, initial, Demand(s.hist.demand, user));
    case _ =>
  }

  // Any other step leaves demand and contents alone.
  lemma OtherServes(cfg: Config, s: State, step: Step, user: int, initial: nat)
    requires Enabled(cfg, s, step) && !step.Persist? && Served(cfg, s, user, initial)
    ensures Served(cfg, Apply(cfg, s, step), user, initial)
  {
    hide Progress, Served, Enabled, Apply;
    StepProgress(cfg, s, step);
    KeysAndDemandStay(cfg, s, step);
    SameServed(cfg, s, Apply(cfg, s, step), user, initial);
  }

  lemma KeysAndDemandStay(cfg: Config, s: State, step: Step)
    requires Enabled(cfg, s, step) && !step.Persist?
    ensures Apply(cfg, s, step).db.messages.Keys == s.db.messages.Keys
    ensures Apply(cfg, s, step).hist.demand == s.hist.demand
  {
    hide Enabled, Apply;
    StepShape(cfg, s, step);
  }

  lemma SameServed(cfg: Config, a: State, b: State, user: int, initial: nat)
    requires Served(cfg, a, user, initial) && Progress(a, b)
    requires b.db.messages.Keys == a.db.messages.Keys && b.hist.demand == a.hist.demand
    ensures Served(cfg, b, user, initial)
  {
    hide OutboxEvolves, Extends;
    SameContents(a.db.messages, b.db.messages);
  }

  lemma {:induction false} RunServes(cfg: Config, ss: seq<State>, steps: seq<Step>, i: nat, user: int)
    requires IsExecution(cfg, ss, steps) && i < |ss| && user in ss[0].db.users
    requires forall k :: 0 <= k < i ==> !(steps[k].TopUp? && steps[k].user == user)
    requires forall k :: 0 <= k <= i ==> Refunded(ss[k].hist.refunds, user) == 0
    ensures Served(cfg, ss[i], user, ss[0].db.users[user])
    ensures user in ss[i].hist.deposits && ss[i].hist.deposits[user] == ss[0].db.users[user]
  {
    hide Enabled, Apply;
    var initial := ss[0].db.users[user];
    if i == 0 {
      hide IsRun;
      InitServes(cfg, ss[0], user);
    } else {
      hide IsExecution, Served;
      RunServes(cfg, ss, steps, i - 1, user);
      NextServes(cfg, ss, steps, i - 1, user, ss[0].db.users[user]);
    }
  }

  lemma InitServes(cfg: Config, s: State, user: int)
    requires Init(s) && user in s.db.users
    ensures Served(cfg, s, user, s.db.users[user])
  {
    assert CostsOf(Contents(s.db.messages), user) == map[];
  }

  lemma NextServes(cfg: Config, ss: seq<State>, steps: seq<Step>, i: nat, user: int, initial: nat)
    requires IsExecution(cfg, ss, steps) && i < |steps| && Served(cfg, ss[i], user, initial)
    requires user in ss[i].hist.deposits && ss[i].hist.deposits[user] == initial
    requires Refunded(ss[i].hist.refunds, user) == 0 && !(steps[i].TopUp? && steps[i].user == user)
    ensures Served(cfg, ss[i + 1], user, initial)
    ensures user in ss[i + 1].hist.deposits && ss[i + 1].hist.deposits[user] == initial
  {
    hide Enabled, Apply, Served, Inv, Init;
    ExecutionKeeps(cfg, ss, steps, i);
    DepositsMove(cfg, ss[i], steps[i], user);
    StepServes(cfg, ss[i], steps[i], user, initial);
  }

  lemma StepServes(cfg: Config, s: State, step: Step, user: int, initial: nat)
    requires Inv(cfg, s) && Enabled(cfg, s, step) && Served(cfg, s, user, initial)
    requires user in s.hist.deposits && s.hist.deposits[user] == initial && Refunded(s.hist.refunds, user) == 0
    ensures Served(cfg, Apply(cfg, s, step), user, initial)
  {
    hide Served, RowsOk, RefundsOk, LogOk, OutboxOk, DeliveryStateOk, ProviderOk, ApiOk, Spent;
    if step.Persist? {
      PersistServes(cfg, s, step.pid, step.cs, step.requestId, step.mids, step.eids, step.fate, user, initial);
    } else {
      OtherServes(cfg, s, step, user, initial);
    }
  }

  // ---- what was asked for ----

  // The valid recipients of a send of the user, if this step committed it.
  function Asked(s: State, step: Step, t: State, user: int): nat {
    if step.Persist? && step.pid in s.sends && s.sends[step.pid].cmd.userId == user && t.db.requests != s.db.requests
    then Plan.ValidCount(Plan.Mobiles(s.sends[step.pid].cmd)) else 0
  }

  // Over the first n steps.
  function Demanded(ss: seq<State>, steps: seq<Step>, n: nat, user: int): nat
    requires |ss| == |steps| + 1 && n <= |steps|
  {
    if n == 0 then 0 else Demanded(ss, steps, n - 1, user) + Asked(ss[n - 1], steps[n - 1], ss[n], user)
  }

  lemma PersistAsks(cfg: Config, s: State, pid: int, cs: seq<Message>, requestId: int, mids: seq<int>, eids: seq<int>,
                    fate: Fate, user: int)
    requires CanPersist(cfg, s, pid, cs, requestId, mids, eids)
    ensures var t := DoPersist(cfg, s, pid, cs, requestId, mids, eids, fate);
            Demand(t.hist.demand, user)
            == Demand(s.hist.demand, user) + Asked(s, Persist(pid, cs, requestId, mids, eids, fate), t, user)
  {
    hide Plan.AreCandidates, Plan.Split, Plan.Sendable, Plan.Affordable, Plan.ValidCount, Plan.Mobiles, Fresh, Insert,
         HasRequest;
    var cmd := s.sends[pid].cmd;
    SendableIsValid(cfg, cmd, cs);
    match SendTransaction(cfg, s.db, cmd, cs, requestId, mids, eids, s.now)
    case Stored(db, result) => assert requestId in db.requests;
    case _ =>
  }

  lemma SendableIsValid(cfg: Config, cmd: SendRequest, cs: seq<Message>)
    requires Plan.AreCandidates(cfg, cmd, cs)
    ensures |Plan.Sendable(cs)| == Plan.ValidCount(Plan.Mobiles(cmd))
  {
    Plan.CandidatesLength(cfg, cmd, cs);
    Plan.SendableCount(cfg, cmd, cs, |cs|);
    assert cs[..|cs|] == cs && Plan.Mobiles(cmd)[..|cs|] == Plan.Mobiles(cmd);
  }

  lemma StepAsks(cfg: Config, s: State, step: Step, user: int)
    requires Enabled(cfg, s, step)
    ensures var t := Apply(cfg, s, step);
            Demand(t.hist.demand, user) == Demand(s.hist.demand, user) + Asked(s, step, t, user)
  {
    hide Demand, Asked;
    if step.Persist? {
      PersistAsks(cfg, s, step.pid, step.cs, step.requestId, step.mids, step.eids, step.fate, user);
    } else {
      OtherAsks(cfg, s, step, user);
    }
  }

  lemma OtherAsks(cfg: Config, s: State, step: Step, user: int)
    requires Enabled(cfg, s, step) && !step.Persist?
    ensures Demand(Apply(cfg, s, step).hist.demand, user)
         == Demand(s.hist.demand, user) + Asked(s, step, Apply(cfg, s, step), user)
  {
    hide Enabled, Apply;
    KeysAndDemandStay(cfg, s, step);
  }

  lemma {:induction false} DemandIs(cfg: Config, ss: seq<State>, steps: seq<Step>, i: nat, user: int)
    requires IsExecution(cfg, ss, steps) && i < |ss|
    ensures Demand(ss[i].hist.demand, user) == Demanded(ss, steps, i, user)
  {
    hide Enabled, Apply, Asked;
    if i != 0 {
      DemandIs(cfg, ss, steps, i - 1, user);
      StepAsks(cfg, ss[i - 1], steps[i - 1], user);
    }
  }

  /** Without top-ups and refunds the number of messages a user gets accepted is the lesser of what the
      initial balance pays for and the valid recipients of all sends committed so far, for every interleaving. */
  lemma WorkConserved(cfg: Config, ss: seq<State>, steps: seq<Step>, i: nat, user: int)
    requires IsExecution(cfg, ss, steps) && i < |ss| && user in ss[0].db.users
    requires forall k :: 0 <= k < i ==> !(steps[k].TopUp? && steps[k].user == user)
    requires forall k :: 0 <= k <= i ==> Refunded(ss[k].hist.refunds, user) == 0
    ensures |CostsOf(Contents(ss[i].db.messages), user)|
         == MinInt(ss[0].db.users[user] / cfg.smsCost, Demanded(ss, steps, i, user))
  {
    hide Enabled, Apply;
    RunServes(cfg, ss, steps, i, user);
    ExecutionKeeps(cfg, ss, steps, i);
    DemandIs(cfg, ss, steps, i, user);
    var costs := CostsOf(Contents(ss[i].db.messages), user);
    SumConstant(costs, cfg.smsCost);
    SameFactor(cfg.smsCost, |costs|, MinInt(ss[0].db.users[user] / cfg.smsCost, Demanded(ss, steps, i, user)));
  }

  lemma SameFactor(c: Pos, a: int, b: int)
    requires c * a == c * b
    ensures a == b
  {
    if a < b { Monotone(c, a + 1, b); } else if b < a { Monotone(c, b + 1, a); }
  }
}
