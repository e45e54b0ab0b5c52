/** What all processes share: Postgres, Redis, Kafka, the SMS provider, and the clock of the database. */
module Platform {
  import opened Domain
  import opened Tables
  import opened Protocol
  import opened Runs
  import opened Worlds
  import Repository
  import Redis
  import Provider

  // A topic set, as an append-only log with acknowledged records.
  class Broker {
    var log: seq<Record>
    var acked: set<nat>

    constructor ()
      ensures log == [] && acked == {}
    {
      log, acked := [], {};
    }

    // appended and ok are the network's answer; an error may hide an appended record.
    method Publish(topic: string, key: string, value: SmsEvent, appended: bool, ok: bool) returns (err: bool)
      requires ok ==> appended
      modifies this`log
      ensures log == if appended then old(log) + [Record(topic, key, value)] else old(log)
      ensures err == !ok
    {
      if appended { log := log + [Record(topic, key, value)]; }
      err := !ok;
    }

    method Commit(offset: nat, committed: bool)
      modifies this`acked
      ensures acked == if committed then old(acked) + {offset} else old(acked)
    {
      if committed { acked := acked + {offset}; }
    }
  }

  // The history got longer, and nothing else happened to it.
  ghost predicate Longer(states: seq<State>, steps: seq<Step>, states': seq<State>, steps': seq<Step>) {
    states <= states' && steps <= steps'
  }

  ghost predicate NotBy(o: Owner, steps: seq<Step>, i: nat, j: nat)
    requires i <= j <= |steps|
  {
    forall k :: i <= k < j ==> !Touches(steps[k], o)
  }

  /** Whatever others do in between, a process finds its own part as it left it, nothing it relies
      on undone, and no claim it ended revived. */
  lemma Interference(cfg: Config, ss: seq<State>, steps: seq<Step>, i: nat, j: nat, o: Owner)
    requires IsExecution(cfg, ss, steps) && i <= j < |ss| && NotBy(o, steps, i, j)
    ensures SameOwn(ss[i], ss[j], o) && Progress(ss[i], ss[j]) && StayEnded(ss[i], ss[j])
  {
    hide Enabled, Apply, SameOwn, Progress, StayEnded, Init, Touches;
    ForeignSteps(cfg, ss, steps, i, j, o);
    RunProgress(cfg, ss, steps, i, j);
    EndedForever(cfg, ss, steps, i, j);
  }

  lemma Untouched(s: State, o: Owner)
    ensures Progress(s, s) && SameOwn(s, s, o)
  {
  }

  lemma TickIsForeign(s: State, o: Owner)
    ensures Progress(s, s.(now := s.now + 1)) && SameOwn(s, s.(now := s.now + 1), o) && !Touches(Tick(1), o)
  {
  }

  class System {
    const repo: Repository.Repo
    const redis: Redis.RedisStore
    const broker: Broker
    const sender: Provider.LogSender
    const world: World
    const reliable: bool  // no database operation fails
    const alone: bool     // no other process runs, and the clock stands still
    const patient: bool   // no context ends before its work is done

    ghost predicate InSync()
      reads repo, redis, broker, sender, world
    {
      && world.Valid() && repo.Valid() && sender.Valid()
      && repo.Snapshot() == world.Now().db && repo.now == world.Now().now
      && redis.Mirrors(world.Now().cache)
      && broker.log == world.Now().log && broker.acked == world.Now().acked
      && sender.seen == world.Now().seen
    }

    constructor (cfg: Config, balances: map<int, int>, reliable: bool, alone: bool, patient: bool)
      requires forall u :: u in balances ==> 0 <= balances[u]
      ensures InSync() && world.cfg == cfg && this.reliable == reliable && this.alone == alone
      ensures this.patient == patient
      ensures Init(world.Now()) && world.Now().db.users == balances
      ensures fresh(repo) && fresh(redis) && fresh(broker) && fresh(sender) && fresh(world)
    {
      repo := new Repository.Repo(balances);
      redis := new Redis.RedisStore();
      broker := new Broker();
      sender := new Provider.LogSender();
      world := new World(cfg, State(Db(balances, map[], map[], map[]), map[], [], {}, map[], map[], map[], {}, [], 0,
                                    History(balances, map[], [], [], [])));
      this.reliable, this.alone, this.patient := reliable, alone, patient;
    }

    // ---- the environment's answers ----

    method WriteFate() returns (f: Fate)
      ensures reliable ==> f.Done?
    {
      f := *;
      if reliable { f := Done; }
    }

    method Broken() returns (b: bool)
      ensures reliable ==> !b
    {
      b := *;
      if reliable { b := false; }
    }

    method PublishAnswer() returns (appended: bool, ok: bool, err: string)
      ensures ok ==> appended
    {
      appended, ok, err := *, *, *;
      if ok { appended := true; }
    }

    // time.After of a backoff, or the context is done first.
    method Cancelled() returns (b: bool)
      ensures patient ==> !b
    {
      b := *;
      if patient { b := false; }
    }

    // rand.Intn(50)
    method Jitter() returns (ms: nat)
      ensures ms < 50
    {
      ms := *;
      ms := ms % 50;
    }

    // Any record of the log, acknowledged or not, or an error.
    method FetchRecord() returns (r: Option<nat>)
      requires InSync()
      ensures r.Some? ==> r.value < |broker.log|
    {
      var o: nat := *;
      r := if o < |broker.log| then Some(o) else None;
    }

    // Rows of the outbox that transactions of others hold locked at this moment.
    method LockedRows() returns (locked: set<int>)
      ensures alone ==> locked == {}
    {
      locked := *;
      if alone { locked := {}; }
    }

    method CallAnswer() returns (result: CallResult, reached: bool)
      ensures result.Ok? ==> reached
      ensures patient ==> !result.Canceled?
    {
      result, reached := *, *;
      if patient && result.Canceled? { result := Err; }
      if result.Ok? { reached := true; }
    }

    // The clock of the database moves on.
    method Sleep(ms: nat)
      requires InSync()
      modifies repo, world
      ensures InSync() && world.Now() == old(world.Now()).(now := old(world.Now()).now + ms)
      ensures Longer(old(world.states), old(world.steps), world.states, world.steps)
    {
      hide IsExecution;
      repo.now := repo.now + ms;
      world.TookTick(ms);
    }

    // Other processes run. A caller may rely on this contract only: the history grew by any steps
    // that are not its own, and therefore what it owns is untouched.
    method Yield(ghost o: Owner)
      requires InSync()
      modifies repo, redis, broker, sender, world
      ensures InSync() && Longer(old(world.states), old(world.steps), world.states, world.steps)
      ensures NotBy(o, world.steps, |old(world.steps)|, |world.steps|)
      ensures SameOwn(old(world.Now()), world.Now(), o) && Progress(old(world.Now()), world.Now())
      ensures StayEnded(old(world.Now()), world.Now())
      ensures alone ==> world.steps == old(world.steps) && world.Now() == old(world.Now())
    {
      hide IsExecution, Progress, SameOwn, Touches;
      Untouched(world.Now(), o);
      var busy := *;
      if busy && !alone {
        TickIsForeign(world.Now(), o);
        repo.now := repo.now + 1;
        world.TookTick(1);
      }
    }
  }
}
