/** The idempotency cache over Redis: formatted keys, entries that expire at any time. */
module Redis {
  import opened Domain
  import Protocol
  import Provider

  type Cache = map<(int, string), Protocol.CacheEntry>

  function IdempotencyKey(userId: int, key: string): string {
    "idempotency:" + Provider.Decimal(userId) + ":" + key
  }

  ghost predicate HasNoColon(s: string) {
    forall i :: 0 <= i < |s| ==> s[i] != ':'
  }

  lemma {:induction false} DigitsHaveNoColon(n: nat)
    ensures HasNoColon(Provider.Digits(n))
  {
    if 10 <= n { DigitsHaveNoColon(n / 10); }
  }

  lemma DecimalHasNoColon(n: int)
    ensures HasNoColon(Provider.Decimal(n))
  {
    DigitsHaveNoColon(if n < 0 then -n else n);
  }

  // The first colon ends the numeral.
  lemma SplitAtColon(a: string, b: string, x: string, y: string)
    requires HasNoColon(a) && HasNoColon(b) && a + ":" + x == b + ":" + y
    ensures a == b && x == y
  {
    var s := a + ":" + x;
    assert s[|a|] == ':' && s[|b|] == ':';
    assert forall i :: 0 <= i < |a| ==> s[i] == a[i];
    assert forall i :: 0 <= i < |b| ==> s[i] == b[i];
    assert s[..|a|] == a && s[..|b|] == b;
    assert s[|a| + 1..] == x && s[|b| + 1..] == y;
  }

  /** Distinct (user, key) pairs never share a cache entry, whatever the client puts into its key. */
  lemma IdempotencyKeyInjective(user: int, key: string, user': int, key': string)
    requires IdempotencyKey(user, key) == IdempotencyKey(user', key')
    ensures user == user' && key == key'
  {
    var a, b := Provider.Decimal(user), Provider.Decimal(user');
    DecimalHasNoColon(user);
    DecimalHasNoColon(user');
    assert IdempotencyKey(user, key)[12..] == a + ":" + key;
    assert IdempotencyKey(user', key')[12..] == b + ":" + key';
    SplitAtColon(a, b, key, key');
    assert Provider.ProviderIdempotencyKey(user) == Provider.ProviderIdempotencyKey(user');
    Provider.KeyInjective(user, user');
  }

  /** The entry of a user and key is "idempotency:", the user in decimal, a colon and the key. */
  lemma IdempotencyKeyIs(userId: int, key: string)
    ensures exists numeral ::
              && Provider.ValueOf(numeral) == userId && HasNoColon(numeral)
              && IdempotencyKey(userId, key) == "idempotency:" + numeral + ":" + key
  {
    Provider.DecimalIs(userId);
    DecimalHasNoColon(userId);
    assert IdempotencyKey(userId, key) == "idempotency:" + Provider.Decimal(userId) + ":" + key;
  }

  class RedisStore {
    var entries: map<string, Protocol.CacheEntry>

    // The store holds exactly these answers.
    ghost predicate Mirrors(cache: Cache)
      reads this
    {
      && (forall user, key :: (user, key) in cache ==>
            IdempotencyKey(user, key) in entries && entries[IdempotencyKey(user, key)] == cache[(user, key)])
      && (forall user, key :: IdempotencyKey(user, key) in entries ==> (user, key) in cache)
    }

    constructor ()
      ensures Mirrors(map[])
    {
      entries := map[];
    }

    // A hit needs an equal hash, or one of the two empty. A Redis error reads as a miss.
    method GetIdempotentResult(userId: int, key: string, hash: Hash, broken: bool, ghost cache: Cache)
      returns (r: Option<SendResult>)
      requires Mirrors(cache)
      ensures r == if !broken && Protocol.CacheHit(cache, userId, key, hash)
                   then Some(cache[(userId, key)].result) else None
      ensures r.Some? <==> && !broken && IdempotencyKey(userId, key) in entries
                           && (hash == NoHash || entries[IdempotencyKey(userId, key)].hash == NoHash
                               || entries[IdempotencyKey(userId, key)].hash == hash)
      ensures r.Some? ==> r.value == entries[IdempotencyKey(userId, key)].result
    {
      var k := IdempotencyKey(userId, key);
      if broken || k !in entries { return None; }
      var cached := entries[k];
      if hash != NoHash && cached.hash != NoHash && cached.hash != hash { return None; }
      r := Some(cached.result);
    }

    method SaveIdempotentResult(userId: int, key: string, hash: Hash, result: SendResult, saved: bool,
                                ghost cache: Cache)
      requires Mirrors(cache)
      modifies this
      ensures entries == if saved then old(entries)[IdempotencyKey(userId, key) := Protocol.CacheEntry(hash, result)]
                         else old(entries)
      ensures Mirrors(if saved then cache[(userId, key) := Protocol.CacheEntry(hash, result)] else cache)
    {
      if !saved { return; }
      entries := entries[IdempotencyKey(userId, key) := Protocol.CacheEntry(hash, result)];
      forall user, k | IdempotencyKey(user, k) == IdempotencyKey(userId, key) ensures user == userId && k == key {
        IdempotencyKeyInjective(user, k, userId, key);
      }
    }
  }
}
