/** The two Redis scripts behind the rate limiter: `reserve.lua` checks an
    organisation, a team and a key bucket and deducts from all three or from
    none; `adjust.lua` refunds or charges the difference afterwards. Buckets
    refill lazily and expire, and a missing bucket reads as a full one. Lua
    numbers are reals here, and the clock (Redis TIME) is a parameter. */
module TokenBuckets {
  import opened Wrappers

  const BUCKET_TTL: real := 120.0
  const REFILL_WINDOW: real := 60.0

  datatype Scope = Org | Team | Key

  datatype BucketId = BucketId(scope: Scope, id: string)

  datatype Bucket = Bucket(tokens: real, lastRefill: real, expiry: real)

  type Store = map<BucketId, Bucket>

  datatype Scopes = Scopes(orgId: string, teamId: string, keyId: string,
                           orgCapacity: real, teamCapacity: real, keyCapacity: real)
  {
    function Id(i: nat): BucketId
      requires i < 3
    {
      if i == 0 then BucketId(Org, orgId) else if i == 1 then BucketId(Team, teamId) else BucketId(Key, keyId)
    }

    function Capacity(i: nat): real
      requires i < 3
    {
      if i == 0 then orgCapacity else if i == 1 then teamCapacity else keyCapacity
    }

    predicate Positive() {
      orgCapacity > 0.0 && teamCapacity > 0.0 && keyCapacity > 0.0
    }

    predicate Touches(b: BucketId) {
      b == Id(0) || b == Id(1) || b == Id(2)
    }
  }

  datatype Decision = Decision(allowed: bool, retryAfterMs: int, limitingScope: Option<Scope>, remaining: int)

  function Min(a: real, b: real): real {
    if a < b then a else b
  }

  function Max(a: real, b: real): real {
    if a < b then b else a
  }

  function Ceil(x: real): int {
    -((-x).Floor)
  }

  // Tokens a bucket of the given capacity earns in `elapsed` seconds.
  function Earned(capacity: real, elapsed: real): real {
    elapsed * (capacity / REFILL_WINDOW)
  }

  function Refill(b: Bucket, capacity: real, now: real): real {
    Min(capacity, b.tokens + Earned(capacity, Max(0.0, now - b.lastRefill)))
  }

  predicate Live(store: Store, id: BucketId, now: real) {
    id in store && now <= store[id].expiry
  }

  function Balance(store: Store, id: BucketId, capacity: real, now: real): real {
    if Live(store, id, now) then Refill(store[id], capacity, now) else capacity
  }

  function Balances(store: Store, s: Scopes, now: real): (r: seq<real>)
    ensures |r| == 3
  {
    seq(3, i requires 0 <= i < 3 => Balance(store, s.Id(i), s.Capacity(i), now))
  }

  predicate Admits(balances: seq<real>, cost: real) {
    forall i | 0 <= i < |balances| :: balances[i] >= cost
  }

  // Milliseconds until a bucket holding `tokens` has earned enough for `cost`.
  function RetryAfterMs(tokens: real, cost: real, capacity: real): int
    requires capacity > 0.0
  {
    Ceil((cost - tokens) / (capacity / REFILL_WINDOW) * 1000.0)
  }

  predicate FirstShort(balances: seq<real>, cost: real, i: nat) {
    i < |balances| && balances[i] < cost && forall j | 0 <= j < i :: balances[j] >= cost
  }

  function ScopeAt(i: nat): Scope {
    if i == 0 then Org else if i == 1 then Team else Key
  }

  // What the caller is told, as a function of the three refilled balances.
  ghost predicate Decides(balances: seq<real>, s: Scopes, cost: real, d: Decision)
    requires |balances| == 3 && s.Positive()
  {
    if Admits(balances, cost) then
      d == Decision(true, 0, None, (balances[2] - cost).Floor)
    else
      exists i: nat :: FirstShort(balances, cost, i)
               && d == Decision(false, RetryAfterMs(balances[i], cost, s.Capacity(i)), Some(ScopeAt(i)), 0)
  }

  // The first n of the three buckets rewritten at time `now`.
  function Written(store: Store, s: Scopes, tokens: seq<real>, now: real, n: nat): Store
    requires n <= 3 && |tokens| == 3
  {
    if n == 0 then store
    else Written(store, s, tokens, now, n - 1)[s.Id(n - 1) := Bucket(tokens[n - 1], now, now + BUCKET_TTL)]
  }

  function ReservedTokens(store: Store, s: Scopes, cost: real, now: real): (r: seq<real>)
    ensures |r| == 3
  {
    seq(3, i requires 0 <= i < 3 => Balance(store, s.Id(i), s.Capacity(i), now) - cost)
  }

  function AdjustedTokens(store: Store, s: Scopes, delta: real, now: real): (r: seq<real>)
    ensures |r| == 3
  {
    seq(3, i requires 0 <= i < 3 => Min(s.Capacity(i), Balance(store, s.Id(i), s.Capacity(i), now) + delta))
  }

  // The store after reserve.lua, and after Adjust.
  function Reserved(store: Store, s: Scopes, cost: real, now: real): Store {
    if Admits(Balances(store, s, now), cost) then Written(store, s, ReservedTokens(store, s, cost, now), now, 3)
    else store
  }

  function Adjusted(store: Store, s: Scopes, delta: real, now: real): Store {
    if delta == 0.0 then store else Written(store, s, AdjustedTokens(store, s, delta, now), now, 3)
  }

  lemma WrittenLookup(store: Store, s: Scopes, tokens: seq<real>, now: real, n: nat, b: BucketId)
    requires n <= 3 && |tokens| == 3
    ensures forall i | 0 <= i < n :: s.Id(i) in Written(store, s, tokens, now, n)
                 && Written(store, s, tokens, now, n)[s.Id(i)] == Bucket(tokens[i], now, now + BUCKET_TTL)
    ensures (forall i | 0 <= i < n :: b != s.Id(i)) ==>
              (b in Written(store, s, tokens, now, n) <==> b in store)
              && (b in store ==> Written(store, s, tokens, now, n)[b] == store[b])
  {
    if n > 0 {
      WrittenLookup(store, s, tokens, now, n - 1, b);
    }
  }

  // A bucket nobody touched.
  predicate Same(store: Store, after: Store, id: BucketId) {
    if id in store then id in after && after[id] == store[id] else id !in after
  }

  // How a bucket just written reads later: refilled at a capacity a minute for two
  // minutes, full after that.
  function Later(tokens: real, capacity: real, dt: real): real {
    if dt > 120.0 then capacity else Min(capacity, tokens + capacity * dt / 60.0)
  }

  lemma WrittenReads(store: Store, s: Scopes, tokens: seq<real>, now: real, i: nat, dt: real)
    requires |tokens| == 3 && i < 3 && dt >= 0.0
    ensures Balance(Written(store, s, tokens, now, 3), s.Id(i), s.Capacity(i), now + dt)
         == Later(tokens[i], s.Capacity(i), dt)
  {
    WrittenLookup(store, s, tokens, now, 3, s.Id(i));
    assert Written(store, s, tokens, now, 3)[s.Id(i)] == Bucket(tokens[i], now, now + BUCKET_TTL);
    assert Earned(s.Capacity(i), dt) == s.Capacity(i) * dt / 60.0;
  }

  /** What a Reserve means for the organisation, the team and the key it names, each
      with its own bucket and capacity: it is admitted exactly when all three hold
      the cost, and a rejection blames the first that does not and asks for as long
      as that one needs. */
  lemma ReserveAsksEachScope(store: Store, s: Scopes, cost: real, now: real, d: Decision)
    requires s.Positive() && Decides(Balances(store, s, now), s, cost, d)
    ensures
      var org := Balance(store, BucketId(Org, s.orgId), s.orgCapacity, now);
      var team := Balance(store, BucketId(Team, s.teamId), s.teamCapacity, now);
      var key := Balance(store, BucketId(Key, s.keyId), s.keyCapacity, now);
      && (d.allowed <==> org >= cost && team >= cost && key >= cost)
      && (d.allowed ==> d.limitingScope == None && d.retryAfterMs == 0)
      && (!d.allowed ==>
            match d.limitingScope
            case Some(Org) => org < cost && d.retryAfterMs == RetryAfterMs(org, cost, s.orgCapacity)
            case Some(Team) => org >= cost > team && d.retryAfterMs == RetryAfterMs(team, cost, s.teamCapacity)
            case Some(Key) =>
              && org >= cost && team >= cost > key
              && d.retryAfterMs == RetryAfterMs(key, cost, s.keyCapacity)
            case None => false)
  {
    var balances := Balances(store, s, now);
    assert balances[0] == Balance(store, BucketId(Org, s.orgId), s.orgCapacity, now);
    assert balances[1] == Balance(store, BucketId(Team, s.teamId), s.teamCapacity, now);
    assert balances[2] == Balance(store, BucketId(Key, s.keyId), s.keyCapacity, now);
  }

  /** An admitted Reserve takes the cost out of all three, as seen at any later time,
      and reports what is left of the key's; a rejected one changes nothing. */
  lemma ReserveTakesFromEachScope(store: Store, s: Scopes, cost: real, now: real, d: Decision, dt: real)
    requires s.Positive() && dt >= 0.0 && Decides(Balances(store, s, now), s, cost, d)
    ensures
      var org, team, key := BucketId(Org, s.orgId), BucketId(Team, s.teamId), BucketId(Key, s.keyId);
      var after := Reserved(store, s, cost, now);
      && (!d.allowed ==> after == store)
      && (d.allowed ==>
            && Balance(after, org, s.orgCapacity, now + dt)
               == Later(Balance(store, org, s.orgCapacity, now) - cost, s.orgCapacity, dt)
            && Balance(after, team, s.teamCapacity, now + dt)
               == Later(Balance(store, team, s.teamCapacity, now) - cost, s.teamCapacity, dt)
            && Balance(after, key, s.keyCapacity, now + dt)
               == Later(Balance(store, key, s.keyCapacity, now) - cost, s.keyCapacity, dt)
            && (cost >= 0.0 ==> d.remaining == Balance(after, key, s.keyCapacity, now).Floor))
      && forall id | id !in {org, team, key} :: Same(store, after, id)
  {
    if d.allowed {
      var tokens := ReservedTokens(store, s, cost, now);
      WrittenReads(store, s, tokens, now, 0, dt);
      WrittenReads(store, s, tokens, now, 1, dt);
      WrittenReads(store, s, tokens, now, 2, dt);
      WrittenReads(store, s, tokens, now, 2, 0.0);
      OthersKeep(store, s, tokens, now);
    }
  }

  lemma OthersKeep(store: Store, s: Scopes, tokens: seq<real>, now: real)
    requires |tokens| == 3
    ensures
      var org, team, key := BucketId(Org, s.orgId), BucketId(Team, s.teamId), BucketId(Key, s.keyId);
      var after := Written(store, s, tokens, now, 3);
      forall id | id !in {org, team, key} :: Same(store, after, id)
  {
    var org, team, key := BucketId(Org, s.orgId), BucketId(Team, s.teamId), BucketId(Key, s.keyId);
    var after := Written(store, s, tokens, now, 3);
    forall id | id !in {org, team, key} ensures Same(store, after, id) {
      WrittenLookup(store, s, tokens, now, 3, id);
    }
  }

  /** An Adjust moves all three by the difference, up to each one's own capacity;
      without a difference it touches nothing. */
  lemma AdjustMovesEachScope(store: Store, s: Scopes, delta: real, now: real, dt: real)
    requires s.Positive() && dt >= 0.0
    ensures
      var org, team, key := BucketId(Org, s.orgId), BucketId(Team, s.teamId), BucketId(Key, s.keyId);
      var after := Adjusted(store, s, delta, now);
      && (delta == 0.0 ==> after == store)
      && (delta != 0.0 ==>
            && Balance(after, org, s.orgCapacity, now + dt)
               == Later(Min(s.orgCapacity, Balance(store, org, s.orgCapacity, now) + delta), s.orgCapacity, dt)
            && Balance(after, team, s.teamCapacity, now + dt)
               == Later(Min(s.teamCapacity, Balance(store, team, s.teamCapacity, now) + delta), s.teamCapacity, dt)
            && Balance(after, key, s.keyCapacity, now + dt)
               == Later(Min(s.keyCapacity, Balance(store, key, s.keyCapacity, now) + delta), s.keyCapacity, dt))
      && forall id | id !in {org, team, key} :: Same(store, after, id)
  {
    var tokens := AdjustedTokens(store, s, delta, now);
    WrittenReads(store, s, tokens, now, 0, dt);
    WrittenReads(store, s, tokens, now, 1, dt);
    WrittenReads(store, s, tokens, now, 2, dt);
    OthersKeep(store, s, tokens, now);
  }

  /** The Redis database as the two scripts see it. */
  class RedisBuckets {
    var store: Store

    constructor ()
      ensures store == map[]
    {
      store := map[];
    }

    // The refill both scripts start each bucket with.
    method Refilled(id: BucketId, capacity: real, now: real) returns (tokens: real)
      ensures tokens == Balance(store, id, capacity, now)
    {
      tokens := capacity;
      if Live(store, id, now) {
        var b := store[id];
        var elapsed := now - b.lastRefill;
        if elapsed < 0.0 {
          elapsed := 0.0;
        }
        tokens := Min(capacity, b.tokens + Earned(capacity, elapsed));
      }
    }

    method Reserve(s: Scopes, cost: real, now: real) returns (d: Decision)
      requires s.Positive()
      modifies this
      ensures Decides(Balances(old(store), s, now), s, cost, d)
      ensures store == Reserved(old(store), s, cost, now)
    {
      var balances: seq<real> := [];
      for i := 0 to 3
        invariant |balances| == i && store == old(store)
        invariant balances == Balances(store, s, now)[..i] && Admits(balances, cost)
      {
        var capacity := s.Capacity(i);
        var tokens := Refilled(s.Id(i), capacity, now);
        balances := balances + [tokens];
        assert tokens == Balances(store, s, now)[i];
        if tokens < cost {
          assert FirstShort(Balances(store, s, now), cost, i) by {
            forall j | 0 <= j < i ensures Balances(store, s, now)[j] >= cost { assert balances[j] >= cost; }
          }
          return Decision(false, RetryAfterMs(tokens, cost, capacity), Some(ScopeAt(i)), 0);
        }
      }
      assert balances == Balances(store, s, now);
      ghost var reserved := ReservedTokens(old(store), s, cost, now);
      for i := 0 to 3
        invariant |balances| == 3
        invariant forall j | 0 <= j < 3 :: balances[j] == if j < i then reserved[j] else reserved[j] + cost
        invariant store == Written(old(store), s, reserved, now, i)
      {
        var newTokens := balances[i] - cost;
        store := store[s.Id(i) := Bucket(newTokens, now, now + BUCKET_TTL)];
        balances := balances[i := newTokens];
      }
      d := Decision(true, 0, None, balances[2].Floor);
    }

    method Adjust(s: Scopes, delta: real, now: real)
      requires s.Positive()
      modifies this
      ensures store == Adjusted(old(store), s, delta, now)
    {
      if delta == 0.0 {
        return;
      }
      ghost var adjusted := AdjustedTokens(store, s, delta, now);
      for i := 0 to 3
        invariant store == Written(old(store), s, adjusted, now, i)
      {
        WrittenLookup(old(store), s, adjusted, now, i, s.Id(i));
        var capacity := s.Capacity(i);
        var tokens := Refilled(s.Id(i), capacity, now);
        tokens := tokens + delta;
        if tokens > capacity {
          tokens := capacity;
        }
        store := store[s.Id(i) := Bucket(tokens, now, now + BUCKET_TTL)];
      }
    }
  }
}
