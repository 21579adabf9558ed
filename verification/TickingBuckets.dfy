/** A reference limiter with a background ticker: every bucket is topped up
    continuously and none ever expires. The lazily refilled, expiring buckets of
    TokenBuckets refine it, and the Retry-After they report is exact. */
module TickingBuckets {
  import opened TokenBuckets

  type Capacities = BucketId -> real

  // The level of each bucket right now; a bucket never written is full.
  type Levels = map<BucketId, real>

  datatype Op =
    | ReserveOp(s: Scopes, cost: real, now: real)
    | AdjustOp(s: Scopes, delta: real, now: real)

  // Capacities are positive and every request quotes the same one for a bucket.
  ghost predicate Agrees(caps: Capacities, s: Scopes) {
    s.Positive() && forall i: nat | i < 3 :: s.Capacity(i) == caps(s.Id(i))
  }

  function Tick(level: real, capacity: real, dt: real): real {
    Min(capacity, level + Earned(capacity, dt))
  }

  function Level(levels: Levels, id: BucketId, capacity: real): real {
    if id in levels then levels[id] else capacity
  }

  function TickAll(caps: Capacities, levels: Levels, dt: real): Levels {
    map id | id in levels :: Tick(levels[id], caps(id), dt)
  }

  function Touched(levels: Levels, s: Scopes, change: real): Levels {
    var changed := i requires 0 <= i < 3 => Min(s.Capacity(i), Level(levels, s.Id(i), s.Capacity(i)) + change);
    levels[s.Id(0) := changed(0)][s.Id(1) := changed(1)][s.Id(2) := changed(2)]
  }

  function LevelsOf(levels: Levels, s: Scopes): (r: seq<real>)
    ensures |r| == 3
  {
    seq(3, i requires 0 <= i < 3 => Level(levels, s.Id(i), s.Capacity(i)))
  }

  function TickedOp(levels: Levels, op: Op): Levels {
    match op
    case ReserveOp(s, cost, _) => if Admits(LevelsOf(levels, s), cost) then Touched(levels, s, -cost) else levels
    case AdjustOp(s, delta, _) => Touched(levels, s, delta)
  }

  function LazyOp(store: Store, op: Op): Store {
    match op
    case ReserveOp(s, cost, now) => Reserved(store, s, cost, now)
    case AdjustOp(s, delta, now) => Adjusted(store, s, delta, now)
  }

  // The three balances each call sees; with the cost they fix its decision.
  function LazyView(store: Store, ops: seq<Op>): seq<seq<real>>
    decreases |ops|
  {
    if ops == [] then []
    else [Balances(store, ops[0].s, ops[0].now)] + LazyView(LazyOp(store, ops[0]), ops[1..])
  }

  function TickedView(caps: Capacities, levels: Levels, clock: real, ops: seq<Op>): seq<seq<real>>
    decreases |ops|
  {
    if ops == [] then []
    else
      var ticked := TickAll(caps, levels, ops[0].now - clock);
      [LevelsOf(ticked, ops[0].s)] + TickedView(caps, TickedOp(ticked, ops[0]), ops[0].now, ops[1..])
  }

  ghost predicate Timed(caps: Capacities, clock: real, ops: seq<Op>)
    decreases |ops|
  {
    ops == [] || (clock <= ops[0].now && Agrees(caps, ops[0].s) && Timed(caps, ops[0].now, ops[1..]))
  }

  // A call forgives debt: it reads an expired bucket as full that has not yet
  // earned its way back to capacity.
  predicate Forgives(store: Store, s: Scopes, now: real) {
    exists i: nat :: i < 3 && ForgivesAt(store, s.Id(i), s.Capacity(i), now)
  }

  predicate ForgivesAt(store: Store, id: BucketId, capacity: real, now: real) {
    && id in store && store[id].expiry < now
    && store[id].tokens + Earned(capacity, now - store[id].lastRefill) < capacity
  }

  predicate NoneForgiven(store: Store, ops: seq<Op>)
    decreases |ops|
  {
    ops == [] || (!Forgives(store, ops[0].s, ops[0].now) && NoneForgiven(LazyOp(store, ops[0]), ops[1..]))
  }

  // No bucket expires more than one capacity in debt.
  ghost predicate ShallowRun(caps: Capacities, store: Store, ops: seq<Op>)
    decreases |ops|
  {
    ops == [] ||
    ((forall id | id in store && store[id].expiry < ops[0].now :: store[id].tokens >= -caps(id))
     && ShallowRun(caps, LazyOp(store, ops[0]), ops[1..]))
  }

  // What every store written by the scripts up to `clock` satisfies.
  ghost predicate Stamped(store: Store, clock: real) {
    forall id | id in store :: store[id].lastRefill <= clock && store[id].expiry == store[id].lastRefill + BUCKET_TTL
  }

  // The balance a bucket would have if it never expired.
  function Uncut(store: Store, id: BucketId, capacity: real, now: real): real {
    if id in store then Refill(store[id], capacity, now) else capacity
  }

  ghost predicate Mirrors(caps: Capacities, store: Store, clock: real, levels: Levels) {
    && (forall id :: caps(id) > 0.0)
    && Stamped(store, clock)
    && forall id :: Uncut(store, id, caps(id), clock) == Level(levels, id, caps(id))
  }

  lemma EarnedSplit(capacity: real, a: real, b: real)
    ensures Earned(capacity, a + b) == Earned(capacity, a) + Earned(capacity, b)
  {
    var rate := capacity / REFILL_WINDOW;
    assert (a + b) * rate == a * rate + b * rate;
  }

  lemma EarnedGrows(capacity: real, a: real, b: real)
    requires capacity > 0.0 && a <= b
    ensures Earned(capacity, a) <= Earned(capacity, b)
  {
    EarnedSplit(capacity, a, b - a);
    assert (b - a) * (capacity / REFILL_WINDOW) >= 0.0;
  }

  lemma TickSplit(level: real, capacity: real, a: real, b: real)
    requires capacity > 0.0 && a >= 0.0 && b >= 0.0
    ensures Tick(Tick(level, capacity, a), capacity, b) == Tick(level, capacity, a + b)
  {
    EarnedSplit(capacity, a, b);
    EarnedGrows(capacity, 0.0, b);
  }

  function TickMany(level: real, capacity: real, dts: seq<real>): real
    decreases |dts|
  {
    if dts == [] then level else TickMany(Tick(level, capacity, dts[0]), capacity, dts[1..])
  }

  function Total(dts: seq<real>): real {
    if dts == [] then 0.0 else dts[0] + Total(dts[1..])
  }

  /** However an interval is cut into ticks, the level at its end is the one a
      single refill over the whole interval computes. */
  lemma {:induction false} AnyTickingIsOneRefill(level: real, capacity: real, dts: seq<real>)
    requires capacity > 0.0 && level <= capacity && forall i | 0 <= i < |dts| :: dts[i] >= 0.0
    ensures TickMany(level, capacity, dts) == Tick(level, capacity, Total(dts)) && Total(dts) >= 0.0
    decreases |dts|
  {
    if dts == [] {
      assert Earned(capacity, 0.0) == 0.0;
    } else {
      AnyTickingIsOneRefill(Tick(level, capacity, dts[0]), capacity, dts[1..]);
      TickSplit(level, capacity, dts[0], Total(dts[1..]));
    }
  }

  lemma BalanceTicks(store: Store, id: BucketId, capacity: real, t: real, u: real)
    requires capacity > 0.0 && Stamped(store, t) && t <= u
    requires id in store ==> store[id].tokens >= -capacity
    ensures Balance(store, id, capacity, u) == Tick(Balance(store, id, capacity, t), capacity, u - t)
  {
    EarnedGrows(capacity, 0.0, u - t);
    if id in store {
      var b := store[id];
      EarnedSplit(capacity, t - b.lastRefill, u - t);
      if u > b.expiry {
        EarnedGrows(capacity, BUCKET_TTL, u - b.lastRefill);
        assert Earned(capacity, BUCKET_TTL) == 2.0 * capacity;
      }
    }
  }

  /** Expiry with "missing means full" can never be noticed on a bucket, at any
      later time, exactly when its last write left it at most one capacity in
      debt. */
  lemma ExpiryUnobservable(id: BucketId, b: Bucket, capacity: real)
    requires capacity > 0.0 && b.expiry == b.lastRefill + BUCKET_TTL
    ensures (forall t | t >= b.lastRefill ::
               Balance(map[id := b], id, capacity, t) == Tick(b.tokens, capacity, t - b.lastRefill))
            <==> b.tokens >= -capacity
  {
    var store: Store := map[id := b];
    assert Earned(capacity, 0.0) == 0.0;
    if b.tokens >= -capacity {
      forall t | t >= b.lastRefill
        ensures Balance(store, id, capacity, t) == Tick(b.tokens, capacity, t - b.lastRefill)
      {
        BalanceTicks(store, id, capacity, b.lastRefill, t);
        EarnedGrows(capacity, 0.0, t - b.lastRefill);
      }
    } else {
      var rate := capacity / REFILL_WINDOW;
      var late := (-capacity - b.tokens) / 2.0 / rate;
      var t := b.lastRefill + BUCKET_TTL + late;
      assert late * rate == (-capacity - b.tokens) / 2.0;
      assert late > 0.0;
      EarnedSplit(capacity, BUCKET_TTL, late);
      assert Earned(capacity, BUCKET_TTL) == 2.0 * capacity;
      assert Balance(store, id, capacity, t) == capacity;
      assert Tick(b.tokens, capacity, t - b.lastRefill) < capacity;
    }
  }

  // A charge of three capacities is forgiven in full two minutes later.
  lemma DeepDebtIsForgiven()
    ensures
      var s := Scopes("o", "t", "k", 60.0, 60.0, 60.0);
      var store := Adjusted(map[], s, -180.0, 0.0);
      Balance(store, s.Id(2), 60.0, 121.0) == 60.0 && Tick(Tick(60.0, 60.0, 0.0) - 180.0, 60.0, 121.0) == 1.0
  {
    var s := Scopes("o", "t", "k", 60.0, 60.0, 60.0);
    WrittenLookup(map[], s, AdjustedTokens(map[], s, -180.0, 0.0), 0.0, 3, s.Id(2));
    assert !Live(Adjusted(map[], s, -180.0, 0.0), s.Id(2), 121.0);
  }

  lemma UncutTicks(store: Store, id: BucketId, capacity: real, t: real, u: real)
    requires capacity > 0.0 && Stamped(store, t) && t <= u
    ensures Uncut(store, id, capacity, u) == Tick(Uncut(store, id, capacity, t), capacity, u - t)
  {
    if id in store {
      var b := store[id];
      EarnedSplit(capacity, t - b.lastRefill, u - t);
    }
    EarnedGrows(capacity, 0.0, u - t);
  }

  lemma TickAllMirrors(caps: Capacities, store: Store, clock: real, levels: Levels, now: real)
    requires Mirrors(caps, store, clock, levels) && clock <= now
    ensures Mirrors(caps, store, now, TickAll(caps, levels, now - clock))
  {
    forall id ensures Uncut(store, id, caps(id), now) == Level(TickAll(caps, levels, now - clock), id, caps(id)) {
      UncutTicks(store, id, caps(id), clock, now);
      EarnedGrows(caps(id), 0.0, now - clock);
    }
  }

  // Expiry shows in a balance exactly where it forgives.
  lemma ForgivenDiffers(store: Store, id: BucketId, capacity: real, now: real)
    requires Stamped(store, now)
    ensures Balance(store, id, capacity, now) == Uncut(store, id, capacity, now)
            <==> !ForgivesAt(store, id, capacity, now)
  {
  }

  lemma JustWritten(store: Store, id: BucketId, capacity: real, now: real)
    requires id in store && store[id].lastRefill == now
    ensures Uncut(store, id, capacity, now) == Min(capacity, store[id].tokens)
  {
    assert Earned(capacity, 0.0) == 0.0;
  }

  lemma WriteMirrorsAt(store: Store, now: real, levels: Levels, s: Scopes, change: real, tokens: seq<real>, i: nat)
    requires i < 3 && |tokens| == 3
    requires Balance(store, s.Id(i), s.Capacity(i), now) == Level(levels, s.Id(i), s.Capacity(i))
    requires Min(s.Capacity(i), tokens[i]) == Min(s.Capacity(i), Balances(store, s, now)[i] + change)
    ensures Uncut(Written(store, s, tokens, now, 3), s.Id(i), s.Capacity(i), now)
         == Level(Touched(levels, s, change), s.Id(i), s.Capacity(i))
  {
    var store' := Written(store, s, tokens, now, 3);
    WrittenLookup(store, s, tokens, now, 3, s.Id(i));
    assert store'[s.Id(i)] == Bucket(tokens[i], now, now + BUCKET_TTL);
    JustWritten(store', s.Id(i), s.Capacity(i), now);
  }

  lemma WriteMirrors(caps: Capacities, store: Store, now: real, levels: Levels, s: Scopes, change: real,
                     tokens: seq<real>)
    requires Mirrors(caps, store, now, levels) && Agrees(caps, s) && |tokens| == 3 && !Forgives(store, s, now)
    requires forall i: nat | i < 3 ::
               Min(s.Capacity(i), tokens[i]) == Min(s.Capacity(i), Balances(store, s, now)[i] + change)
    ensures Mirrors(caps, Written(store, s, tokens, now, 3), now, Touched(levels, s, change))
  {
    var store' := Written(store, s, tokens, now, 3);
    forall id
      ensures Uncut(store', id, caps(id), now) == Level(Touched(levels, s, change), id, caps(id))
    {
      if s.Touches(id) {
        var i: nat := if id == s.Id(0) then 0 else if id == s.Id(1) then 1 else 2;
        ForgivenDiffers(store, id, caps(id), now);
        WriteMirrorsAt(store, now, levels, s, change, tokens, i);
      } else {
        WrittenLookup(store, s, tokens, now, 3, id);
      }
    }
    WrittenStamped(store, now, now, s, tokens);
  }

  lemma WrittenStamped(store: Store, clock: real, now: real, s: Scopes, tokens: seq<real>)
    requires Stamped(store, clock) && clock <= now && |tokens| == 3
    ensures Stamped(Written(store, s, tokens, now, 3), now)
  {
    var store' := Written(store, s, tokens, now, 3);
    forall id | id in store'
      ensures store'[id].lastRefill <= now && store'[id].expiry == store'[id].lastRefill + BUCKET_TTL
    {
      WrittenLookup(store, s, tokens, now, 3, id);
      if s.Touches(id) {
        var i: nat := if id == s.Id(0) then 0 else if id == s.Id(1) then 1 else 2;
        assert store'[s.Id(i)] == Bucket(tokens[i], now, now + BUCKET_TTL);
      }
    }
  }

  // A call sees the ticking levels exactly when it forgives nothing.
  lemma ViewsAgree(caps: Capacities, store: Store, now: real, levels: Levels, s: Scopes)
    requires Mirrors(caps, store, now, levels) && Agrees(caps, s)
    ensures Balances(store, s, now) == LevelsOf(levels, s) <==> !Forgives(store, s, now)
  {
    forall i: nat | i < 3
      ensures Balances(store, s, now)[i] == LevelsOf(levels, s)[i] <==> !ForgivesAt(store, s.Id(i), s.Capacity(i), now)
    {
      assert s.Capacity(i) == caps(s.Id(i));
      ForgivenDiffers(store, s.Id(i), s.Capacity(i), now);
    }
    if Balances(store, s, now) == LevelsOf(levels, s) {
      forall i: nat | i < 3 ensures !ForgivesAt(store, s.Id(i), s.Capacity(i), now) {
        assert Balances(store, s, now)[i] == LevelsOf(levels, s)[i];
      }
    }
  }

  lemma ReserveMirrors(caps: Capacities, store: Store, levels: Levels, s: Scopes, cost: real, now: real)
    requires Mirrors(caps, store, now, levels) && Agrees(caps, s) && !Forgives(store, s, now)
    ensures Mirrors(caps, Reserved(store, s, cost, now), now, TickedOp(levels, ReserveOp(s, cost, now)))
  {
    ViewsAgree(caps, store, now, levels, s);
    if Admits(LevelsOf(levels, s), cost) {
      WriteMirrors(caps, store, now, levels, s, -cost, ReservedTokens(store, s, cost, now));
    }
  }

  lemma AdjustMirrors(caps: Capacities, store: Store, levels: Levels, s: Scopes, delta: real, now: real)
    requires Mirrors(caps, store, now, levels) && Agrees(caps, s) && !Forgives(store, s, now)
    ensures Mirrors(caps, Adjusted(store, s, delta, now), now, Touched(levels, s, delta))
  {
    if delta == 0.0 {
      UntouchedMirrors(caps, store, now, levels, s);
    } else {
      WriteMirrors(caps, store, now, levels, s, delta, AdjustedTokens(store, s, delta, now));
    }
  }

  lemma OpMirrors(caps: Capacities, store: Store, levels: Levels, op: Op)
    requires Mirrors(caps, store, op.now, levels) && Agrees(caps, op.s) && !Forgives(store, op.s, op.now)
    ensures Mirrors(caps, LazyOp(store, op), op.now, TickedOp(levels, op))
  {
    match op
    case ReserveOp(s, cost, now) => ReserveMirrors(caps, store, levels, s, cost, now);
    case AdjustOp(s, delta, now) => AdjustMirrors(caps, store, levels, s, delta, now);
  }

  lemma UntouchedMirrors(caps: Capacities, store: Store, now: real, levels: Levels, s: Scopes)
    requires Mirrors(caps, store, now, levels) && Agrees(caps, s)
    ensures Mirrors(caps, store, now, Touched(levels, s, 0.0))
  {
    forall id ensures Level(Touched(levels, s, 0.0), id, caps(id)) == Level(levels, id, caps(id)) {
      assert Uncut(store, id, caps(id), now) <= caps(id);
      assert forall i: nat | i < 3 :: s.Capacity(i) == caps(s.Id(i));
    }
  }

  // One call: the two limiters show the same balances exactly when nothing is
  // forgiven, and then they stay in agreement.
  lemma StepMirrors(caps: Capacities, store: Store, clock: real, levels: Levels, op: Op)
    requires Mirrors(caps, store, clock, levels) && clock <= op.now && Agrees(caps, op.s)
    ensures
      var ticked := TickAll(caps, levels, op.now - clock);
      && (Balances(store, op.s, op.now) == LevelsOf(ticked, op.s) <==> !Forgives(store, op.s, op.now))
      && (!Forgives(store, op.s, op.now) ==> Mirrors(caps, LazyOp(store, op), op.now, TickedOp(ticked, op)))
  {
    var ticked := TickAll(caps, levels, op.now - clock);
    TickAllMirrors(caps, store, clock, levels, op.now);
    ViewsAgree(caps, store, op.now, ticked, op.s);
    if !Forgives(store, op.s, op.now) {
      OpMirrors(caps, store, ticked, op);
    }
  }

  // Call by call, the two limiters show the same balances.
  ghost predicate InStep(caps: Capacities, store: Store, clock: real, levels: Levels, ops: seq<Op>)
    decreases |ops|
  {
    ops == [] ||
    var op, ticked := ops[0], TickAll(caps, levels, ops[0].now - clock);
    && Balances(store, op.s, op.now) == LevelsOf(ticked, op.s)
    && InStep(caps, LazyOp(store, op), op.now, TickedOp(ticked, op), ops[1..])
  }

  lemma {:induction false} MirrorsStayInStep(caps: Capacities, store: Store, clock: real, levels: Levels, ops: seq<Op>)
    requires Mirrors(caps, store, clock, levels) && Timed(caps, clock, ops)
    ensures InStep(caps, store, clock, levels, ops) <==> NoneForgiven(store, ops)
    decreases |ops|
  {
    if ops != [] {
      var op := ops[0];
      StepMirrors(caps, store, clock, levels, op);
      if !Forgives(store, op.s, op.now) {
        var ticked := TickAll(caps, levels, op.now - clock);
        MirrorsStayInStep(caps, LazyOp(store, op), op.now, TickedOp(ticked, op), ops[1..]);
      }
      InStepByStep(caps, store, clock, levels, ops);
    }
  }

  lemma InStepByStep(caps: Capacities, store: Store, clock: real, levels: Levels, ops: seq<Op>)
    requires ops != []
    requires
      var op, ticked := ops[0], TickAll(caps, levels, ops[0].now - clock);
      && (Balances(store, op.s, op.now) == LevelsOf(ticked, op.s) <==> !Forgives(store, op.s, op.now))
      && (!Forgives(store, op.s, op.now) ==>
            (InStep(caps, LazyOp(store, op), op.now, TickedOp(ticked, op), ops[1..])
             <==> NoneForgiven(LazyOp(store, op), ops[1..])))
    ensures InStep(caps, store, clock, levels, ops) <==> NoneForgiven(store, ops)
  {
  }

  lemma {:induction false} InStepViews(caps: Capacities, store: Store, clock: real, levels: Levels, ops: seq<Op>)
    ensures InStep(caps, store, clock, levels, ops) <==> LazyView(store, ops) == TickedView(caps, levels, clock, ops)
    decreases |ops|
  {
    if ops != [] {
      var op, ticked := ops[0], TickAll(caps, levels, ops[0].now - clock);
      InStepViews(caps, LazyOp(store, op), op.now, TickedOp(ticked, op), ops[1..]);
      HeadAndTail(Balances(store, op.s, op.now), LazyView(LazyOp(store, op), ops[1..]),
                  LevelsOf(ticked, op.s), TickedView(caps, TickedOp(ticked, op), op.now, ops[1..]));
    }
  }

  lemma HeadAndTail(x: seq<real>, xs: seq<seq<real>>, y: seq<real>, ys: seq<seq<real>>)
    ensures [x] + xs == [y] + ys <==> x == y && xs == ys
  {
    if [x] + xs == [y] + ys {
      assert ([x] + xs)[0] == x && ([y] + ys)[0] == y;
      assert ([x] + xs)[1..] == xs && ([y] + ys)[1..] == ys;
    }
  }

  /** Over every run of Reserve and Adjust calls, each call sees exactly the
      balances of the limiter that ticks continuously and never forgets a bucket,
      if and only if no call reads a bucket that expired before it had earned its
      debt back. */
  lemma LazyRefinesTicking(caps: Capacities, store: Store, clock: real, levels: Levels, ops: seq<Op>)
    requires Mirrors(caps, store, clock, levels) && Timed(caps, clock, ops)
    ensures LazyView(store, ops) == TickedView(caps, levels, clock, ops) <==> NoneForgiven(store, ops)
  {
    MirrorsStayInStep(caps, store, clock, levels, ops);
    InStepViews(caps, store, clock, levels, ops);
  }

  lemma OpStamped(store: Store, clock: real, op: Op)
    requires Stamped(store, clock) && clock <= op.now
    ensures Stamped(LazyOp(store, op), op.now)
  {
    match op
    case ReserveOp(s, cost, now) => WrittenStamped(store, clock, now, s, ReservedTokens(store, s, cost, now));
    case AdjustOp(s, delta, now) => WrittenStamped(store, clock, now, s, AdjustedTokens(store, s, delta, now));
  }

  /** In particular a run in which no bucket expires more than one capacity in debt
      forgives nothing, however deep its buckets went in between. */
  lemma {:induction false} ShallowForgivesNothing(caps: Capacities, store: Store, clock: real, ops: seq<Op>)
    requires Stamped(store, clock) && Timed(caps, clock, ops) && ShallowRun(caps, store, ops)
    ensures NoneForgiven(store, ops)
    decreases |ops|
  {
    if ops != [] {
      var op := ops[0];
      forall i: nat | i < 3 ensures !ForgivesAt(store, op.s.Id(i), op.s.Capacity(i), op.now) {
        var id := op.s.Id(i);
        assert op.s.Capacity(i) == caps(id);
        if id in store && store[id].expiry < op.now {
          EarnedGrows(caps(id), BUCKET_TTL, op.now - store[id].lastRefill);
          assert Earned(caps(id), BUCKET_TTL) == 2.0 * caps(id);
        }
      }
      OpStamped(store, clock, op);
      ShallowForgivesNothing(caps, LazyOp(store, op), op.now, ops[1..]);
    }
  }

  /** A rejected call is told to wait `ms` on the bucket that stopped it, missing
      or not. Left alone, that bucket then admits the cost exactly when the cost
      fits the capacity at all; a millisecond earlier it still refuses exactly when
      it has not expired in the meantime. */
  lemma RetryAfterIsExact(store: Store, id: BucketId, capacity: real, cost: real, now: real)
    requires capacity > 0.0 && Stamped(store, now) && Balance(store, id, capacity, now) < cost
    ensures
      var ms := RetryAfterMs(Balance(store, id, capacity, now), cost, capacity);
      && ms >= 1
      && (Balance(store, id, capacity, now + ms as real / 1000.0) >= cost <==> cost <= capacity)
      && (cost <= capacity ==>
            id in store && (Balance(store, id, capacity, now + (ms - 1) as real / 1000.0) < cost
                            <==> now + (ms - 1) as real / 1000.0 <= store[id].expiry))
  {
    var tokens := Balance(store, id, capacity, now);
    var ms := RetryAfterMs(tokens, cost, capacity);
    WaitBounds(tokens, cost, capacity);
    if cost <= capacity {
      WaitEnough(store, id, capacity, cost, now, ms as real / 1000.0);
      WaitTooShort(store, id, capacity, cost, now, (ms - 1) as real / 1000.0);
    }
  }

  lemma WaitBounds(tokens: real, cost: real, capacity: real)
    requires capacity > 0.0 && tokens < cost
    ensures
      var ms := RetryAfterMs(tokens, cost, capacity);
      && ms >= 1
      && Earned(capacity, (ms - 1) as real / 1000.0) < cost - tokens <= Earned(capacity, ms as real / 1000.0)
  {
    var rate := capacity / REFILL_WINDOW;
    var wait := (cost - tokens) / rate;
    var ms := RetryAfterMs(tokens, cost, capacity);
    WaitCovers(cost - tokens, rate);
    assert wait * 1000.0 <= ms as real < wait * 1000.0 + 1.0;
    EarnedBelow(capacity, (ms - 1) as real / 1000.0, wait);
    EarnedGrows(capacity, wait, ms as real / 1000.0);
  }

  lemma WaitEnough(store: Store, id: BucketId, capacity: real, cost: real, now: real, wait: real)
    requires capacity > 0.0 && Stamped(store, now) && wait >= 0.0
    requires Balance(store, id, capacity, now) < cost <= capacity
    requires Earned(capacity, wait) >= cost - Balance(store, id, capacity, now)
    ensures Balance(store, id, capacity, now + wait) >= cost
  {
    var b := store[id];
    EarnedSplit(capacity, now - b.lastRefill, wait);
    assert now - b.lastRefill + wait == now + wait - b.lastRefill;
  }

  lemma WaitTooShort(store: Store, id: BucketId, capacity: real, cost: real, now: real, wait: real)
    requires capacity > 0.0 && Stamped(store, now) && wait >= 0.0
    requires Balance(store, id, capacity, now) < cost <= capacity
    requires Earned(capacity, wait) < cost - Balance(store, id, capacity, now)
    ensures id in store && (Balance(store, id, capacity, now + wait) < cost <==> now + wait <= store[id].expiry)
  {
    var b := store[id];
    EarnedSplit(capacity, now - b.lastRefill, wait);
    assert now - b.lastRefill + wait == now + wait - b.lastRefill;
  }

  // Not minimal: a bucket three capacities in debt reports four minutes, but after
  // two its debt is forgotten and it admits the call.
  lemma WaitLongerThanNeeded(id: BucketId)
    ensures
      var store: Store := map[id := Bucket(-180.0, 0.0, BUCKET_TTL)];
      && Stamped(store, 0.0) && Balance(store, id, 60.0, 0.0) == -180.0
      && RetryAfterMs(-180.0, 60.0, 60.0) == 240_000 && Balance(store, id, 60.0, 121.0) == 60.0
  {
    assert Earned(60.0, 0.0) == 0.0;
    assert (60.0 - -180.0) / (60.0 / REFILL_WINDOW) * 1000.0 == 240_000.0;
  }

  // Not sufficient: a cost above the capacity is told to wait and refused again.
  lemma WaitInVain(id: BucketId)
    ensures RetryAfterMs(Balance(map[], id, 60.0, 0.0), 61.0, 60.0) == 1000 && Balance(map[], id, 60.0, 1.0) < 61.0
  {
    assert (61.0 - 60.0) / (60.0 / REFILL_WINDOW) * 1000.0 == 1000.0;
  }

  lemma WaitCovers(deficit: real, rate: real)
    requires deficit > 0.0 && rate > 0.0
    ensures deficit / rate > 0.0 && deficit / rate * rate == deficit
  {
  }

  lemma EarnedBelow(capacity: real, a: real, b: real)
    requires capacity > 0.0 && a < b
    ensures Earned(capacity, a) < Earned(capacity, b)
  {
    EarnedSplit(capacity, a, b - a);
    assert (b - a) * (capacity / REFILL_WINDOW) > 0.0;
  }

  // Whole seconds sent in the Retry-After header (delay-seconds, section 10.2.3 of RFC 9110).
  function RetryAfterHeader(ms: int): int {
    Ceil(ms as real / 1000.0)
  }

  /** The header rounds the wait up to seconds, so honouring it is never too
      short for the scope that rejected the call. */
  lemma HeaderIsNeverTooShort(store: Store, id: BucketId, capacity: real, cost: real, now: real)
    requires capacity > 0.0 && Stamped(store, now) && Balance(store, id, capacity, now) < cost <= capacity
    ensures
      var ms := RetryAfterMs(Balance(store, id, capacity, now), cost, capacity);
      && Balance(store, id, capacity, now + RetryAfterHeader(ms) as real) >= cost
      && (RetryAfterHeader(ms) - 1) * 1000 < ms <= RetryAfterHeader(ms) * 1000
  {
    var tokens := Balance(store, id, capacity, now);
    var ms := RetryAfterMs(tokens, cost, capacity);
    WaitBounds(tokens, cost, capacity);
    var wait, header := ms as real / 1000.0, RetryAfterHeader(ms);
    assert wait <= header as real < wait + 1.0;
    EarnedGrows(capacity, wait, header as real);
    WaitEnough(store, id, capacity, cost, now, header as real);
  }
}
