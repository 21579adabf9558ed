/** Requests sharing the buckets: each one reserves an estimated cost, is served,
    and settles once with what it really used. Any number of requests interleave
    in any order over any mix of shared organisation, team and key buckets, and
    any call may find Redis unreachable. */
module Settlement {
  import opened Wrappers
  import opened TokenBuckets
  import opened TickingBuckets

  // An admitted request that has not settled yet.
  datatype Reservation = Reservation(s: Scopes, cost: real)

  // Requests are numbered in the order they arrive.
  datatype Event =
    | Arrive(s: Scopes, cost: real, now: real, redisUp: bool)
    | Settle(request: nat, actual: real, now: real, redisUp: bool)

  // `open` has one place per arrival, empty if it was not admitted or has settled.
  datatype System = System(store: Store, clock: real, open: seq<Option<Reservation>>)
  {
    predicate Holds(request: nat) {
      request < |open| && open[request].Some?
    }
  }

  // An unreachable Redis admits when failing open; otherwise the script decides.
  predicate Admitted(failOpen: bool, store: Store, s: Scopes, cost: real, now: real, redisUp: bool) {
    if redisUp then Admits(Balances(store, s, now), cost) else failOpen
  }

  function Step(failOpen: bool, sys: System, e: Event): System
    requires e.Settle? ==> sys.Holds(e.request)
  {
    match e
    case Arrive(s, cost, now, redisUp) =>
      System(if redisUp then Reserved(sys.store, s, cost, now) else sys.store, now,
             sys.open + [if Admitted(failOpen, sys.store, s, cost, now, redisUp) then Some(Reservation(s, cost))
                         else None])
    case Settle(k, actual, now, redisUp) =>
      var r := sys.open[k].value;
      System(if redisUp then Adjusted(sys.store, r.s, r.cost - actual, now) else sys.store, now, sys.open[k := None])
  }

  /** A request is admitted, and its reservation held, exactly when its organisation, its
      team and its key all have the cost, or Redis cannot be asked and the limiter fails
      open. */
  lemma WhoIsAdmitted(failOpen: bool, sys: System, s: Scopes, cost: real, now: real, redisUp: bool)
    ensures
      var next, request := Step(failOpen, sys, Arrive(s, cost, now, redisUp)), |sys.open|;
      && (next.Holds(request) <==>
            if redisUp
            then && Balance(sys.store, BucketId(Org, s.orgId), s.orgCapacity, now) >= cost
                 && Balance(sys.store, BucketId(Team, s.teamId), s.teamCapacity, now) >= cost
                 && Balance(sys.store, BucketId(Key, s.keyId), s.keyCapacity, now) >= cost
            else failOpen)
      && (next.Holds(request) ==> next.open[request] == Some(Reservation(s, cost)))
      && (!next.Holds(request) || !redisUp ==> next.store == sys.store)
      && next.open[..request] == sys.open
  {
    var balances := Balances(sys.store, s, now);
    assert balances[0] == Balance(sys.store, BucketId(Org, s.orgId), s.orgCapacity, now);
    assert balances[1] == Balance(sys.store, BucketId(Team, s.teamId), s.teamCapacity, now);
    assert balances[2] == Balance(sys.store, BucketId(Key, s.keyId), s.keyCapacity, now);
  }

  ghost predicate Enabled(caps: Capacities, sys: System, e: Event) {
    && sys.clock <= e.now
    && (e.Arrive? ==> Agrees(caps, e.s))
    && (e.Settle? ==> sys.Holds(e.request))
  }

  ghost predicate ValidRun(caps: Capacities, failOpen: bool, sys: System, es: seq<Event>)
    decreases |es|
  {
    es == [] || (Enabled(caps, sys, es[0]) && ValidRun(caps, failOpen, Step(failOpen, sys, es[0]), es[1..]))
  }

  ghost function Run(caps: Capacities, failOpen: bool, sys: System, es: seq<Event>): System
    requires ValidRun(caps, failOpen, sys, es)
    decreases |es|
  {
    if es == [] then sys else Run(caps, failOpen, Step(failOpen, sys, es[0]), es[1..])
  }

  // Reserved cost of every open request charged to bucket b.
  function Held(r: Option<Reservation>, b: BucketId): real {
    if r.Some? && r.value.s.Touches(b) then r.value.cost else 0.0
  }

  function Outstanding(open: seq<Option<Reservation>>, b: BucketId): real {
    if open == [] then 0.0 else Outstanding(open[..|open| - 1], b) + Held(open[|open| - 1], b)
  }

  datatype Tally = Tally(settled: real, overrun: real, unmetered: real)

  // What one event adds for bucket b: tokens really used, use beyond the
  // reservation, and cost let in without asking Redis.
  function EventTally(failOpen: bool, sys: System, e: Event, b: BucketId): Tally
    requires e.Settle? ==> sys.Holds(e.request)
  {
    match e
    case Arrive(s, cost, _, redisUp) =>
      Tally(0.0, 0.0, if s.Touches(b) && !redisUp && failOpen then Max(0.0, cost) else 0.0)
    case Settle(k, actual, _, _) =>
      var r := sys.open[k].value;
      if r.s.Touches(b) then Tally(actual, Max(0.0, actual - r.cost), 0.0)
      else Tally(0.0, 0.0, 0.0)
  }

  ghost function RunTally(caps: Capacities, failOpen: bool, sys: System, es: seq<Event>, b: BucketId): Tally
    requires ValidRun(caps, failOpen, sys, es)
    decreases |es|
  {
    if es == [] then Tally(0.0, 0.0, 0.0)
    else
      var first := EventTally(failOpen, sys, es[0], b);
      var rest := RunTally(caps, failOpen, Step(failOpen, sys, es[0]), es[1..], b);
      Tally(first.settled + rest.settled, first.overrun + rest.overrun, first.unmetered + rest.unmetered)
  }

  ghost predicate WellFormed(caps: Capacities, sys: System) {
    && (forall id :: caps(id) > 0.0)
    && Stamped(sys.store, sys.clock)
    && forall i | 0 <= i < |sys.open| && sys.open[i].Some? :: Agrees(caps, sys.open[i].value.s)
  }

  // The most a bucket can still hand out, not counting what it owes: the refill
  // from its last balance with debt written off. It dominates the balance at all
  // times and, unlike the balance, does not jump when the bucket expires.
  function Headroom(store: Store, b: BucketId, capacity: real, now: real): real {
    if b in store then Min(capacity, Max(0.0, store[b].tokens) + Earned(capacity, Max(0.0, now - store[b].lastRefill)))
    else capacity
  }

  lemma HeadroomGrows(store: Store, b: BucketId, capacity: real, t: real, u: real)
    requires capacity > 0.0 && Stamped(store, t) && t <= u
    ensures Headroom(store, b, capacity, u) <= Headroom(store, b, capacity, t) + Earned(capacity, u - t)
    ensures 0.0 <= Headroom(store, b, capacity, u) <= capacity
    ensures Balance(store, b, capacity, u) <= Headroom(store, b, capacity, u)
  {
    EarnedGrows(capacity, 0.0, u - t);
    assert Earned(capacity, 0.0) == 0.0;
    if b in store {
      EarnedSplit(capacity, t - store[b].lastRefill, u - t);
      EarnedGrows(capacity, 0.0, t - store[b].lastRefill);
      if u > store[b].expiry {
        EarnedGrows(capacity, BUCKET_TTL, u - store[b].lastRefill);
        assert Earned(capacity, BUCKET_TTL) == 2.0 * capacity;
      }
    }
  }

  lemma HeadroomWritten(store: Store, s: Scopes, tokens: seq<real>, now: real, b: BucketId, i: nat)
    requires |tokens| == 3 && i < 3 && b == s.Id(i)
    ensures Headroom(Written(store, s, tokens, now, 3), b, s.Capacity(i), now)
              == Min(s.Capacity(i), Max(0.0, tokens[i]))
  {
    WrittenLookup(store, s, tokens, now, 3, b);
    assert Written(store, s, tokens, now, 3)[s.Id(i)] == Bucket(tokens[i], now, now + BUCKET_TTL);
    assert Earned(s.Capacity(i), 0.0) == 0.0;
  }

  lemma HeadroomUntouched(store: Store, s: Scopes, tokens: seq<real>, now: real, b: BucketId, capacity: real)
    requires |tokens| == 3 && !s.Touches(b)
    ensures Headroom(Written(store, s, tokens, now, 3), b, capacity, now) == Headroom(store, b, capacity, now)
  {
    WrittenLookup(store, s, tokens, now, 3, b);
  }

  // One bucket's charge on admission never exceeds what its headroom loses.
  lemma ReserveSpendsHeadroom(caps: Capacities, store: Store, s: Scopes, cost: real, now: real, b: BucketId)
    requires Stamped(store, now) && Agrees(caps, s) && caps(b) > 0.0 && Admits(Balances(store, s, now), cost)
    ensures Headroom(Reserved(store, s, cost, now), b, caps(b), now) + (if s.Touches(b) then cost else 0.0)
         <= Headroom(store, b, caps(b), now)
  {
    var tokens := ReservedTokens(store, s, cost, now);
    if s.Touches(b) {
      var i: nat := if b == s.Id(0) then 0 else if b == s.Id(1) then 1 else 2;
      HeadroomWritten(store, s, tokens, now, b, i);
      HeadroomGrows(store, b, caps(b), now, now);
      assert Balances(store, s, now)[i] >= cost;
    } else {
      HeadroomUntouched(store, s, tokens, now, b, caps(b));
    }
  }

  // A refund raises headroom by no more than the refund; a charge never raises it.
  lemma AdjustSpendsHeadroom(caps: Capacities, store: Store, s: Scopes, delta: real, now: real, b: BucketId)
    requires Stamped(store, now) && Agrees(caps, s) && caps(b) > 0.0
    ensures Headroom(Adjusted(store, s, delta, now), b, caps(b), now)
         <= Headroom(store, b, caps(b), now) + (if s.Touches(b) then Max(0.0, delta) else 0.0)
  {
    var tokens := AdjustedTokens(store, s, delta, now);
    if delta != 0.0 {
      if s.Touches(b) {
        var i: nat := if b == s.Id(0) then 0 else if b == s.Id(1) then 1 else 2;
        HeadroomWritten(store, s, tokens, now, b, i);
        HeadroomGrows(store, b, caps(b), now, now);
      } else {
        HeadroomUntouched(store, s, tokens, now, b, caps(b));
      }
    }
  }

  lemma OutstandingArrives(open: seq<Option<Reservation>>, r: Option<Reservation>, b: BucketId)
    ensures Outstanding(open + [r], b) == Outstanding(open, b) + Held(r, b)
  {
    assert (open + [r])[..|open|] == open;
  }

  lemma {:induction false} OutstandingSettles(open: seq<Option<Reservation>>, k: nat, b: BucketId)
    requires k < |open|
    ensures Outstanding(open, b) == Outstanding(open[k := None], b) + Held(open[k], b)
  {
    var n := |open| - 1;
    if k < n {
      OutstandingSettles(open[..n], k, b);
      assert open[k := None][..n] == open[..n][k := None];
    } else {
      assert open[k := None][..n] == open[..n];
    }
  }

  lemma StepKeepsWellFormed(caps: Capacities, failOpen: bool, sys: System, e: Event)
    requires WellFormed(caps, sys) && Enabled(caps, sys, e)
    ensures WellFormed(caps, Step(failOpen, sys, e))
  {
    match e
    case Arrive(s, cost, now, redisUp) =>
      WrittenStamped(sys.store, sys.clock, now, s, ReservedTokens(sys.store, s, cost, now));
    case Settle(k, actual, now, redisUp) =>
      var r := sys.open[k].value;
      WrittenStamped(sys.store, sys.clock, now, r.s, AdjustedTokens(sys.store, r.s, r.cost - actual, now));
  }

  // What a bucket can still hand out plus what is out on reservation.
  function Potential(caps: Capacities, sys: System, b: BucketId): real {
    Headroom(sys.store, b, caps(b), sys.clock) + Outstanding(sys.open, b)
  }

  lemma ArriveSpendsHeadroom(caps: Capacities, failOpen: bool, sys: System, e: Event, b: BucketId)
    requires WellFormed(caps, sys) && Enabled(caps, sys, e) && e.Arrive?
    ensures Potential(caps, Step(failOpen, sys, e), b)
         <= Headroom(sys.store, b, caps(b), e.now) + Outstanding(sys.open, b)
             + EventTally(failOpen, sys, e, b).unmetered
  {
    OutstandingArrives(sys.open, Step(failOpen, sys, e).open[|sys.open|], b);
    if e.redisUp && Admits(Balances(sys.store, e.s, e.now), e.cost) {
      ReserveSpendsHeadroom(caps, sys.store, e.s, e.cost, e.now, b);
    }
  }

  lemma SettleSpendsHeadroom(caps: Capacities, failOpen: bool, sys: System, e: Event, b: BucketId)
    requires WellFormed(caps, sys) && Enabled(caps, sys, e) && e.Settle?
    ensures EventTally(failOpen, sys, e, b).settled + Potential(caps, Step(failOpen, sys, e), b)
         <= Headroom(sys.store, b, caps(b), e.now) + Outstanding(sys.open, b) + EventTally(failOpen, sys, e, b).overrun
  {
    var r := sys.open[e.request].value;
    OutstandingSettles(sys.open, e.request, b);
    if e.redisUp {
      AdjustSpendsHeadroom(caps, sys.store, r.s, r.cost - e.actual, e.now, b);
    }
  }

  lemma StepSpendsHeadroom(caps: Capacities, failOpen: bool, sys: System, e: Event, b: BucketId)
    requires WellFormed(caps, sys) && Enabled(caps, sys, e)
    ensures
      var t := EventTally(failOpen, sys, e, b);
      t.settled + Potential(caps, Step(failOpen, sys, e), b)
      <= Potential(caps, sys, b) + Earned(caps(b), e.now - sys.clock) + t.overrun + t.unmetered
  {
    HeadroomGrows(sys.store, b, caps(b), sys.clock, e.now);
    if e.Arrive? {
      ArriveSpendsHeadroom(caps, failOpen, sys, e, b);
    } else {
      SettleSpendsHeadroom(caps, failOpen, sys, e, b);
    }
  }

  lemma {:induction false} RunSpendsHeadroom(caps: Capacities, failOpen: bool, sys: System, es: seq<Event>, b: BucketId)
    requires WellFormed(caps, sys) && ValidRun(caps, failOpen, sys, es)
    ensures
      var end, t := Run(caps, failOpen, sys, es), RunTally(caps, failOpen, sys, es, b);
      && WellFormed(caps, end)
      && t.settled + Potential(caps, end, b) <= Potential(caps, sys, b) + Earned(caps(b), end.clock - sys.clock)
           + t.overrun + t.unmetered
    decreases |es|
  {
    if es == [] {
      assert Earned(caps(b), 0.0) == 0.0;
    } else {
      var e, next := es[0], Step(failOpen, sys, es[0]);
      StepKeepsWellFormed(caps, failOpen, sys, e);
      RunSpendsHeadroom(caps, failOpen, next, es[1..], b);
      var end, rest := Run(caps, failOpen, next, es[1..]), RunTally(caps, failOpen, next, es[1..], b);
      StepSpendsHeadroom(caps, failOpen, sys, e, b);
      EarnedSplit(caps(b), e.now - sys.clock, end.clock - e.now);
      SpendsAddUp(EventTally(failOpen, sys, e, b), rest,
                  Potential(caps, sys, b), Potential(caps, next, b), Potential(caps, end, b),
                  Earned(caps(b), e.now - sys.clock), Earned(caps(b), end.clock - e.now));
    }
  }

  lemma SpendsAddUp(t: Tally, u: Tally, before: real, between: real, after: real, earned: real, earnedLater: real)
    requires t.settled + between <= before + earned + t.overrun + t.unmetered
    requires u.settled + after <= between + earnedLater + u.overrun + u.unmetered
    ensures (t.settled + u.settled) + after <= before + (earned + earnedLater) + (t.overrun + u.overrun)
              + (t.unmetered + u.unmetered)
  {
  }

  /** Over every window of every interleaving, the tokens really used by requests
      settled in it plus the change in reservations still open is at most one
      capacity plus the refill for the window's length, plus what requests used
      beyond their reservations, plus what fail-open let past an unreachable
      Redis. It holds with no limit on debt, for buckets that expire, and for
      costs of either sign. */
  lemma UsageBound(caps: Capacities, failOpen: bool, sys: System, es: seq<Event>, b: BucketId)
    requires WellFormed(caps, sys) && ValidRun(caps, failOpen, sys, es)
    ensures
      var end, t := Run(caps, failOpen, sys, es), RunTally(caps, failOpen, sys, es, b);
      t.settled + Outstanding(end.open, b) - Outstanding(sys.open, b)
      <= caps(b) + Earned(caps(b), end.clock - sys.clock) + t.overrun + t.unmetered
  {
    RunSpendsHeadroom(caps, failOpen, sys, es, b);
    var end := Run(caps, failOpen, sys, es);
    HeadroomGrows(sys.store, b, caps(b), sys.clock, sys.clock);
    HeadroomGrows(end.store, b, caps(b), end.clock, end.clock);
  }

  // Nobody reserves more than there is: with Redis up and no overruns, the bound
  // is the bucket's own, capacity plus refill.
  lemma MeteredUsageBound(caps: Capacities, sys: System, es: seq<Event>, b: BucketId)
    requires WellFormed(caps, sys) && ValidRun(caps, false, sys, es) && sys.open == []
    ensures
      var end, t := Run(caps, false, sys, es), RunTally(caps, false, sys, es, b);
      t.settled + Outstanding(end.open, b) <= caps(b) + Earned(caps(b), end.clock - sys.clock) + t.overrun
  {
    UsageBound(caps, false, sys, es, b);
    FailClosedIsMetered(caps, sys, es, b);
  }

  lemma {:induction false} FailClosedIsMetered(caps: Capacities, sys: System, es: seq<Event>, b: BucketId)
    requires ValidRun(caps, false, sys, es)
    ensures RunTally(caps, false, sys, es, b).unmetered == 0.0
    decreases |es|
  {
    if es != [] {
      FailClosedIsMetered(caps, Step(false, sys, es[0]), es[1..], b);
    }
  }

  lemma {:induction false} RunJoins(caps: Capacities, failOpen: bool, sys: System, es: seq<Event>, more: seq<Event>)
    requires ValidRun(caps, failOpen, sys, es) && ValidRun(caps, failOpen, Run(caps, failOpen, sys, es), more)
    ensures ValidRun(caps, failOpen, sys, es + more)
    ensures Run(caps, failOpen, sys, es + more) == Run(caps, failOpen, Run(caps, failOpen, sys, es), more)
    decreases |es|
  {
    if es == [] {
      assert es + more == more;
    } else {
      RunJoins(caps, failOpen, Step(failOpen, sys, es[0]), es[1..], more);
      assert (es + more)[1..] == es[1..] + more;
    }
  }

  lemma RunGrows(caps: Capacities, failOpen: bool, sys: System, es: seq<Event>, e: Event)
    requires ValidRun(caps, failOpen, sys, es) && Enabled(caps, Run(caps, failOpen, sys, es), e)
    ensures ValidRun(caps, failOpen, sys, es + [e])
    ensures Run(caps, failOpen, sys, es + [e]) == Step(failOpen, Run(caps, failOpen, sys, es), e)
  {
    assert [e][1..] == [];
    RunJoins(caps, failOpen, sys, es, [e]);
  }

  // A reservation stands until its own request settles it.
  lemma {:induction false} StaysOpen(caps: Capacities, failOpen: bool, sys: System, es: seq<Event>, k: nat)
    requires ValidRun(caps, failOpen, sys, es) && sys.Holds(k)
    requires forall i | 0 <= i < |es| && es[i].Settle? :: es[i].request != k
    ensures var end := Run(caps, failOpen, sys, es); end.Holds(k) && end.open[k] == sys.open[k]
    decreases |es|
  {
    if es != [] {
      StaysOpen(caps, failOpen, Step(failOpen, sys, es[0]), es[1..], k);
    }
  }

  lemma {:induction false} RunKeepsWellFormed(caps: Capacities, failOpen: bool, sys: System, es: seq<Event>)
    requires WellFormed(caps, sys) && ValidRun(caps, failOpen, sys, es)
    ensures WellFormed(caps, Run(caps, failOpen, sys, es))
    decreases |es|
  {
    if es != [] {
      StepKeepsWellFormed(caps, failOpen, sys, es[0]);
      RunKeepsWellFormed(caps, failOpen, Step(failOpen, sys, es[0]), es[1..]);
    }
  }

  // ----- Nobody is charged for more -----

  // What one event costs bucket b without anybody having used it: a refund that did
  // not reach Redis.
  function EventLoss(sys: System, e: Event, b: BucketId): real
    requires e.Settle? ==> sys.Holds(e.request)
  {
    match e
    case Arrive(_, _, _, _) => 0.0
    case Settle(k, actual, _, redisUp) =>
      var r := sys.open[k].value;
      if r.s.Touches(b) && !redisUp then Max(0.0, r.cost - actual) else 0.0
  }

  ghost function RunLoss(caps: Capacities, failOpen: bool, sys: System, es: seq<Event>, b: BucketId): real
    requires ValidRun(caps, failOpen, sys, es)
    decreases |es|
  {
    if es == [] then 0.0 else EventLoss(sys, es[0], b) + RunLoss(caps, failOpen, Step(failOpen, sys, es[0]), es[1..], b)
  }

  // No request reserves or uses a negative amount.
  predicate Spends(e: Event) {
    if e.Arrive? then e.cost >= 0.0 else e.actual >= 0.0
  }

  predicate Sound(open: seq<Option<Reservation>>) {
    forall i | 0 <= i < |open| && open[i].Some? :: open[i].value.cost >= 0.0
  }

  lemma {:induction false} OutstandingSound(open: seq<Option<Reservation>>, b: BucketId)
    requires Sound(open)
    ensures Outstanding(open, b) >= 0.0
  {
    if open != [] {
      OutstandingSound(open[..|open| - 1], b);
    }
  }

  // Waiting never lowers a balance.
  lemma BalanceGrows(store: Store, b: BucketId, capacity: real, t: real, u: real)
    requires capacity > 0.0 && t <= u
    ensures Balance(store, b, capacity, t) <= Balance(store, b, capacity, u) <= capacity
  {
    if b in store {
      EarnedGrows(capacity, Max(0.0, t - store[b].lastRefill), Max(0.0, u - store[b].lastRefill));
    }
  }

  lemma ReadsWritten(store: Store, s: Scopes, tokens: seq<real>, now: real, b: BucketId, i: nat)
    requires |tokens| == 3 && i < 3 && b == s.Id(i)
    ensures Balance(Written(store, s, tokens, now, 3), b, s.Capacity(i), now) == Min(s.Capacity(i), tokens[i])
  {
    WrittenReads(store, s, tokens, now, i, 0.0);
  }

  lemma ReadsUntouched(store: Store, s: Scopes, tokens: seq<real>, now: real, b: BucketId, capacity: real)
    requires |tokens| == 3 && !s.Touches(b)
    ensures Balance(Written(store, s, tokens, now, 3), b, capacity, now) == Balance(store, b, capacity, now)
  {
    WrittenLookup(store, s, tokens, now, 3, b);
  }

  lemma ReserveTakesCost(caps: Capacities, store: Store, s: Scopes, cost: real, now: real, b: BucketId)
    requires Agrees(caps, s) && caps(b) > 0.0 && cost >= 0.0 && Admits(Balances(store, s, now), cost)
    ensures Balance(Reserved(store, s, cost, now), b, caps(b), now)
         == Balance(store, b, caps(b), now) - if s.Touches(b) then cost else 0.0
  {
    var tokens := ReservedTokens(store, s, cost, now);
    BalanceGrows(store, b, caps(b), now, now);
    if s.Touches(b) {
      ReadsWritten(store, s, tokens, now, b, if b == s.Id(0) then 0 else if b == s.Id(1) then 1 else 2);
    } else {
      ReadsUntouched(store, s, tokens, now, b, caps(b));
    }
  }

  lemma AdjustGivesDelta(caps: Capacities, store: Store, s: Scopes, delta: real, now: real, b: BucketId)
    requires Agrees(caps, s) && caps(b) > 0.0
    ensures Balance(Adjusted(store, s, delta, now), b, caps(b), now)
         == Min(caps(b), Balance(store, b, caps(b), now) + if s.Touches(b) then delta else 0.0)
  {
    var tokens := AdjustedTokens(store, s, delta, now);
    BalanceGrows(store, b, caps(b), now, now);
    if delta != 0.0 {
      if s.Touches(b) {
        ReadsWritten(store, s, tokens, now, b, if b == s.Id(0) then 0 else if b == s.Id(1) then 1 else 2);
      } else {
        ReadsUntouched(store, s, tokens, now, b, caps(b));
      }
    }
  }

  // What a bucket holds plus what is out on reservation.
  function Worth(caps: Capacities, sys: System, b: BucketId): real {
    Balance(sys.store, b, caps(b), sys.clock) + Outstanding(sys.open, b)
  }

  lemma ArriveKeepsWorth(caps: Capacities, failOpen: bool, sys: System, e: Event, b: BucketId)
    requires WellFormed(caps, sys) && Enabled(caps, sys, e) && e.Arrive? && Spends(e) && Sound(sys.open)
    ensures Worth(caps, Step(failOpen, sys, e), b) >= Worth(caps, sys, b) && Sound(Step(failOpen, sys, e).open)
  {
    BalanceGrows(sys.store, b, caps(b), sys.clock, e.now);
    OutstandingArrives(sys.open, Step(failOpen, sys, e).open[|sys.open|], b);
    if e.redisUp && Admits(Balances(sys.store, e.s, e.now), e.cost) {
      ReserveTakesCost(caps, sys.store, e.s, e.cost, e.now, b);
    }
  }

  // A settlement gives back what was not used, up to the capacity.
  lemma SettleKeepsWorth(caps: Capacities, failOpen: bool, sys: System, e: Event, b: BucketId)
    requires WellFormed(caps, sys) && Enabled(caps, sys, e) && e.Settle? && Spends(e) && Sound(sys.open)
    ensures
      var next, t := Step(failOpen, sys, e), EventTally(failOpen, sys, e, b);
      && Sound(next.open)
      && (Balance(next.store, b, caps(b), next.clock) == caps(b)
          || Worth(caps, next, b) + t.settled + EventLoss(sys, e, b) >= Worth(caps, sys, b))
  {
    var r := sys.open[e.request].value;
    BalanceGrows(sys.store, b, caps(b), sys.clock, e.now);
    OutstandingSettles(sys.open, e.request, b);
    if e.redisUp {
      AdjustGivesDelta(caps, sys.store, r.s, r.cost - e.actual, e.now, b);
    }
  }

  // What one event uses up of bucket b, rightly or not.
  function EventSpent(failOpen: bool, sys: System, e: Event, b: BucketId): real
    requires e.Settle? ==> sys.Holds(e.request)
  {
    EventTally(failOpen, sys, e, b).settled + EventLoss(sys, e, b)
  }

  lemma StepKeepsWorth(caps: Capacities, failOpen: bool, sys: System, e: Event, b: BucketId, spent: real, least: real)
    requires WellFormed(caps, sys) && Enabled(caps, sys, e) && Spends(e) && Sound(sys.open)
    requires spent >= 0.0 && least <= caps(b) && Worth(caps, sys, b) + spent >= least
    ensures
      var next, more := Step(failOpen, sys, e), EventSpent(failOpen, sys, e, b);
      Sound(next.open) && more >= 0.0 && Worth(caps, next, b) + (spent + more) >= least
  {
    if e.Arrive? {
      ArriveKeepsWorth(caps, failOpen, sys, e, b);
    } else {
      SettleKeepsWorth(caps, failOpen, sys, e, b);
      OutstandingSound(Step(failOpen, sys, e).open, b);
    }
  }

  ghost function RunSpent(caps: Capacities, failOpen: bool, sys: System, es: seq<Event>, b: BucketId): real
    requires ValidRun(caps, failOpen, sys, es)
  {
    RunTally(caps, failOpen, sys, es, b).settled + RunLoss(caps, failOpen, sys, es, b)
  }

  lemma SpentAddsUp(caps: Capacities, failOpen: bool, sys: System, es: seq<Event>, b: BucketId)
    requires ValidRun(caps, failOpen, sys, es) && es != []
    ensures RunSpent(caps, failOpen, sys, es, b)
         == EventSpent(failOpen, sys, es[0], b) + RunSpent(caps, failOpen, Step(failOpen, sys, es[0]), es[1..], b)
  {
  }

  lemma {:induction false} RunKeepsWorth(caps: Capacities, failOpen: bool, sys: System, es: seq<Event>, b: BucketId,
                                         spent: real, least: real)
    requires WellFormed(caps, sys) && ValidRun(caps, failOpen, sys, es) && Sound(sys.open)
    requires forall i | 0 <= i < |es| :: Spends(es[i])
    requires spent >= 0.0 && least <= caps(b) && Worth(caps, sys, b) + spent >= least
    ensures Worth(caps, Run(caps, failOpen, sys, es), b) + (spent + RunSpent(caps, failOpen, sys, es, b)) >= least
    decreases |es|
  {
    if es != [] {
      StepKeepsWellFormed(caps, failOpen, sys, es[0]);
      StepKeepsWorth(caps, failOpen, sys, es[0], b, spent, least);
      SpentAddsUp(caps, failOpen, sys, es, b);
      RunKeepsWorth(caps, failOpen, Step(failOpen, sys, es[0]), es[1..], b,
                    spent + EventSpent(failOpen, sys, es[0], b), least);
    }
  }

  /** The other side of the usage bound: over every window of every interleaving, a
      bucket loses no more than was really used, what is still reserved, and refunds
      that found Redis unreachable. */
  lemma NoOvercharge(caps: Capacities, failOpen: bool, sys: System, es: seq<Event>, b: BucketId)
    requires WellFormed(caps, sys) && ValidRun(caps, failOpen, sys, es) && Sound(sys.open)
    requires forall i | 0 <= i < |es| :: Spends(es[i])
    ensures
      var end, t := Run(caps, failOpen, sys, es), RunTally(caps, failOpen, sys, es, b);
      Balance(sys.store, b, caps(b), sys.clock) - Balance(end.store, b, caps(b), end.clock)
      <= t.settled + Outstanding(end.open, b) + RunLoss(caps, failOpen, sys, es, b)
  {
    OutstandingSound(sys.open, b);
    BalanceGrows(sys.store, b, caps(b), sys.clock, sys.clock);
    RunKeepsWorth(caps, failOpen, sys, es, b, 0.0, Balance(sys.store, b, caps(b), sys.clock));
  }
}
