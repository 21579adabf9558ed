/** What a caller can rely on from one breaker, told from the calls made to it alone:
    when it trips, how long it then holds off, what a half-open epoch lets through
    and what closing again forgets. */
module BreakerLaws {
  import opened Breaker
  import opened BreakerRuns
  import opened Int64

  const NANOS: int := 1_000_000_000

  // The breaker after some calls.
  function Ran(cfg: Config, v: View, ops: seq<Op>): View
    requires cfg.Valid()
    decreases |ops|
  {
    if ops == [] then v else Ran(cfg, Next(cfg, v, ops[0]), ops[1..])
  }

  function Fresh(cfg: Config): View {
    View(Closed, [], cfg.cooldown, 0, 0, 0)
  }

  // ----- Closed: when it trips -----

  // The outcomes reported by some calls, in order.
  function History(ops: seq<Op>): seq<Outcome>
    decreases |ops|
  {
    if ops == [] then []
    else
      (match ops[0]
       case Ask(_) => []
       case Success(now) => [Outcome(now / NANOS, true)]
       case Failure(recordAt, _, _) => [Outcome(recordAt / NANOS, false)])
      + History(ops[1..])
  }

  function Asks(ops: seq<Op>): nat
    decreases |ops|
  {
    if ops == [] then 0 else (if ops[0].Ask? then 1 else 0) + Asks(ops[1..])
  }

  function Wins(ops: seq<Op>): nat
    decreases |ops|
  {
    if ops == [] then 0 else (if ops[0].Success? then 1 else 0) + Wins(ops[1..])
  }

  predicate StaysClosed(cfg: Config, v: View, ops: seq<Op>)
    requires cfg.Valid()
    decreases |ops|
  {
    v.state == Closed && (ops == [] || StaysClosed(cfg, Next(cfg, v, ops[0]), ops[1..]))
  }

  // While closed it lets every call through and remembers every outcome.
  lemma {:induction false} ClosedRemembers(cfg: Config, v: View, ops: seq<Op>)
    requires cfg.Valid() && StaysClosed(cfg, v, ops)
    ensures Ran(cfg, v, ops) == v.(log := v.log + History(ops)) && Grants(cfg, v, ops) == Asks(ops)
    decreases |ops|
  {
    if ops == [] {
      assert v.log + [] == v.log;
    } else {
      var next := Next(cfg, v, ops[0]);
      ClosedRemembers(cfg, next, ops[1..]);
      var first := if ops[0].Ask? then [] else [Outcome(ops[0].Start() / NANOS, ops[0].Success?)];
      assert next.log == v.log + first && History(ops) == first + History(ops[1..]);
      assert (v.log + first) + History(ops[1..]) == v.log + (first + History(ops[1..]));
    }
  }

  // The outcomes of the last w seconds, and the failures among them.
  function Recent(log: seq<Outcome>, now: int, w: int): set<int> {
    set i | 0 <= i < |log| && now - w < log[i].sec <= now
  }

  function Bad(log: seq<Outcome>, now: int, w: int): set<int> {
    set i | i in Recent(log, now, w) && !log[i].ok
  }

  function Chosen(log: seq<Outcome>, now: int, w: int, ok: bool): set<int> {
    set i | 0 <= i < |log| && now - w < log[i].sec <= now && log[i].ok == ok
  }

  lemma OneMoreChosen(log: seq<Outcome>, e: Outcome, now: int, w: int, ok: bool)
    ensures |Chosen(log + [e], now, w, ok)|
         == |Chosen(log, now, w, ok)| + if now - w < e.sec <= now && e.ok == ok then 1 else 0
  {
    var added := if now - w < e.sec <= now && e.ok == ok then {|log|} else {};
    assert forall i | 0 <= i < |log| :: (log + [e])[i] == log[i];
    assert Chosen(log + [e], now, w, ok) == Chosen(log, now, w, ok) + added;
  }

  lemma {:induction false} WindowCounts(log: seq<Outcome>, now: int, w: int, ok: bool)
    ensures WindowCount(log, now, w, ok) == |Chosen(log, now, w, ok)|
  {
    if log != [] {
      var n := |log| - 1;
      WindowCounts(log[..n], now, w, ok);
      OneMoreChosen(log[..n], log[n], now, w, ok);
      assert log[..n] + [log[n]] == log;
    }
  }

  lemma WindowTotals(log: seq<Outcome>, now: int, w: int)
    ensures |Recent(log, now, w)| == WindowCount(log, now, w, true) + WindowCount(log, now, w, false)
    ensures |Bad(log, now, w)| == WindowCount(log, now, w, false)
  {
    WindowCounts(log, now, w, true);
    WindowCounts(log, now, w, false);
    assert Recent(log, now, w) == Chosen(log, now, w, true) + Chosen(log, now, w, false);
    assert Bad(log, now, w) == Chosen(log, now, w, false);
  }

  lemma RateIsShare(bad: nat, total: nat, threshold: real)
    requires total > 0
    ensures bad as real / total as real >= threshold <==> bad as real >= threshold * total as real
  {
    var share := bad as real / total as real;
    assert share * total as real == bad as real;
  }

  // Enough outcomes in the last window of whole seconds, at least one, and enough
  // failures among them.
  ghost predicate Alarming(cfg: Config, log: seq<Outcome>, now: int) {
    var w := if cfg.window < 2 * NANOS then 1 else cfg.window / NANOS;
    var total, bad := |Recent(log, now, w)|, |Bad(log, now, w)|;
    total >= cfg.minRequests && bad as real >= cfg.errorRateThreshold * total as real
  }

  lemma TripsByShare(cfg: Config, log: seq<Outcome>, now: int)
    requires cfg.Valid()
    ensures Trips(cfg, log, now) <==> Alarming(cfg, log, now)
  {
    var w := if cfg.window < 2 * NANOS then 1 else cfg.window / NANOS;
    assert w == cfg.WindowSeconds();
    WindowTotals(log, now, w);
    var total, bad := |Recent(log, now, w)|, |Bad(log, now, w)|;
    if total > 0 {
      RateIsShare(bad, total, cfg.errorRateThreshold);
    }
  }

  lemma {:induction false} HistoryGrows(ops: seq<Op>, op: Op)
    requires op.Failure?
    ensures History(ops + [op]) == History(ops) + [Outcome(op.recordAt / NANOS, false)]
    decreases |ops|
  {
    if ops == [] {
      assert ops + [op] == [op] && [op][1..] == [];
    } else {
      HistoryGrows(ops[1..], op);
      assert (ops + [op])[1..] == ops[1..] + [op] && (ops + [op])[0] == ops[0];
    }
  }

  lemma FailureTrips(cfg: Config, v: View, failure: Op)
    requires cfg.Valid() && v.state == Closed && failure.Failure?
    ensures
      var log := v.log + [Outcome(failure.recordAt / NANOS, false)];
      Next(cfg, v, failure).state == Open <==> Alarming(cfg, log, failure.weighAt / NANOS)
  {
    TripsByShare(cfg, v.log + [Outcome(failure.recordAt / NANOS, false)], failure.weighAt / NANOS);
  }

  /** A breaker that has stayed closed since it was new trips on a failure if and only
      if the calls of the last window seconds were enough of them, and the share of
      failures among them has reached the threshold. */
  lemma TripsOnHistory(cfg: Config, ops: seq<Op>, failure: Op)
    requires cfg.Valid() && StaysClosed(cfg, Fresh(cfg), ops) && failure.Failure?
    ensures Next(cfg, Ran(cfg, Fresh(cfg), ops), failure).state == Open
            <==> Alarming(cfg, History(ops + [failure]), failure.weighAt / NANOS)
  {
    ClosedRemembers(cfg, Fresh(cfg), ops);
    HistoryGrows(ops, failure);
    assert [] + History(ops) == History(ops);
    FailureTrips(cfg, Ran(cfg, Fresh(cfg), ops), failure);
  }

  // ----- Open: how long it holds off -----

  // Every call comes before the cooldown is over; reports may come at any time.
  predicate TooEarly(ops: seq<Op>, openedAt: int, cooldown: int) {
    forall i | 0 <= i < |ops| && ops[i].Ask? :: ops[i].now - openedAt < cooldown
  }

  lemma {:induction false} OpenHolds(cfg: Config, v: View, ops: seq<Op>)
    requires cfg.Valid() && v.state == Open && TooEarly(ops, v.openedAt, v.curCooldown)
    ensures Ran(cfg, v, ops) == v && Grants(cfg, v, ops) == 0
    decreases |ops|
  {
    if ops != [] {
      assert Next(cfg, v, ops[0]) == v;
      OpenHolds(cfg, v, ops[1..]);
    }
  }

  /** From a trip at openAt on, whatever stale reports arrive meanwhile, nothing is let
      through before the configured cooldown is over and the first call after it is. */
  lemma TripHoldsOff(cfg: Config, v: View, recordAt: int, weighAt: int, openAt: int, ops: seq<Op>, now: int)
    requires cfg.Valid() && v.state == Closed && Failed(cfg, v, recordAt, weighAt, openAt).state == Open
    requires TooEarly(ops, openAt, cfg.cooldown)
    ensures
      var tripped := Failed(cfg, v, recordAt, weighAt, openAt);
      && Grants(cfg, tripped, ops) == 0
      && (Allowed(cfg, Ran(cfg, tripped, ops), now).1 <==> now - openAt >= cfg.cooldown)
  {
    OpenHolds(cfg, Failed(cfg, v, recordAt, weighAt, openAt), ops);
  }

  /** A failed probe holds off for twice as long as the last time, up to the ceiling. */
  lemma FailedProbeHoldsOff(cfg: Config, v: View, recordAt: int, weighAt: int, openAt: int, ops: seq<Op>, now: int)
    requires cfg.Valid() && cfg.cooldownMax < TWO_62 && v.state == HalfOpen && 0 < v.curCooldown <= cfg.cooldownMax
    requires TooEarly(ops, openAt, Lesser(2 * v.curCooldown, cfg.cooldownMax))
    ensures
      var reopened := Failed(cfg, v, recordAt, weighAt, openAt);
      && reopened.state == Open && Grants(cfg, reopened, ops) == 0
      && (Allowed(cfg, Ran(cfg, reopened, ops), now).1
          <==> now - openAt >= Lesser(2 * v.curCooldown, cfg.cooldownMax))
  {
    DoublesOnce(cfg, v.curCooldown);
    OpenHolds(cfg, Failed(cfg, v, recordAt, weighAt, openAt), ops);
  }

  // ----- Half-open: what an epoch lets through -----

  lemma {:induction false} EpochRuns(cfg: Config, v: View, ops: seq<Op>)
    requires cfg.Valid() && v.state == HalfOpen && v.slots >= 0 && v.wins >= 0
    requires v.wins + Wins(ops) < cfg.halfOpenProbes && forall i | 0 <= i < |ops| :: !ops[i].Failure?
    ensures Ran(cfg, v, ops)
         == v.(slots := if Asks(ops) < v.slots then v.slots - Asks(ops) else 0, wins := v.wins + Wins(ops))
    ensures Grants(cfg, v, ops) == Lesser(v.slots, Asks(ops))
    decreases |ops|
  {
    if ops != [] {
      EpochRuns(cfg, Next(cfg, v, ops[0]), ops[1..]);
    }
  }

  /** The call that ends a cooldown begins an epoch. As long as no probe fails it lets
      exactly the quota of calls through, itself among them, and it closes on exactly
      the quota-th success. */
  lemma EpochLetsQuotaThrough(cfg: Config, v: View, now: int, ops: seq<Op>, at: int)
    requires cfg.Valid() && v.state == Open && now - v.openedAt >= v.curCooldown
    requires Wins(ops) < cfg.halfOpenProbes && forall i | 0 <= i < |ops| :: !ops[i].Failure?
    ensures
      var begun := Next(cfg, v, Ask(now));
      && Grants(cfg, v, [Ask(now)] + ops) == Lesser(cfg.halfOpenProbes, 1 + Asks(ops))
      && Ran(cfg, begun, ops).state == HalfOpen
      && (Succeeded(cfg, Ran(cfg, begun, ops), at).state == Closed <==> Wins(ops) + 1 == cfg.halfOpenProbes)
  {
    EpochRuns(cfg, Next(cfg, v, Ask(now)), ops);
    assert ([Ask(now)] + ops)[1..] == ops;
  }

  // ----- Closed again: what it forgets -----

  // What a caller can see of a run: each state, and each answer.
  function Seen(cfg: Config, v: View, ops: seq<Op>): seq<(State, bool)>
    requires cfg.Valid()
    decreases |ops|
  {
    if ops == [] then []
    else
      var next := Next(cfg, v, ops[0]);
      [(next.state, ops[0].Ask? && Allowed(cfg, v, ops[0].now).1)] + Seen(cfg, next, ops[1..])
  }

  // Two breakers nobody can tell apart: they agree on all that their state reads.
  predicate Alike(u: View, v: View) {
    && u.state == v.state
    && match u.state
       case Closed => u.log == v.log
       case Open => u.curCooldown == v.curCooldown && u.openedAt == v.openedAt
       case HalfOpen => u.curCooldown == v.curCooldown && u.slots == v.slots && u.wins == v.wins
  }

  lemma AlikeStays(cfg: Config, u: View, v: View, op: Op)
    requires cfg.Valid() && Alike(u, v)
    ensures Alike(Next(cfg, u, op), Next(cfg, v, op))
    ensures op.Ask? ==> Allowed(cfg, u, op.now).1 == Allowed(cfg, v, op.now).1
  {
  }

  lemma {:induction false} AlikeSeen(cfg: Config, u: View, v: View, ops: seq<Op>)
    requires cfg.Valid() && Alike(u, v)
    ensures Seen(cfg, u, ops) == Seen(cfg, v, ops)
    decreases |ops|
  {
    if ops != [] {
      AlikeStays(cfg, u, v, ops[0]);
      AlikeSeen(cfg, Next(cfg, u, ops[0]), Next(cfg, v, ops[0]), ops[1..]);
    }
  }

  /** A breaker that closes again is as good as new: whatever calls follow, it answers
      and changes state exactly as one that was just created. */
  lemma ReclosedIsNew(cfg: Config, v: View, now: int, ops: seq<Op>)
    requires cfg.Valid() && v.state == HalfOpen && Succeeded(cfg, v, now).state == Closed
    ensures Seen(cfg, Succeeded(cfg, v, now), ops) == Seen(cfg, Fresh(cfg), ops)
  {
    AlikeSeen(cfg, Succeeded(cfg, v, now), Fresh(cfg), ops);
  }
}
