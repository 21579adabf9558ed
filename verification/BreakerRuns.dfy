/** Whole runs of one breaker. Its methods hold a mutex, so concurrent callers
    amount to an arbitrary interleaving of atomic calls, and a report may arrive
    long after the half-open epoch that granted the call has ended. */
module BreakerRuns {
  import opened Breaker
  import opened Int64

  datatype Op =
    | Ask(now: int)
    | Success(now: int)
    | Failure(recordAt: int, weighAt: int, openAt: int)
  {
    function Start(): int {
      if Failure? then recordAt else now
    }

    function End(): int {
      if Failure? then openAt else now
    }

    predicate Timed() {
      Failure? ==> recordAt <= weighAt <= openAt
    }
  }

  function Next(cfg: Config, v: View, op: Op): View
    requires cfg.Valid()
  {
    match op
    case Ask(now) => Allowed(cfg, v, now).0
    case Success(now) => Succeeded(cfg, v, now)
    case Failure(r, w, o) => Failed(cfg, v, r, w, o)
  }

  // The cooldown the design promises after k half-open failures in a row.
  function Cool(cfg: Config, k: nat): int {
    Lesser(cfg.cooldown * Pow2(k), cfg.cooldownMax)
  }

  // The cooldown the code computes: doubling in int64, then the ceiling.
  function CodeCool(cfg: Config, k: nat): int {
    if k == 0 then cfg.cooldown else Doubled(cfg, CodeCool(cfg, k - 1))
  }

  lemma TwiceScaled(c: int, k: nat)
    requires c >= 1
    ensures 1 <= c * Pow2(k) && c * Pow2(k + 1) == 2 * (c * Pow2(k))
  {
    var p := Pow2(k);
    assert Pow2(k + 1) == 2 * p;
    assert c * (2 * p) == 2 * (c * p);
  }

  lemma DoublesOnce(cfg: Config, x: int)
    requires cfg.Valid() && cfg.cooldownMax < TWO_62 && 1 <= x
    ensures Doubled(cfg, Lesser(x, cfg.cooldownMax)) == Lesser(2 * x, cfg.cooldownMax)
  {
    var y := Lesser(x, cfg.cooldownMax);
    assert 1 <= y < TWO_62;
    assert Wrap64(y * 2) == y * 2;
  }

  lemma DoublesExactly(cfg: Config, k: nat)
    requires cfg.Valid() && cfg.cooldownMax < TWO_62
    ensures Doubled(cfg, Cool(cfg, k)) == Cool(cfg, k + 1)
  {
    TwiceScaled(cfg.cooldown, k);
    DoublesOnce(cfg, cfg.cooldown * Pow2(k));
  }

  lemma {:induction false} CodeCoolIsCool(cfg: Config, k: nat)
    requires cfg.Valid() && cfg.cooldownMax < TWO_62
    ensures CodeCool(cfg, k) == Cool(cfg, k)
  {
    if k > 0 {
      CodeCoolIsCool(cfg, k - 1);
      DoublesExactly(cfg, k - 1);
    } else {
      assert cfg.cooldown * Pow2(0) == cfg.cooldown;
    }
  }

  /** The doubling cooldown is min(cooldown * 2^k, cooldown_max) for every k
      exactly when the ceiling is below 2^62 nanoseconds; above it the int64
      product wraps and the cooldown turns negative. */
  lemma CooldownDoublesToCeiling(cfg: Config)
    requires cfg.Valid()
    ensures (forall k: nat :: CodeCool(cfg, k) == Cool(cfg, k)) <==> cfg.cooldownMax < TWO_62
  {
    if cfg.cooldownMax < TWO_62 {
      forall k: nat ensures CodeCool(cfg, k) == Cool(cfg, k) {
        CodeCoolIsCool(cfg, k);
      }
    } else {
      Pow2Words();
      assert cfg.cooldown * Pow2(62) >= TWO_62;
      assert Cool(cfg, 62) >= TWO_62;
      assert cfg.cooldown * Pow2(63) > 0;
      if CodeCool(cfg, 62) == Cool(cfg, 62) {
        assert Wrap64(2 * Cool(cfg, 62)) == 2 * Cool(cfg, 62) - TWO_64;
        assert CodeCool(cfg, 63) < 0 < Cool(cfg, 63);
      }
    }
  }

  // A ceiling of 2^62 ns passes validation, and the first doubling of it is negative.
  lemma CooldownTurnsNegative()
    ensures
      var cfg := Config(0.5, 1, SECOND, TWO_62, TWO_62, 1);
      cfg.Valid() && CodeCool(cfg, 1) == -TWO_63 && Cool(cfg, 1) == TWO_62
  {
    var cfg := Config(0.5, 1, SECOND, TWO_62, TWO_62, 1);
    assert CodeCool(cfg, 1) == Doubled(cfg, CodeCool(cfg, 0));
    assert Pow2(1) == 2;
  }

  // Time spent cooling down before the k-th half-open epoch may begin.
  function CoolSum(cfg: Config, k: nat): int {
    if k == 0 then 0 else CoolSum(cfg, k - 1) + Cool(cfg, k - 1)
  }

  ghost predicate TimedRun(clock: int, ops: seq<Op>)
    decreases |ops|
  {
    ops == [] || (clock <= ops[0].Start() && ops[0].Timed() && TimedRun(ops[0].End(), ops[1..]))
  }

  // The breaker does not close anywhere along the run.
  predicate StaysTripped(cfg: Config, v: View, ops: seq<Op>)
    requires cfg.Valid()
    decreases |ops|
  {
    v.state != Closed && (ops == [] || StaysTripped(cfg, Next(cfg, v, ops[0]), ops[1..]))
  }

  function Clock(clock: int, ops: seq<Op>): int {
    if ops == [] then clock else ops[|ops| - 1].End()
  }

  // Half-open epochs begun, and calls let through.
  function Epochs(cfg: Config, v: View, ops: seq<Op>): nat
    requires cfg.Valid()
    decreases |ops|
  {
    if ops == [] then 0
    else (if v.state == Open && Next(cfg, v, ops[0]).state == HalfOpen then 1 else 0)
         + Epochs(cfg, Next(cfg, v, ops[0]), ops[1..])
  }

  function Grants(cfg: Config, v: View, ops: seq<Op>): nat
    requires cfg.Valid()
    decreases |ops|
  {
    if ops == [] then 0
    else (if ops[0].Ask? && Allowed(cfg, v, ops[0].now).1 then 1 else 0) + Grants(cfg, Next(cfg, v, ops[0]), ops[1..])
  }

  // k epochs after a trip at t0.
  ghost predicate Cooling(cfg: Config, v: View, k: nat, t0: int, clock: int)
    requires cfg.Valid()
  {
    match v.state
    case Open => v.curCooldown == Cool(cfg, k) && t0 + CoolSum(cfg, k) <= v.openedAt <= clock
    case HalfOpen =>
      && k >= 1 && v.curCooldown == Cool(cfg, k - 1) && t0 + CoolSum(cfg, k) <= clock
      && 0 <= v.slots <= cfg.halfOpenProbes
    case Closed => false
  }

  function SlotsLeft(v: View): int {
    if v.state == HalfOpen then v.slots else 0
  }

  lemma CoolingStep(cfg: Config, v: View, op: Op, k: nat, t0: int, clock: int)
    requires cfg.Valid() && cfg.cooldownMax < TWO_62 && Cooling(cfg, v, k, t0, clock)
    requires clock <= op.Start() && op.Timed() && Next(cfg, v, op).state != Closed
    ensures
      var k' := k + if v.state == Open && Next(cfg, v, op).state == HalfOpen then 1 else 0;
      var granted := if op.Ask? && Allowed(cfg, v, op.now).1 then 1 else 0;
      && Cooling(cfg, Next(cfg, v, op), k', t0, op.End())
      && granted + SlotsLeft(Next(cfg, v, op)) <= SlotsLeft(v) + (k' - k) * cfg.halfOpenProbes
  {
    if op.Failure? && v.state == HalfOpen {
      DoublesExactly(cfg, k - 1);
    }
  }

  lemma {:induction false} CoolingRun(cfg: Config, v: View, ops: seq<Op>, k: nat, t0: int, clock: int)
    requires cfg.Valid() && cfg.cooldownMax < TWO_62 && Cooling(cfg, v, k, t0, clock)
    requires TimedRun(clock, ops) && StaysTripped(cfg, v, ops)
    ensures t0 + CoolSum(cfg, k + Epochs(cfg, v, ops)) <= Clock(clock, ops)
    ensures Grants(cfg, v, ops) <= SlotsLeft(v) + Epochs(cfg, v, ops) * cfg.halfOpenProbes
    decreases |ops|
  {
    if ops != [] {
      var v' := Next(cfg, v, ops[0]);
      var started := if v.state == Open && v'.state == HalfOpen then 1 else 0;
      CoolingStep(cfg, v, ops[0], k, t0, clock);
      CoolingRun(cfg, v', ops[1..], k + started, t0, ops[0].End());
      GrantsAddUp(if ops[0].Ask? && Allowed(cfg, v, ops[0].now).1 then 1 else 0, Grants(cfg, v', ops[1..]),
                  SlotsLeft(v), SlotsLeft(v'), started, Epochs(cfg, v', ops[1..]), cfg.halfOpenProbes);
    }
  }

  lemma GrantsAddUp(granted: int, later: int, slots: int, slots': int, started: int, epochs: int, probes: int)
    requires granted + slots' <= slots + started * probes && later <= slots' + epochs * probes
    ensures granted + later <= slots + (started + epochs) * probes
  {
    assert (started + epochs) * probes == started * probes + epochs * probes;
  }

  lemma OpenRunIsThrottled(cfg: Config, v: View, ops: seq<Op>, t0: int)
    requires cfg.Valid() && cfg.cooldownMax < TWO_62
    requires v.state == Open && v.curCooldown == cfg.cooldown && v.openedAt == t0
    requires TimedRun(t0, ops) && StaysTripped(cfg, v, ops)
    ensures t0 + CoolSum(cfg, Epochs(cfg, v, ops)) <= Clock(t0, ops)
    ensures Grants(cfg, v, ops) <= Epochs(cfg, v, ops) * cfg.halfOpenProbes
  {
    assert cfg.cooldown * Pow2(0) == cfg.cooldown;
    CoolingRun(cfg, v, ops, 0, t0, t0);
  }

  /** Along every run that does not close again after a failure tripped a closed
      breaker at t0, reaching the n-th half-open epoch takes at least the first n
      cooldowns, each the promised doubled one, and no more than n quotas of calls
      are let through. */
  lemma TrippedRunIsThrottled(cfg: Config, closed: View, recordAt: int, weighAt: int, t0: int, ops: seq<Op>)
    requires cfg.Valid() && cfg.cooldownMax < TWO_62
    requires closed.state == Closed && Failed(cfg, closed, recordAt, weighAt, t0).state == Open
    requires TimedRun(t0, ops) && StaysTripped(cfg, Failed(cfg, closed, recordAt, weighAt, t0), ops)
    ensures
      var v := Failed(cfg, closed, recordAt, weighAt, t0);
      && t0 + CoolSum(cfg, Epochs(cfg, v, ops)) <= Clock(t0, ops)
      && Grants(cfg, v, ops) <= Epochs(cfg, v, ops) * cfg.halfOpenProbes
  {
    OpenRunIsThrottled(cfg, Failed(cfg, closed, recordAt, weighAt, t0), ops, t0);
  }

  // ----- Probes in flight -----

  // A call let through, tagged with the half-open epoch that granted it.
  datatype Ticket = Ticket(probe: bool, epoch: nat)

  // Each call has its own number. Finish ends it without a report: a Terminal
  // outcome, or a stream that failed after its first flush. A call may report more
  // than once, since one grant covers every retry of a candidate.
  datatype Event =
    | Request(call: nat, now: int)
    | Report(call: nat, ok: bool, done: bool, recordAt: int, weighAt: int, openAt: int)
    | Finish(call: nat)
  {
    // The call is over.
    predicate Ends() {
      Finish? || (Report? && done)
    }
  }

  // The calls in flight, and the probes of this epoch that ended without a report.
  datatype Traffic = Traffic(v: View, epoch: nat, flying: map<nat, Ticket>, abandoned: set<nat>)

  predicate Enabled(t: Traffic, e: Event) {
    if e.Request? then e.call !in t.flying && e.call !in t.abandoned else e.call in t.flying
  }

  function Advance(cfg: Config, t: Traffic, e: Event): Traffic
    requires cfg.Valid() && Enabled(t, e)
  {
    match e
    case Request(call, now) =>
      var (v, granted) := Allowed(cfg, t.v, now);
      var epoch := if t.v.state == Open && v.state == HalfOpen then t.epoch + 1 else t.epoch;
      Traffic(v, epoch, if granted then t.flying[call := Ticket(v.state == HalfOpen, epoch)] else t.flying,
              if epoch == t.epoch then t.abandoned else {})
    case Report(call, ok, done, r, w, o) =>
      t.(v := if ok then Succeeded(cfg, t.v, o) else Failed(cfg, t.v, r, w, o),
         flying := if done then t.flying - {call} else t.flying)
    case Finish(call) =>
      t.(flying := t.flying - {call},
         abandoned := if t.flying[call] == Ticket(true, t.epoch) then t.abandoned + {call} else t.abandoned)
  }

  // Probes of the current epoch that have not finished.
  function Pending(t: Traffic): set<nat> {
    set c | c in t.flying && t.flying[c] == Ticket(true, t.epoch)
  }

  // Every slot of a half-open epoch is still free, in flight, won or abandoned.
  ghost predicate Accounted(cfg: Config, t: Traffic) {
    && (forall c | c in t.abandoned :: c !in t.flying)
    && (t.v.state == HalfOpen ==>
          && 0 <= t.v.slots && 0 <= t.v.wins < cfg.halfOpenProbes
          && t.v.slots + |Pending(t)| + |t.abandoned| + t.v.wins >= cfg.halfOpenProbes)
  }

  // A granted probe of the current epoch.
  lemma ProbePends(cfg: Config, t: Traffic, call: nat, now: int)
    requires cfg.Valid() && Enabled(t, Request(call, now)) && Allowed(cfg, t.v, now).1
    requires Allowed(cfg, t.v, now).0.state == HalfOpen
    ensures
      var t' := Advance(cfg, t, Request(call, now));
      call in Pending(t') && (t'.epoch == t.epoch ==> Pending(t') == Pending(t) + {call} && call !in Pending(t))
  {
  }

  lemma RequestAccounts(cfg: Config, t: Traffic, call: nat, now: int)
    requires cfg.Valid() && Accounted(cfg, t) && Enabled(t, Request(call, now))
    ensures Accounted(cfg, Advance(cfg, t, Request(call, now)))
  {
    var t' := Advance(cfg, t, Request(call, now));
    if t'.v.state == HalfOpen {
      if Allowed(cfg, t.v, now).1 {
        ProbePends(cfg, t, call, now);
        SetPlus(Pending(t), call);
        SetMinus(Pending(t'), call);
      } else {
        assert t' == t;
      }
    }
  }

  lemma EndAccounts(cfg: Config, t: Traffic, e: Event)
    requires cfg.Valid() && Enabled(t, e) && e.Ends()
    ensures Pending(Advance(cfg, t, e)) == Pending(t) - {e.call}
  {
  }

  lemma AdvanceAccounts(cfg: Config, t: Traffic, e: Event)
    requires cfg.Valid() && Accounted(cfg, t) && Enabled(t, e)
    ensures Accounted(cfg, Advance(cfg, t, e))
  {
    if e.Request? {
      RequestAccounts(cfg, t, e.call, e.now);
    } else if e.Ends() {
      EndAccounts(cfg, t, e);
      SetMinus(Pending(t), e.call);
      SetPlus(t.abandoned, e.call);
    }
  }

  lemma SetMinus(s: set<nat>, c: nat)
    ensures |s - {c}| == if c in s then |s| - 1 else |s|
  {
    if c !in s {
      assert s - {c} == s;
    }
  }

  lemma SetPlus(s: set<nat>, c: nat)
    ensures |s + {c}| >= |s|
    ensures c !in s ==> |s + {c}| == |s| + 1
  {
    if c in s {
      assert s + {c} == s;
    }
  }

  ghost predicate Possible(cfg: Config, t: Traffic, es: seq<Event>)
    requires cfg.Valid()
    decreases |es|
  {
    es == [] || (Enabled(t, es[0]) && Possible(cfg, Advance(cfg, t, es[0]), es[1..]))
  }

  ghost function After(cfg: Config, t: Traffic, es: seq<Event>): Traffic
    requires cfg.Valid() && Possible(cfg, t, es)
    decreases |es|
  {
    if es == [] then t else After(cfg, Advance(cfg, t, es[0]), es[1..])
  }

  /** In every reachable half-open state, whatever stale reports arrived, the free
      slots, the unfinished probes of this epoch, the abandoned ones and the wins
      add up to at least the quota, and the wins alone never do. */
  lemma {:induction false} SlotsAreAccounted(cfg: Config, t: Traffic, es: seq<Event>)
    requires cfg.Valid() && Accounted(cfg, t) && Possible(cfg, t, es)
    ensures Accounted(cfg, After(cfg, t, es))
    decreases |es|
  {
    if es != [] {
      AdvanceAccounts(cfg, t, es[0]);
      SlotsAreAccounted(cfg, Advance(cfg, t, es[0]), es[1..]);
    }
  }

  lemma {:induction false} NothingAbandoned(cfg: Config, t: Traffic, es: seq<Event>)
    requires cfg.Valid() && Possible(cfg, t, es) && t.abandoned == {} && forall i | 0 <= i < |es| :: !es[i].Finish?
    ensures After(cfg, t, es).abandoned == {}
    decreases |es|
  {
    if es != [] {
      NothingAbandoned(cfg, Advance(cfg, t, es[0]), es[1..]);
    }
  }

  function Successes(cfg: Config, v: View, times: seq<int>): View
    decreases |times|
  {
    if times == [] then v else Successes(cfg, Succeeded(cfg, v, times[0]), times[1..])
  }

  lemma {:induction false} EnoughWinsClose(cfg: Config, v: View, times: seq<int>)
    requires cfg.Valid()
    requires v.state == Closed || (v.state == HalfOpen && v.wins < cfg.halfOpenProbes <= v.wins + |times|)
    ensures Successes(cfg, v, times).state == Closed
    decreases |times|
  {
    if times != [] {
      EnoughWinsClose(cfg, Succeeded(cfg, v, times[0]), times[1..]);
    }
  }

  // A breaker on its own: nobody has called it yet.
  function Idle(v: View): Traffic {
    Traffic(v, 0, map[], {})
  }

  /** If every call that ends also reports, half-open cannot wedge: with no slot
      left some probe of this epoch is still out, one failure among those out
      reopens the breaker, and if they all succeed it closes. */
  lemma HalfOpenResolves(cfg: Config, v: View, es: seq<Event>, times: seq<int>, r: int, w: int, o: int)
    requires cfg.Valid() && v.state != HalfOpen
    requires Possible(cfg, Idle(v), es) && forall i | 0 <= i < |es| :: !es[i].Finish?
    requires var t := After(cfg, Idle(v), es); t.v.state == HalfOpen && t.v.slots == 0 && |times| == |Pending(t)|
    ensures
      var t := After(cfg, Idle(v), es);
      && Pending(t) != {}
      && Failed(cfg, t.v, r, w, o).state == Open
      && Successes(cfg, t.v, times).state == Closed
  {
    SlotsAreAccounted(cfg, Idle(v), es);
    NothingAbandoned(cfg, Idle(v), es);
    EnoughWinsClose(cfg, After(cfg, Idle(v), es).v, times);
  }

  // The answers a breaker gives to a series of Allow calls.
  function Answers(cfg: Config, v: View, times: seq<int>): seq<bool>
    decreases |times|
  {
    if times == [] then [] else [Allowed(cfg, v, times[0]).1] + Answers(cfg, Allowed(cfg, v, times[0]).0, times[1..])
  }

  predicate NoneGranted(answers: seq<bool>) {
    forall i | 0 <= i < |answers| :: !answers[i]
  }

  ghost predicate RefusesForever(cfg: Config, v: View) {
    forall times: seq<int> :: NoneGranted(Answers(cfg, v, times))
  }

  lemma {:induction false} NoSlotNoAnswer(cfg: Config, v: View, times: seq<int>)
    requires v.state == HalfOpen && v.slots <= 0
    ensures NoneGranted(Answers(cfg, v, times))
  {
    if times != [] {
      NoSlotNoAnswer(cfg, v, times[1..]);
    }
  }

  /** A half-open breaker with nothing in flight refuses every later call, however
      long one waits, exactly when it has no slot left, and it gets there only
      because some probe of the epoch ended without a report. */
  lemma WedgedExactlyWithoutSlots(cfg: Config, t: Traffic)
    requires cfg.Valid() && Accounted(cfg, t) && t.v.state == HalfOpen && t.flying == map[]
    ensures RefusesForever(cfg, t.v) <==> t.v.slots == 0
    ensures t.v.slots == 0 ==> t.abandoned != {}
  {
    if t.v.slots == 0 {
      forall times ensures NoneGranted(Answers(cfg, t.v, times)) {
        NoSlotNoAnswer(cfg, t.v, times);
      }
    } else {
      assert Answers(cfg, t.v, [0])[0];
      assert !NoneGranted(Answers(cfg, t.v, [0]));
    }
  }

  lemma OneEvent(cfg: Config, t: Traffic, e: Event, rest: seq<Event>)
    requires cfg.Valid() && Enabled(t, e) && Possible(cfg, Advance(cfg, t, e), rest)
    ensures Possible(cfg, t, [e] + rest) && After(cfg, t, [e] + rest) == After(cfg, Advance(cfg, t, e), rest)
  {
    assert ([e] + rest)[1..] == rest;
  }

  // From a new breaker: one failure trips it, and the one probe of its quota ends
  // with a Terminal outcome.
  lemma TerminalProbeWedges()
    ensures
      var cfg, created := Config(0.5, 1, SECOND, SECOND, SECOND, 1), Idle(View(Closed, [], SECOND, 0, 0, 0));
      var es := [Request(0, 0)] + ([Report(0, false, true, 0, 0, 0)] + ([Request(1, SECOND)] + ([Finish(1)] + [])));
      && cfg.Valid() && Possible(cfg, created, es)
      && var t := After(cfg, created, es); t.v.state == HalfOpen && t.v.slots == 0 && t.flying == map[]
  {
    var cfg, created := Config(0.5, 1, SECOND, SECOND, SECOND, 1), Idle(View(Closed, [], SECOND, 0, 0, 0));
    var asked := Advance(cfg, created, Request(0, 0));
    var failure := Outcome(0, false);
    assert [failure][..0] == [];
    assert WindowCount([failure], 0, 1, false) == 1 && WindowCount([failure], 0, 1, true) == 0;
    assert Trips(cfg, [failure], 0);
    var tripped := Advance(cfg, asked, Report(0, false, true, 0, 0, 0));
    assert tripped.v == View(Open, [failure], SECOND, 0, 0, 0) && tripped.flying == map[];
    var probing := Advance(cfg, tripped, Request(1, SECOND));
    assert probing.flying == map[1 := Ticket(true, 1)] && probing.v.slots == 0;
    OneEvent(cfg, probing, Finish(1), []);
    OneEvent(cfg, tripped, Request(1, SECOND), [Finish(1)] + []);
    OneEvent(cfg, asked, Report(0, false, true, 0, 0, 0), [Request(1, SECOND)] + ([Finish(1)] + []));
    OneEvent(cfg, created, Request(0, 0),
             [Report(0, false, true, 0, 0, 0)] + ([Request(1, SECOND)] + ([Finish(1)] + [])));
  }

  // ----- One call among all the others -----

  // The events of one call.
  function Own(es: seq<Event>, call: nat): seq<Event> {
    if es == [] then []
    else if es[0].call == call then [es[0]] + Own(es[1..], call)
    else Own(es[1..], call)
  }

  lemma {:induction false} OwnJoins(a: seq<Event>, b: seq<Event>, call: nat)
    ensures Own(a + b, call) == Own(a, call) + Own(b, call)
  {
    if a == [] {
      assert a + b == b;
    } else {
      OwnJoins(a[1..], b, call);
      assert (a + b)[1..] == a[1..] + b;
    }
  }

  lemma {:induction false} PossibleJoins(cfg: Config, t: Traffic, a: seq<Event>, b: seq<Event>)
    requires cfg.Valid() && Possible(cfg, t, a) && Possible(cfg, After(cfg, t, a), b)
    ensures Possible(cfg, t, a + b) && After(cfg, t, a + b) == After(cfg, After(cfg, t, a), b)
    decreases |a|
  {
    if a == [] {
      assert a + b == b;
    } else {
      PossibleJoins(cfg, Advance(cfg, t, a[0]), a[1..], b);
      assert (a + b)[1..] == a[1..] + b;
    }
  }

  // A call that is not in flight stays so until it asks.
  lemma {:induction false} StaysAway(cfg: Config, t: Traffic, es: seq<Event>, call: nat)
    requires cfg.Valid() && Possible(cfg, t, es) && call !in t.flying && Own(es, call) == []
    ensures call !in After(cfg, t, es).flying
    ensures call in After(cfg, t, es).abandoned ==> call in t.abandoned
    decreases |es|
  {
    if es != [] {
      StaysAway(cfg, Advance(cfg, t, es[0]), es[1..], call);
    }
  }

  /** Whatever the other calls do, a call in flight keeps its ticket until an event of
      its own ends it, so it can always make its next report. */
  lemma {:induction false} StaysInFlight(cfg: Config, t: Traffic, es: seq<Event>, call: nat)
    requires cfg.Valid() && Possible(cfg, t, es) && call in t.flying
    requires forall i | 0 <= i < |Own(es, call)| :: !Own(es, call)[i].Ends()
    ensures var end := After(cfg, t, es); call in end.flying && end.flying[call] == t.flying[call]
    decreases |es|
  {
    if es != [] {
      var rest := Own(es[1..], call);
      forall i | 0 <= i < |rest| ensures !rest[i].Ends() {
        assert rest[i] == Own(es, call)[if es[0].call == call then i + 1 else i];
      }
      assert es[0].call == call ==> Own(es, call)[0] == es[0];
      StaysInFlight(cfg, Advance(cfg, t, es[0]), es[1..], call);
    }
  }

  // The events of a call from its grant on: reports, the last of them or a silent
  // end closing it.
  predicate Concludes(own: seq<Event>) {
    own != [] && own[|own| - 1].Ends() && forall i | 0 <= i < |own| - 1 :: own[i].Report? && !own[i].done
  }

  /** However its events are interleaved with those of other calls, a call that
      concludes is in flight no longer, and it is abandoned only if it ended without
      a report. */
  lemma {:induction false} CallSettles(cfg: Config, t: Traffic, es: seq<Event>, call: nat)
    requires cfg.Valid() && Possible(cfg, t, es) && call in t.flying && call !in t.abandoned && Concludes(Own(es, call))
    ensures
      var end, own := After(cfg, t, es), Own(es, call);
      call !in end.flying && (call in end.abandoned ==> own[|own| - 1].Finish?)
    decreases |es|
  {
    var next, rest := Advance(cfg, t, es[0]), es[1..];
    if es[0].call != call {
      CallSettles(cfg, next, rest, call);
    } else if |Own(es, call)| == 1 {
      assert Own(rest, call) == [];
      StaysAway(cfg, next, rest, call);
    } else {
      assert Own(es, call)[0] == es[0];
      assert forall i | 0 <= i < |Own(rest, call)| :: Own(rest, call)[i] == Own(es, call)[i + 1];
      CallSettles(cfg, next, rest, call);
    }
  }

  // A call without a ticket cannot report.
  lemma {:induction false} NeedsTicket(cfg: Config, t: Traffic, es: seq<Event>, call: nat)
    requires cfg.Valid() && call !in t.flying && Own(es, call) != [] && !Own(es, call)[0].Request?
    ensures !Possible(cfg, t, es)
    decreases |es|
  {
    if Enabled(t, es[0]) && es[0].call != call {
      NeedsTicket(cfg, Advance(cfg, t, es[0]), es[1..], call);
    }
  }

  /** The same from its request on: a call that reports was granted. */
  lemma {:induction false} RequestSettles(cfg: Config, t: Traffic, es: seq<Event>, call: nat)
    requires cfg.Valid() && Possible(cfg, t, es) && call !in t.flying && call !in t.abandoned
    requires var own := Own(es, call); own != [] && own[0].Request? && Concludes(own[1..])
    ensures
      var end, own := After(cfg, t, es), Own(es, call);
      call !in end.flying && (call in end.abandoned ==> own[|own| - 1].Finish?)
    decreases |es|
  {
    var next, rest := Advance(cfg, t, es[0]), es[1..];
    if es[0].call != call {
      RequestSettles(cfg, next, rest, call);
    } else {
      assert Own(es, call)[1..] == Own(rest, call);
      if call !in next.flying {
        NeedsTicket(cfg, next, rest, call);
      }
      CallSettles(cfg, next, rest, call);
    }
  }
}
