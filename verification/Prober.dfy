/** The background prober: on every tick it sweeps the breakers, asks those it sees
    open and due, and reports what a health check found. Between any two of its
    calls to a breaker other goroutines may call it too. */
module Prober {
  import opened Breaker
  import opened BreakerRuns

  // What one sweep finds for a breaker: whether its provider is wired and can be
  // checked, the health found, its clock readings, and what other callers do before
  // the prober looks at the state, before it asks whether the breaker is ready,
  // before it asks for the call and before it reports.
  datatype Probe = Probe(call: nat, wired: bool, checkable: bool, healthy: bool,
                         seeAt: int, readyAt: int, askAt: int, recordAt: int, weighAt: int, openAt: int,
                         beforeSee: seq<Event>, beforeReady: seq<Event>, beforeAsk: seq<Event>,
                         beforeReport: seq<Event>)
  {
    function Ask(): Event {
      Request(call, askAt)
    }

    function Outcome(): Event {
      Report(call, healthy, true, recordAt, weighAt, openAt)
    }
  }

  // Passed over; refused because somebody else took the last slot; or let through
  // and reported.
  datatype Visit = Skipped | Lost | Reported

  // ----- Other callers -----

  predicate Ordered(from: int, e: Event) {
    match e
    case Request(_, now) => from <= now
    case Report(_, _, _, r, w, o) => from <= r <= w <= o
    case Finish(_) => true
  }

  function EndOf(from: int, e: Event): int {
    match e
    case Request(_, now) => now
    case Report(_, _, _, _, _, o) => o
    case Finish(_) => from
  }

  predicate Timed(from: int, es: seq<Event>)
    decreases |es|
  {
    es == [] || (Ordered(from, es[0]) && Timed(EndOf(from, es[0]), es[1..]))
  }

  function Until(from: int, es: seq<Event>): int
    decreases |es|
  {
    if es == [] then from else Until(EndOf(from, es[0]), es[1..])
  }

  // One event of the traffic, carried out on the breaker.
  method Perform(b: CircuitBreaker, e: Event, ghost from: int, ghost t: Traffic)
    requires b.Valid() && b.clock <= from && b.Abs() == t.v && Enabled(t, e) && Ordered(from, e)
    modifies b, b.buckets
    ensures b.Valid() && b.clock <= EndOf(from, e) && b.Abs() == Advance(b.cfg, t, e).v
  {
    match e
    case Request(_, now) => var _ := b.Allow(now);
    case Report(_, ok, _, r, w, o) =>
      if ok {
        b.RecordSuccess(o);
      } else {
        b.RecordFailure(r, w, o);
      }
    case Finish(_) =>
  }

  method Interfere(b: CircuitBreaker, es: seq<Event>, ghost from: int, ghost t: Traffic)
    requires b.Valid() && b.clock <= from && b.Abs() == t.v && Possible(b.cfg, t, es) && Timed(from, es)
    modifies b, b.buckets
    ensures b.Valid() && b.clock <= Until(from, es) && b.Abs() == After(b.cfg, t, es).v
    decreases |es|
  {
    if es != [] {
      Perform(b, es[0], from, t);
      Interfere(b, es[1..], EndOf(from, es[0]), Advance(b.cfg, t, es[0]));
    }
  }

  // ----- One probe -----

  // What the other callers do is possible where it happens, and is not the probe's.
  ghost predicate Fits(cfg: Config, t: Traffic, p: Probe)
    requires cfg.Valid()
  {
    && p.call !in t.flying && p.call !in t.abandoned
    && Own(p.beforeSee, p.call) == Own(p.beforeReady, p.call) == []
    && Own(p.beforeAsk, p.call) == Own(p.beforeReport, p.call) == []
    && Possible(cfg, t, p.beforeSee)
    && var t1 := After(cfg, t, p.beforeSee);
       && Possible(cfg, t1, p.beforeReady)
       && var t2 := After(cfg, t1, p.beforeReady);
          && Possible(cfg, t2, p.beforeAsk)
          && var t3 := After(cfg, t2, p.beforeAsk);
             Enabled(t3, p.Ask()) && Possible(cfg, Advance(cfg, t3, p.Ask()), p.beforeReport)
  }

  ghost predicate OnTime(from: int, p: Probe) {
    && Timed(from, p.beforeSee) && Until(from, p.beforeSee) <= p.seeAt
    && Timed(p.seeAt, p.beforeReady) && Until(p.seeAt, p.beforeReady) <= p.readyAt
    && Timed(p.readyAt, p.beforeAsk) && Until(p.readyAt, p.beforeAsk) <= p.askAt
    && Timed(p.askAt, p.beforeReport) && Until(p.askAt, p.beforeReport) <= p.recordAt <= p.weighAt <= p.openAt
  }

  // The three moments the prober decides at.
  ghost function Seen(cfg: Config, t: Traffic, p: Probe): Traffic
    requires cfg.Valid() && Fits(cfg, t, p)
  {
    After(cfg, t, p.beforeSee)
  }

  ghost function Due(cfg: Config, t: Traffic, p: Probe): Traffic
    requires cfg.Valid() && Fits(cfg, t, p)
  {
    After(cfg, Seen(cfg, t, p), p.beforeReady)
  }

  ghost function Asked(cfg: Config, t: Traffic, p: Probe): Traffic
    requires cfg.Valid() && Fits(cfg, t, p)
  {
    After(cfg, Due(cfg, t, p), p.beforeAsk)
  }

  // Seen open, then due, and its provider can be checked.
  ghost predicate WorthProbing(cfg: Config, t: Traffic, p: Probe)
    requires cfg.Valid() && Fits(cfg, t, p)
  {
    Seen(cfg, t, p).v.state == Open && Ready(Due(cfg, t, p).v, p.readyAt) && p.wired && p.checkable
  }

  // The decision, from what the breaker answered at each moment.
  ghost function Verdict(cfg: Config, t: Traffic, p: Probe): Visit
    requires cfg.Valid() && Fits(cfg, t, p)
  {
    if !WorthProbing(cfg, t, p) then Skipped
    else if !Allowed(cfg, Asked(cfg, t, p).v, p.askAt).1 then Lost
    else Reported
  }

  // Everything that happened to the breaker meanwhile.
  ghost function Run(cfg: Config, t: Traffic, p: Probe): seq<Event>
    requires cfg.Valid() && Fits(cfg, t, p)
  {
    if Seen(cfg, t, p).v.state != Open then p.beforeSee
    else
      match Verdict(cfg, t, p)
      case Skipped => p.beforeSee + p.beforeReady
      case Lost => (p.beforeSee + p.beforeReady + p.beforeAsk) + [p.Ask()]
      case Reported => ((p.beforeSee + p.beforeReady + p.beforeAsk) + [p.Ask()]) + (p.beforeReport + [p.Outcome()])
  }

  lemma UpToAsk(cfg: Config, t: Traffic, p: Probe)
    requires cfg.Valid() && Fits(cfg, t, p)
    ensures
      var two := p.beforeSee + p.beforeReady;
      var three := two + p.beforeAsk;
      && Possible(cfg, t, two) && After(cfg, t, two) == Due(cfg, t, p) && Own(two, p.call) == []
      && Possible(cfg, t, three) && After(cfg, t, three) == Asked(cfg, t, p) && Own(three, p.call) == []
  {
    var two := p.beforeSee + p.beforeReady;
    PossibleJoins(cfg, t, p.beforeSee, p.beforeReady);
    OwnJoins(p.beforeSee, p.beforeReady, p.call);
    PossibleJoins(cfg, t, two, p.beforeAsk);
    OwnJoins(two, p.beforeAsk, p.call);
  }

  lemma Single(cfg: Config, t: Traffic, e: Event)
    requires cfg.Valid() && Enabled(t, e)
    ensures Possible(cfg, t, [e]) && After(cfg, t, [e]) == Advance(cfg, t, e) && Own([e], e.call) == [e]
  {
    assert [e][1..] == [];
    assert Own([e], e.call) == [e] + Own([e][1..], e.call);
  }

  lemma ThroughAsk(cfg: Config, t: Traffic, p: Probe)
    requires cfg.Valid() && Fits(cfg, t, p)
    ensures
      var asked := (p.beforeSee + p.beforeReady + p.beforeAsk) + [p.Ask()];
      && Possible(cfg, t, asked) && After(cfg, t, asked) == Advance(cfg, Asked(cfg, t, p), p.Ask())
      && Own(asked, p.call) == [p.Ask()]
  {
    var three := p.beforeSee + p.beforeReady + p.beforeAsk;
    UpToAsk(cfg, t, p);
    Single(cfg, Asked(cfg, t, p), p.Ask());
    PossibleJoins(cfg, t, three, [p.Ask()]);
    OwnJoins(three, [p.Ask()], p.call);
  }

  // What follows a grant.
  lemma ToReport(cfg: Config, t: Traffic, p: Probe)
    requires cfg.Valid() && Fits(cfg, t, p) && Verdict(cfg, t, p) == Reported
    ensures
      var granted := Advance(cfg, Asked(cfg, t, p), p.Ask());
      var es := p.beforeReport + [p.Outcome()];
      && Enabled(After(cfg, granted, p.beforeReport), p.Outcome())
      && Possible(cfg, granted, es) && Own(es, p.call) == [p.Outcome()]
      && After(cfg, granted, es) == Advance(cfg, After(cfg, granted, p.beforeReport), p.Outcome())
  {
    var granted := Advance(cfg, Asked(cfg, t, p), p.Ask());
    StaysInFlight(cfg, granted, p.beforeReport, p.call);
    Single(cfg, After(cfg, granted, p.beforeReport), p.Outcome());
    PossibleJoins(cfg, granted, p.beforeReport, [p.Outcome()]);
    OwnJoins(p.beforeReport, [p.Outcome()], p.call);
  }

  /** The reporting discipline, whatever other callers do in between: a probe that is
      passed over asks nothing, one that loses the race asks and is refused, and one
      that is let through is always able to report and does, so it is in flight no
      longer and was not abandoned. */
  lemma ProbeReports(cfg: Config, t: Traffic, p: Probe)
    requires cfg.Valid() && Fits(cfg, t, p)
    ensures
      var es := Run(cfg, t, p);
      && Possible(cfg, t, es)
      && Own(es, p.call) == (match Verdict(cfg, t, p)
                             case Skipped => []
                             case Lost => [p.Ask()]
                             case Reported => [p.Ask(), p.Outcome()])
      && p.call !in After(cfg, t, es).flying && p.call !in After(cfg, t, es).abandoned
  {
    UpToAsk(cfg, t, p);
    ThroughAsk(cfg, t, p);
    var es := Run(cfg, t, p);
    if Verdict(cfg, t, p) == Reported {
      var asked := (p.beforeSee + p.beforeReady + p.beforeAsk) + [p.Ask()];
      ToReport(cfg, t, p);
      PossibleJoins(cfg, t, asked, p.beforeReport + [p.Outcome()]);
      OwnJoins(asked, p.beforeReport + [p.Outcome()], p.call);
      assert Own(es, p.call) == [p.Ask(), p.Outcome()];
      assert Own(es, p.call)[1..] == [p.Outcome()];
      RequestSettles(cfg, t, es, p.call);
    } else if Verdict(cfg, t, p) == Lost {
      StaysAway(cfg, t, p.beforeSee + p.beforeReady + p.beforeAsk, p.call);
    } else {
      StaysAway(cfg, t, es, p.call);
    }
  }

  /** A breaker is asked exactly when it was seen open, was ready when asked so, and its
      provider is wired and can be checked; and what it is told is the health found. */
  lemma ProbeTellsHealth(cfg: Config, t: Traffic, p: Probe)
    requires cfg.Valid() && Fits(cfg, t, p)
    ensures
      var own := Own(Run(cfg, t, p), p.call);
      var seen := After(cfg, t, p.beforeSee);
      var due := After(cfg, seen, p.beforeReady);
      && (own != [] <==> seen.v.state == Open && Allowed(cfg, due.v, p.readyAt).1 && p.wired && p.checkable)
      && (own != [] ==> own[0] == Request(p.call, p.askAt))
      && (|own| > 1 <==> own != [] && Allowed(cfg, After(cfg, due, p.beforeAsk).v, p.askAt).1)
      && (|own| > 1 ==> own[1..] == [Report(p.call, p.healthy, true, p.recordAt, p.weighAt, p.openAt)])
  {
    ProbeReports(cfg, t, p);
  }

  // With a quota of one, a request that asks just before the prober takes the slot.
  lemma RaceIsLost()
    ensures
      var cfg, t := Config(0.5, 1, SECOND, SECOND, SECOND, 1), Idle(View(Open, [Outcome(0, false)], SECOND, 0, 0, 0));
      var p := Probe(0, true, true, true, SECOND, SECOND, SECOND, SECOND, SECOND, SECOND,
                     [], [], [Request(1, SECOND)], []);
      cfg.Valid() && Fits(cfg, t, p) && OnTime(0, p) && Verdict(cfg, t, p) == Lost
  {
    var cfg, t := Config(0.5, 1, SECOND, SECOND, SECOND, 1), Idle(View(Open, [Outcome(0, false)], SECOND, 0, 0, 0));
    var p := Probe(0, true, true, true, SECOND, SECOND, SECOND, SECOND, SECOND, SECOND,
                   [], [], [Request(1, SECOND)], []);
    Single(cfg, t, Request(1, SECOND));
    assert [Request(1, SECOND)][1..] == [];
    assert Own([Request(1, SECOND)], 0) == Own([], 0);
    assert Timed(SECOND, [Request(1, SECOND)]) && Until(SECOND, [Request(1, SECOND)]) == SECOND;
  }

  // One breaker of the sweep.
  method ProbeBreaker(b: CircuitBreaker, p: Probe, ghost from: int, ghost t: Traffic) returns (visit: Visit)
    requires b.Valid() && b.clock <= from && b.Abs() == t.v && Fits(b.cfg, t, p) && OnTime(from, p)
    modifies b, b.buckets
    ensures b.Valid() && visit == Verdict(b.cfg, t, p)
    ensures Possible(b.cfg, t, Run(b.cfg, t, p)) && b.Abs() == After(b.cfg, t, Run(b.cfg, t, p)).v
  {
    UpToAsk(b.cfg, t, p);
    ThroughAsk(b.cfg, t, p);
    Interfere(b, p.beforeSee, from, t);
    if b.state != Open {
      return Skipped;
    }
    Interfere(b, p.beforeReady, p.seeAt, Seen(b.cfg, t, p));
    var ready := b.IsReady(p.readyAt);
    if !ready || !p.wired || !p.checkable {
      return Skipped;
    }
    Interfere(b, p.beforeAsk, p.readyAt, Due(b.cfg, t, p));
    var granted := b.Allow(p.askAt);
    if !granted {
      return Lost;
    }
    ProbeReports(b.cfg, t, p);
    visit := Conclude(b, p, t);
  }

  // The health check is over: report it.
  method Conclude(b: CircuitBreaker, p: Probe, ghost t: Traffic) returns (visit: Visit)
    requires b.Valid() && Fits(b.cfg, t, p) && Verdict(b.cfg, t, p) == Reported && b.clock <= p.askAt
    requires b.Abs() == Advance(b.cfg, Asked(b.cfg, t, p), p.Ask()).v
    requires Timed(p.askAt, p.beforeReport) && Until(p.askAt, p.beforeReport) <= p.recordAt <= p.weighAt <= p.openAt
    modifies b, b.buckets
    ensures b.Valid() && visit == Reported
    ensures Possible(b.cfg, t, Run(b.cfg, t, p)) && b.Abs() == After(b.cfg, t, Run(b.cfg, t, p)).v
  {
    ghost var granted := Advance(b.cfg, Asked(b.cfg, t, p), p.Ask());
    ToReport(b.cfg, t, p);
    ThroughAsk(b.cfg, t, p);
    PossibleJoins(b.cfg, t, (p.beforeSee + p.beforeReady + p.beforeAsk) + [p.Ask()], p.beforeReport + [p.Outcome()]);
    Interfere(b, p.beforeReport, p.askAt, granted);
    if p.healthy {
      b.RecordSuccess(p.openAt);
    } else {
      b.RecordFailure(p.recordAt, p.weighAt, p.openAt);
    }
    visit := Reported;
  }

  ghost predicate Separate(breakers: seq<CircuitBreaker>) {
    forall i, j | 0 <= i < j < |breakers| :: breakers[i] != breakers[j] && breakers[i].buckets != breakers[j].buckets
  }

  // A breaker nobody has reached yet in this sweep.
  ghost predicate Holds(b: CircuitBreaker, from: int, v: View)
    reads b, b.buckets
  {
    b.Valid() && b.clock <= from && b.Abs() == v
  }

  ghost predicate Ends(b: CircuitBreaker, v: View)
    reads b, b.buckets
  {
    b.Valid() && b.Abs() == v
  }

  ghost predicate Planned(cfg: Config, p: Probe, from: int, t: Traffic) {
    cfg.Valid() && Fits(cfg, t, p) && OnTime(from, p)
  }

  // What a probe and the other callers come to.
  ghost function EndState(cfg: Config, p: Probe, from: int, t: Traffic): (Visit, View)
    requires Planned(cfg, p, from, t)
  {
    ProbeReports(cfg, t, p);
    (Verdict(cfg, t, p), After(cfg, t, Run(cfg, t, p)).v)
  }

  ghost predicate Comes(cfg: Config, p: Probe, from: int, t: Traffic, end: (Visit, View)) {
    Planned(cfg, p, from, t) && EndState(cfg, p, from, t) == end
  }

  /** One sweep: every breaker is visited once, in order, and left exactly as its own
      probe and its other callers leave it. */
  method ProbeOnce(breakers: seq<CircuitBreaker>, probes: seq<Probe>, ghost from: int, ghost ts: seq<Traffic>)
    returns (visits: seq<Visit>)
    requires |probes| == |breakers| == |ts| && Separate(breakers)
    requires forall i | 0 <= i < |breakers| :: Holds(breakers[i], from, ts[i].v)
    requires forall i {:trigger probes[i]} | 0 <= i < |breakers| :: Planned(breakers[i].cfg, probes[i], from, ts[i])
    modifies breakers, set b | b in breakers :: b.buckets
    ensures |visits| == |breakers|
    ensures forall i | 0 <= i < |breakers| ::
              var (visit, v) := EndState(breakers[i].cfg, probes[i], from, ts[i]);
              visits[i] == visit && Ends(breakers[i], v)
  {
    ghost var ends := seq(|breakers|,
      i requires 0 <= i < |breakers| && Planned(breakers[i].cfg, probes[i], from, ts[i]) =>
        EndState(breakers[i].cfg, probes[i], from, ts[i]));
    visits := Sweep(breakers, probes, from, ts, ends);
  }

  // Breaker by breaker, where the sweep has got to.
  ghost predicate AllIn(breakers: seq<CircuitBreaker>, views: seq<View>, reached: int, from: int)
    reads breakers, set b | b in breakers :: b.buckets
  {
    && |views| == |breakers|
    && forall j | 0 <= j < |breakers| ::
         Ends(breakers[j], views[j]) && (reached <= j ==> breakers[j].clock <= from)
  }

  method Sweep(breakers: seq<CircuitBreaker>, probes: seq<Probe>, ghost from: int, ghost ts: seq<Traffic>,
               ghost ends: seq<(Visit, View)>)
    returns (visits: seq<Visit>)
    requires |probes| == |breakers| == |ts| == |ends| && Separate(breakers)
    requires AllIn(breakers, seq(|ts|, i requires 0 <= i < |ts| => ts[i].v), 0, from)
    requires forall i {:trigger probes[i]} | 0 <= i < |breakers| ::
               Comes(breakers[i].cfg, probes[i], from, ts[i], ends[i])
    modifies breakers, set b | b in breakers :: b.buckets
    ensures |visits| == |breakers| && forall i | 0 <= i < |visits| :: visits[i] == ends[i].0
    ensures AllIn(breakers, seq(|ends|, i requires 0 <= i < |ends| => ends[i].1), |breakers|, from)
  {
    visits := [];
    ghost var views := seq(|ts|, i requires 0 <= i < |ts| => ts[i].v);
    for i := 0 to |breakers|
      invariant |visits| == i && forall j | 0 <= j < i :: visits[j] == ends[j].0
      invariant |views| == |breakers| && forall j | 0 <= j < |views| :: views[j] == if j < i then ends[j].1 else ts[j].v
      invariant AllIn(breakers, views, i, from)
    {
      var visit := ProbeTo(breakers, i, probes[i], from, ts[i], ends[i], views);
      visits, views := visits + [visit], views[i := ends[i].1];
    }
    assert views == seq(|ends|, i requires 0 <= i < |ends| => ends[i].1);
  }

  // The next breaker of the sweep; the others stay as they are.
  method ProbeTo(breakers: seq<CircuitBreaker>, i: nat, p: Probe, ghost from: int, ghost t: Traffic,
                 ghost end: (Visit, View),
                 ghost views: seq<View>)
    returns (visit: Visit)
    requires i < |breakers| && Separate(breakers) && AllIn(breakers, views, i, from) && views[i] == t.v
    requires Comes(breakers[i].cfg, p, from, t, end)
    modifies breakers[i], breakers[i].buckets
    ensures visit == end.0 && AllIn(breakers, views[i := end.1], i + 1, from)
  {
    assert Ends(breakers[i], views[i]);
    visit := ProbeBreaker(breakers[i], p, from, t);
    forall j | 0 <= j < |breakers| && j != i
      ensures Ends(breakers[j], views[j]) && (i < j ==> breakers[j].clock <= from)
    {
      assert old(Ends(breakers[j], views[j])) && (i <= j ==> old(breakers[j].clock) <= from);
      assert breakers[j] != breakers[i] && breakers[j].buckets != breakers[i].buckets;
    }
  }
}
