/** One circuit breaker: a ring of per-second outcome counts, an error-rate trip
    gated on volume, a cooldown that doubles up to a ceiling, and a quota of
    half-open probes. The class keeps the ring; its contract is stated over the
    full log of outcomes since the last reset, which no ring appears in. Times
    are nanoseconds read from a clock that never goes back. */
module Breaker {
  import opened Int64

  datatype State = Closed | HalfOpen | Open

  datatype Config = Config(errorRateThreshold: real, minRequests: int, window: int,
                           cooldown: int, cooldownMax: int, halfOpenProbes: int)
  {
    // What configuration validation guarantees, within int64.
    predicate Valid() {
      && minRequests >= 1 && window > 0 && halfOpenProbes >= 1
      && 0 < cooldown <= cooldownMax < TWO_63
    }

    function WindowSeconds(): (w: int)
      requires window > 0
      ensures w >= 1
    {
      if window / SECOND < 1 then 1 else window / SECOND
    }
  }

  const SECOND: int := 1_000_000_000

  datatype Outcome = Outcome(sec: int, ok: bool)

  // The breaker with an unbounded log in place of the ring.
  datatype View = View(state: State, log: seq<Outcome>, curCooldown: int, openedAt: int, slots: int, wins: int)

  predicate InWindow(sec: int, now: int, w: int) {
    0 <= now - sec < w
  }

  // How many outcomes of one kind the last w seconds saw.
  function WindowCount(log: seq<Outcome>, now: int, w: int, ok: bool): nat {
    if log == [] then 0
    else WindowCount(log[..|log| - 1], now, w, ok)
         + (if InWindow(log[|log| - 1].sec, now, w) && log[|log| - 1].ok == ok then 1 else 0)
  }

  predicate Trips(cfg: Config, log: seq<Outcome>, now: int)
    requires cfg.Valid()
  {
    var failures := WindowCount(log, now, cfg.WindowSeconds(), false);
    var total := WindowCount(log, now, cfg.WindowSeconds(), true) + failures;
    total >= cfg.minRequests && failures as real / total as real >= cfg.errorRateThreshold
  }

  function Ready(v: View, now: int): bool {
    match v.state
    case Closed => true
    case Open => now - v.openedAt >= v.curCooldown
    case HalfOpen => v.slots > 0
  }

  function Allowed(cfg: Config, v: View, now: int): (View, bool) {
    var u := if v.state == Open && now - v.openedAt >= v.curCooldown
             then v.(state := HalfOpen, slots := cfg.halfOpenProbes, wins := 0) else v;
    match u.state
    case Closed => (u, true)
    case HalfOpen => if u.slots <= 0 then (u, false) else (u.(slots := u.slots - 1), true)
    case Open => (u, false)
  }

  function Succeeded(cfg: Config, v: View, now: int): View {
    match v.state
    case HalfOpen =>
      if v.wins + 1 >= cfg.halfOpenProbes
      then v.(state := Closed, wins := v.wins + 1, curCooldown := cfg.cooldown, log := [])
      else v.(wins := v.wins + 1)
    case Closed => v.(log := v.log + [Outcome(now / SECOND, true)])
    case Open => v
  }

  function Doubled(cfg: Config, cooldown: int): int {
    if Wrap64(cooldown * 2) < cfg.cooldownMax then Wrap64(cooldown * 2) else cfg.cooldownMax
  }

  // A closed breaker reads the clock to record, again to weigh the window and
  // again to stamp the trip.
  function Failed(cfg: Config, v: View, recordAt: int, weighAt: int, openAt: int): View
    requires cfg.Valid()
  {
    match v.state
    case HalfOpen => v.(state := Open, curCooldown := Doubled(cfg, v.curCooldown), openedAt := openAt)
    case Closed =>
      var log := v.log + [Outcome(recordAt / SECOND, false)];
      if Trips(cfg, log, weighAt / SECOND)
      then v.(state := Open, log := log, curCooldown := cfg.cooldown, openedAt := openAt)
      else v.(log := log)
    case Open => v
  }

  datatype Cell = Cell(unixSec: int, successes: int, failures: int)
  {
    function Of(ok: bool): int {
      if ok then successes else failures
    }
  }

  // Outcomes of one kind at one second, and recent ones of residue below n.
  datatype Filter = At(sec: int, residue: int, ok: bool) | Recent(now: int, below: int, ok: bool)

  predicate Selects(f: Filter, w: int, e: Outcome)
    requires w > 0
  {
    match f
    case At(sec, residue, ok) => e.sec == sec && e.sec % w == residue && e.ok == ok
    case Recent(now, below, ok) => InWindow(e.sec, now, w) && e.sec % w < below && e.ok == ok
  }

  function Count(f: Filter, w: int, log: seq<Outcome>): nat
    requires w > 0
  {
    if log == [] then 0
    else Count(f, w, log[..|log| - 1]) + (if Selects(f, w, log[|log| - 1]) then 1 else 0)
  }

  // Cell i holds the newest second of its residue that the log mentions.
  ghost predicate CellMatches(c: Cell, i: int, w: int, log: seq<Outcome>)
    requires w > 0
  {
    && (c.unixSec % w == i || c.unixSec == 0)
    && (forall k | 0 <= k < |log| && log[k].sec % w == i :: log[k].sec <= c.unixSec)
    && c.successes == Count(At(c.unixSec, i, true), w, log)
    && c.failures == Count(At(c.unixSec, i, false), w, log)
  }

  ghost predicate RingMatches(ring: seq<Cell>, w: int, log: seq<Outcome>, clock: int)
    requires w > 0
  {
    && |ring| == w
    && (forall k | 0 <= k < |log| :: 0 <= log[k].sec <= clock)
    && (forall i | 0 <= i < w :: 0 <= ring[i].unixSec <= clock && CellMatches(ring[i], i, w, log))
  }

  function RingSum(ring: seq<Cell>, now: int, w: int, ok: bool, n: nat): int
    requires n <= |ring|
  {
    if n == 0 then 0
    else RingSum(ring, now, w, ok, n - 1) + (if InWindow(ring[n - 1].unixSec, now, w) then ring[n - 1].Of(ok) else 0)
  }

  lemma ResidueGap(a: int, b: int, w: int)
    requires w > 0 && a < b && a % w == b % w
    ensures b - a >= w
  {
    var q := b / w - a / w;
    assert b - a == w * q;
    assert q > 0;
  }

  lemma {:induction false} CountSame(f: Filter, g: Filter, w: int, log: seq<Outcome>)
    requires w > 0 && forall k | 0 <= k < |log| :: Selects(f, w, log[k]) == Selects(g, w, log[k])
    ensures Count(f, w, log) == Count(g, w, log)
  {
    if log != [] {
      CountSame(f, g, w, log[..|log| - 1]);
    }
  }

  lemma {:induction false} CountNone(f: Filter, w: int, log: seq<Outcome>)
    requires w > 0 && forall k | 0 <= k < |log| :: !Selects(f, w, log[k])
    ensures Count(f, w, log) == 0
  {
    if log != [] {
      CountNone(f, w, log[..|log| - 1]);
    }
  }

  // Admitting one more residue adds what its cell contributes.
  lemma {:induction false} CountNextResidue(c: Cell, n: nat, w: int, log: seq<Outcome>, now: int, ok: bool)
    requires w > 0 && n < w && 0 <= c.unixSec <= now && (c.unixSec % w == n || c.unixSec == 0)
    requires forall k | 0 <= k < |log| :: 0 <= log[k].sec
    requires forall k | 0 <= k < |log| && log[k].sec % w == n :: log[k].sec <= c.unixSec
    ensures Count(Recent(now, n + 1, ok), w, log)
         == Count(Recent(now, n, ok), w, log)
            + (if InWindow(c.unixSec, now, w) then Count(At(c.unixSec, n, ok), w, log) else 0)
  {
    if log != [] {
      var e := log[|log| - 1];
      CountNextResidue(c, n, w, log[..|log| - 1], now, ok);
      if e.sec % w == n && e.sec < c.unixSec {
        ResidueGap(e.sec, c.unixSec, w);
      }
    }
  }

  lemma {:induction false} RingSumCounts(ring: seq<Cell>, w: int, log: seq<Outcome>, clock: int, now: int, ok: bool,
                                         n: nat)
    requires w > 0 && RingMatches(ring, w, log, clock) && clock <= now && n <= w
    ensures RingSum(ring, now, w, ok, n) == Count(Recent(now, n, ok), w, log)
  {
    if n == 0 {
      CountNone(Recent(now, 0, ok), w, log);
    } else {
      RingSumCounts(ring, w, log, clock, now, ok, n - 1);
      assert CellMatches(ring[n - 1], n - 1, w, log);
      CountNextResidue(ring[n - 1], n - 1, w, log, now, ok);
    }
  }

  lemma {:induction false} RecentIsWindow(log: seq<Outcome>, now: int, w: int, ok: bool)
    requires w > 0
    ensures Count(Recent(now, w, ok), w, log) == WindowCount(log, now, w, ok)
  {
    if log != [] {
      RecentIsWindow(log[..|log| - 1], now, w, ok);
    }
  }

  /** The ring forgets nothing that matters: summed at any later second, its live
      cells count exactly the outcomes of the last w seconds in the full log,
      whatever the gaps between them. */
  lemma RingCountsWindow(ring: seq<Cell>, w: int, log: seq<Outcome>, clock: int, now: int, ok: bool)
    requires w > 0 && RingMatches(ring, w, log, clock) && clock <= now
    ensures RingSum(ring, now, w, ok, w) == WindowCount(log, now, w, ok)
  {
    RingSumCounts(ring, w, log, clock, now, ok, w);
    RecentIsWindow(log, now, w, ok);
  }

  function Recorded(c: Cell, sec: int, ok: bool): Cell {
    var base := if c.unixSec != sec then Cell(sec, 0, 0) else c;
    if ok then base.(successes := base.successes + 1) else base.(failures := base.failures + 1)
  }

  lemma RecordMatches(ring: seq<Cell>, w: int, log: seq<Outcome>, clock: int, sec: int, ok: bool)
    requires w > 0 && RingMatches(ring, w, log, clock) && 0 <= clock <= sec
    ensures RingMatches(ring[sec % w := Recorded(ring[sec % w], sec, ok)], w, log + [Outcome(sec, ok)], sec)
  {
    var ring' := ring[sec % w := Recorded(ring[sec % w], sec, ok)];
    var log' := log + [Outcome(sec, ok)];
    assert log'[..|log|] == log;
    forall i | 0 <= i < w ensures 0 <= ring'[i].unixSec <= sec && CellMatches(ring'[i], i, w, log') {
      assert CellMatches(ring[i], i, w, log);
      if i == sec % w {
        if ring[i].unixSec != sec {
          CountNone(At(sec, i, true), w, log);
          CountNone(At(sec, i, false), w, log);
        }
      }
    }
  }

  class CircuitBreaker {
    const cfg: Config
    const windowSeconds: int
    const buckets: array<Cell>
    var state: State
    var curCooldown: int
    var openedAt: int
    var halfOpenAllowed: int
    var halfOpenWins: int
    ghost var log: seq<Outcome>
    ghost var clock: int

    ghost predicate Valid()
      reads this, buckets
    {
      && cfg.Valid() && windowSeconds == cfg.WindowSeconds() && clock >= 0
      && RingMatches(buckets[..], windowSeconds, log, clock / SECOND)
    }

    ghost function Abs(): View
      reads this
    {
      View(state, log, curCooldown, openedAt, halfOpenAllowed, halfOpenWins)
    }

    constructor (cfg: Config)
      requires cfg.Valid()
      ensures Valid() && fresh(buckets) && this.cfg == cfg && clock == 0
      ensures Abs() == View(Closed, [], cfg.cooldown, 0, 0, 0)
    {
      this.cfg := cfg;
      windowSeconds := cfg.WindowSeconds();
      buckets := new Cell[cfg.WindowSeconds()](_ => Cell(0, 0, 0));
      state, curCooldown, openedAt, halfOpenAllowed, halfOpenWins := Closed, cfg.cooldown, 0, 0, 0;
      log, clock := [], 0;
    }

    /** A peek: it says exactly whether Allow would grant the call. */
    method IsReady(now: int) returns (r: bool)
      requires Valid() && clock <= now
      ensures r == Ready(Abs(), now) == Allowed(cfg, Abs(), now).1
    {
      match state
      case Closed => r := true;
      case Open => r := now - openedAt >= curCooldown;
      case HalfOpen => r := halfOpenAllowed > 0;
    }

    method Allow(now: int) returns (granted: bool)
      requires Valid() && clock <= now
      modifies this
      ensures Valid() && clock == now
      ensures (Abs(), granted) == Allowed(cfg, old(Abs()), now)
    {
      clock := now;
      assert clock / SECOND >= old(clock) / SECOND;
      if state == Open && now - openedAt >= curCooldown {
        state, halfOpenAllowed, halfOpenWins := HalfOpen, cfg.halfOpenProbes, 0;
      }
      match state
      case Closed => granted := true;
      case HalfOpen =>
        granted := halfOpenAllowed > 0;
        if granted {
          halfOpenAllowed := halfOpenAllowed - 1;
        }
      case Open => granted := false;
    }

    method RecordSuccess(now: int)
      requires Valid() && clock <= now
      modifies this, buckets
      ensures Valid() && clock == now
      ensures Abs() == Succeeded(cfg, old(Abs()), now)
    {
      match state
      case HalfOpen =>
        halfOpenWins := halfOpenWins + 1;
        if halfOpenWins >= cfg.halfOpenProbes {
          state, curCooldown := Closed, cfg.cooldown;
          ResetWindow();
        }
        Advance(now);
      case Closed => Record(true, now);
      case Open => Advance(now);
    }

    method RecordFailure(recordAt: int, weighAt: int, openAt: int)
      requires Valid() && clock <= recordAt <= weighAt <= openAt
      modifies this, buckets
      ensures Valid() && clock == openAt
      ensures Abs() == Failed(cfg, old(Abs()), recordAt, weighAt, openAt)
    {
      match state
      case HalfOpen =>
        var doubled := Wrap64(curCooldown * 2);
        curCooldown := if doubled < cfg.cooldownMax then doubled else cfg.cooldownMax;
        state, openedAt := Open, openAt;
        Advance(openAt);
      case Closed =>
        Record(false, recordAt);
        var trip := ShouldTrip(weighAt);
        if trip {
          curCooldown, state, openedAt := cfg.cooldown, Open, openAt;
        }
        Advance(openAt);
      case Open => Advance(openAt);
    }

    ghost method Advance(now: int)
      requires Valid() && clock <= now
      modifies `clock
      ensures Valid() && clock == now
    {
      clock := now;
    }

    method Record(success: bool, now: int)
      requires Valid() && clock <= now
      modifies `log, `clock, buckets
      ensures Valid() && clock == now && log == old(log) + [Outcome(now / SECOND, success)]
    {
      var sec := now / SECOND;
      var idx := sec % windowSeconds;
      RecordMatches(buckets[..], windowSeconds, log, clock / SECOND, sec, success);
      if buckets[idx].unixSec != sec {
        buckets[idx] := Cell(sec, 0, 0);
      }
      if success {
        buckets[idx] := buckets[idx].(successes := buckets[idx].successes + 1);
      } else {
        buckets[idx] := buckets[idx].(failures := buckets[idx].failures + 1);
      }
      assert buckets[..] == old(buckets[..])[idx := Recorded(old(buckets[..])[idx], sec, success)];
      log, clock := log + [Outcome(sec, success)], now;
    }

    method ShouldTrip(now: int) returns (trip: bool)
      requires Valid() && clock <= now
      ensures trip == Trips(cfg, log, now / SECOND)
    {
      var sec, total, failures := now / SECOND, 0, 0;
      for i := 0 to buckets.Length
        invariant failures == RingSum(buckets[..], sec, windowSeconds, false, i)
        invariant total == RingSum(buckets[..], sec, windowSeconds, true, i) + failures
      {
        var age := sec - buckets[i].unixSec;
        if age >= 0 && age < windowSeconds {
          total := total + buckets[i].successes + buckets[i].failures;
          failures := failures + buckets[i].failures;
        }
      }
      RingCountsWindow(buckets[..], windowSeconds, log, clock / SECOND, sec, true);
      RingCountsWindow(buckets[..], windowSeconds, log, clock / SECOND, sec, false);
      trip := total >= cfg.minRequests && failures as real / total as real >= cfg.errorRateThreshold;
    }

    method ResetWindow()
      requires cfg.Valid() && windowSeconds == cfg.WindowSeconds() && clock >= 0 && buckets.Length == windowSeconds
      modifies `log, buckets
      ensures Valid() && log == []
    {
      for i := 0 to buckets.Length
        invariant forall j | 0 <= j < i :: buckets[j] == Cell(0, 0, 0)
      {
        buckets[i] := Cell(0, 0, 0);
      }
      log := [];
    }
  }
}
