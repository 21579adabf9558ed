/** What the engine's calls to one candidate amount to at that candidate's breaker:
    one request, a report for every call that is told about, and an end without a
    report for the rest. */
module Reporting {
  import opened Wrappers
  import opened Router
  import opened Attempts
  import opened Engine
  import Breaker
  import BreakerRuns

  // What the breaker heard of one call, and when.
  datatype Told = Told(verdict: Option<bool>, at: int)

  function ToldOf(acts: seq<Act>): seq<Told> {
    if acts == [] then []
    else ToldOf(acts[..|acts| - 1])
         + if acts[|acts| - 1].CallAct? then [Told(acts[|acts| - 1].told, acts[|acts| - 1].end)] else []
  }

  /** Every call of a block but the last is reported as a failure, and the last is
      left unreported exactly on a Terminal failure or one after content was sent. */
  lemma {:induction false} BlockTells(env: Env, c: Candidate, acts: seq<Act>, since: Clock)
    requires acts != [] && Chained(env, c, acts, since)
    ensures
      var told := ToldOf(acts);
      && told != [] && (forall i | 0 <= i < |told| - 1 :: told[i].verdict == Some(false))
      && told[|told| - 1].verdict == Verdict(LastReply(acts))
    ensures GoesOn(acts[|acts| - 1]) ==> forall i | 0 <= i < |ToldOf(acts)| :: ToldOf(acts)[i].verdict == Some(false)
  {
    if |acts| > 1 {
      BlockTells(env, c, acts[..|acts| - 1], since);
    }
  }

  /** The breaker is told of each call when that call ends, in order. */
  lemma ToldInOrder(env: Env, c: Candidate, acts: seq<Act>, since: Clock, n: nat)
    requires Chained(env, c, acts, since) && 2 * n < |acts|
    ensures |ToldOf(acts)| == (|acts| + 1) / 2
    ensures acts[2 * n].CallAct? && ToldOf(acts)[n] == Told(acts[2 * n].told, acts[2 * n].end)
  {
    ChainedAlternates(env, c, acts, since);
    ToldAt(acts, n);
  }

  lemma {:induction false} ToldAt(acts: seq<Act>, n: nat)
    requires Alternates(acts) && 2 * n < |acts|
    ensures |ToldOf(acts)| == (|acts| + 1) / 2
    ensures acts[2 * n].CallAct? && ToldOf(acts)[n] == Told(acts[2 * n].told, acts[2 * n].end)
    decreases |acts|
  {
    if |acts| > 1 {
      ToldAt(acts[..|acts| - 1], if 2 * n < |acts| - 1 then n else 0);
    }
  }

  // The same calls as events of the breaker's traffic, all under one number.
  function AsEvent(t: Told, done: bool, call: nat): BreakerRuns.Event {
    if t.verdict.Some? then BreakerRuns.Report(call, t.verdict.value, done, t.at, t.at, t.at)
    else BreakerRuns.Finish(call)
  }

  function Events(told: seq<Told>, call: nat): (es: seq<BreakerRuns.Event>)
    ensures |es| == |told| && forall i | 0 <= i < |told| :: es[i] == AsEvent(told[i], i == |told| - 1, call)
  {
    seq(|told|, i requires 0 <= i < |told| => AsEvent(told[i], i == |told| - 1, call))
  }

  // The events of a granted block, from its request on.
  function BlockEvents(acts: seq<Act>, call: nat, now: int): seq<BreakerRuns.Event> {
    [BreakerRuns.Request(call, now)] + Events(ToldOf(acts), call)
  }

  lemma BlockConcludes(env: Env, c: Candidate, acts: seq<Act>, since: Clock, call: nat)
    requires acts != [] && Chained(env, c, acts, since)
    ensures
      var es := Events(ToldOf(acts), call);
      && BreakerRuns.Concludes(es)
      && (es[|es| - 1].Finish? <==> Verdict(LastReply(acts)).None?)
      && (es[|es| - 1].Report? ==> es[|es| - 1].ok == LastReply(acts).err.None?)
      && forall i | 0 <= i < |es| - 1 :: es[i].Report? && !es[i].ok && !es[i].done
  {
    BlockTells(env, c, acts, since);
  }

  /** However the events of a granted block are interleaved with those of any other
      calls to its breaker, stale or not: at the end the call is in flight no longer,
      and it can be an abandoned probe only if the block ended on a Terminal failure
      or one after content was sent. */
  lemma BlockIsTraffic(env: Env, c: Candidate, acts: seq<Act>, since: Clock, cfg: Breaker.Config,
                       t: BreakerRuns.Traffic, es: seq<BreakerRuns.Event>, call: nat, now: int)
    requires acts != [] && Chained(env, c, acts, since)
    requires cfg.Valid() && BreakerRuns.Possible(cfg, t, es) && call !in t.flying && call !in t.abandoned
    requires BreakerRuns.Own(es, call) == BlockEvents(acts, call, now)
    ensures
      var end := BreakerRuns.After(cfg, t, es);
      call !in end.flying && (call in end.abandoned ==> Verdict(LastReply(acts)).None?)
  {
    BlockConcludes(env, c, acts, since, call);
    assert BlockEvents(acts, call, now)[1..] == Events(ToldOf(acts), call);
    BreakerRuns.RequestSettles(cfg, t, es, call);
  }

  /** And it is never held up: once granted, whatever other calls do, the block's next
      event is possible until the last has happened. */
  lemma BlockGoesOn(env: Env, c: Candidate, acts: seq<Act>, since: Clock, cfg: Breaker.Config, t: BreakerRuns.Traffic,
                    es: seq<BreakerRuns.Event>, call: nat, k: nat)
    requires acts != [] && Chained(env, c, acts, since) && k < |ToldOf(acts)|
    requires cfg.Valid() && BreakerRuns.Possible(cfg, t, es) && call in t.flying
    requires BreakerRuns.Own(es, call) == Events(ToldOf(acts), call)[..k]
    ensures BreakerRuns.Enabled(BreakerRuns.After(cfg, t, es), Events(ToldOf(acts), call)[k])
  {
    BlockConcludes(env, c, acts, since, call);
    BreakerRuns.StaysInFlight(cfg, t, es, call);
  }
}
