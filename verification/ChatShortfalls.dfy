/** Concrete runs in which the chat handler falls short of what one would expect; the
    exact conditions are in ChatHandler. */
module ChatShortfalls {
  import opened Wrappers
  import opened Router
  import opened Selection
  import opened Attempts
  import opened Engine
  import opened Streaming
  import opened ChatHandler
  import TokenBuckets

  // Every candidate is ready and let through, calls take no time, and each provider
  // gets one attempt.
  ghost predicate Calm(env: Env) {
    && env.maxAttempts == 1 && env.streaming && env.canFlush && env.deadline == None
    && (forall k, c :: env.ready(k, c) && env.allow(k, c))
    && (forall k :: env.draw(k) == 0 && env.took(k) == 0 && !env.cancelled(k))
  }

  // A calm run: the Stream call begun at moment 4 is sent `first`, any other `later`,
  // and the client's connection breaks at moment `broken`.
  function CalmEnv(first: Reply, later: Reply, broken: nat): (env: Env)
    ensures Calm(env) && env.stream(4) == first && (forall k | k != 4 :: env.stream(k) == later)
    ensures forall k :: env.write(k) <==> k != broken
  {
    Env(1, _ => 0, _ => 1, None, true, true, (_, _) => true, (_, _) => true, _ => later,
        k => if k == 4 then first else later, k => k != broken, _ => 0, _ => 0, _ => 0, _ => false)
  }

  function CandidateOf(name: string): Candidate {
    Candidate(name, "m", 1)
  }

  // One provider called once, picked at a moment.
  function CallBlock(tier: nat, name: string, at: nat, reply: Reply): Block {
    Block(tier, at, CandidateOf(name), [CallAct(at + 4, 0, 0, reply, Verdict(reply))], Clock(at + 9, 0))
  }

  lemma SoleIsChosen(env: Env, name: string, at: nat)
    requires Calm(env) && name in {"p", "q"}
    ensures Chosen(env.ready, {"p", "q"}, [CandidateOf(name)], {}, at, env.draw(at + 1), CandidateOf(name))
  {
    var c := CandidateOf(name);
    var cs := EligibleIn(env.ready, {"p", "q"}, [c], {}, at, 1);
    assert EligibleIn(env.ready, {"p", "q"}, [c], {}, at, 0) == [];
    assert cs == [c] && [c][..0] == [];
    assert TotalWeight(cs) == 1;
  }

  lemma SoleIsPicked(env: Env, tier: nat, name: string, at: nat, reply: Reply)
    requires Calm(env) && name in {"p", "q"}
    ensures Picked(env, {"p", "q"}, [CandidateOf(name)], {}, CallBlock(tier, name, at, reply))
  {
    SoleIsChosen(env, name, at);
  }

  lemma CallIsShaped(env: Env, name: string, at: nat, reply: Reply, since: Clock)
    requires Calm(env) && Relayed(env, at + 4, reply) && since.tick <= at && since.now == 0
    ensures Shaped(env, CandidateOf(name), CallBlock(0, name, at, reply).acts, since)
  {
    var acts := CallBlock(0, name, at, reply).acts;
    assert acts[..0] == [];
    assert Follows(env, CandidateOf(name), [], acts[0], since);
    assert Chained(env, CandidateOf(name), acts, since);
  }

  lemma CallBlockFits(env: Env, tiers: seq<Tier>, front: seq<Block>, tier: nat, name: string, at: nat, reply: Reply)
    requires Calm(env) && Relayed(env, at + 4, reply) && name in {"p", "q"}
    requires tier < |tiers| && tiers[tier] == [CandidateOf(name)] && TriedIn(front, tier) == {}
    requires Reached(Clock(0, 0), front).tick <= at && Reached(Clock(0, 0), front).now == 0
    requires front != [] ==> MovedOn(env, front[|front| - 1]) && front[|front| - 1].tier <= tier
    ensures BlockFits(env, {"p", "q"}, tiers, Clock(0, 0), front, CallBlock(tier, name, at, reply))
  {
    SoleIsPicked(env, tier, name, at, reply);
    CallIsShaped(env, name, at, reply, Reached(Clock(0, 0), front));
  }

  lemma BlockCalls(blocks: seq<Block>, tier: nat, name: string, at: nat, reply: Reply)
    ensures
      var b := CallBlock(tier, name, at, reply);
      && Calls(blocks + [b]) == Calls(blocks) + [Call(name, at + 4, reply)]
      && LastReply(b.acts) == reply && LastError(blocks + [b]) == reply.err
  {
    var b := CallBlock(tier, name, at, reply);
    assert b.acts[..0] == [] && (blocks + [b])[..|blocks|] == blocks;
    assert CallsOf(name, b.acts) == [] + [Call(name, at + 4, reply)];
  }

  // ----- One call -----

  const ONE_TIER := [[CandidateOf("p")]]

  function OneCall(reply: Reply): seq<Block> {
    [] + [CallBlock(0, "p", 0, reply)]
  }

  lemma OneCallFits(env: Env, reply: Reply)
    requires Calm(env) && Relayed(env, 4, reply)
    ensures BlockFits(env, {"p", "q"}, ONE_TIER, Clock(0, 0), [], CallBlock(0, "p", 0, reply))
  {
    assert TriedIn([], 0) == {};
    CallBlockFits(env, ONE_TIER, [], 0, "p", 0, reply);
  }

  lemma OneCallWalks(env: Env, reply: Reply)
    requires Calm(env) && Relayed(env, 4, reply)
    ensures Walked(env, {"p", "q"}, ONE_TIER, Clock(0, 0), OneCall(reply))
  {
    OneCallFits(env, reply);
    BlockJoins(env, {"p", "q"}, ONE_TIER, Clock(0, 0), [], CallBlock(0, "p", 0, reply));
  }

  lemma OneCallReplies(reply: Reply)
    ensures Calls(OneCall(reply)) == [Call("p", 4, reply)] && LastReply(OneCall(reply)[0].acts) == reply
    ensures LastError(OneCall(reply)) == reply.err
  {
    BlockCalls([], 0, "p", 0, reply);
    assert Calls([]) == [];
  }

  const A := Delta("a", "", None)
  const B := Delta("b", "", None)
  const CUT_SHORT := Reply(Some(OtherError), [A])

  function CutEnv(): Env {
    CalmEnv(Reply(None, [A, B]), Reply(None, []), 6)
  }

  lemma CutShortRuns()
    ensures Ran(CutEnv(), {"p", "q"}, ONE_TIER, Clock(0, 0), OneCall(CUT_SHORT), [], Failed(Upstream(OtherError), true))
    ensures Calls(OneCall(CUT_SHORT)) == [Call("p", 4, CUT_SHORT)]
  {
    assert [A, B][..1] == [A] && CUT_SHORT.body[0].content != "";
    OneCallWalks(CutEnv(), CUT_SHORT);
    OneCallReplies(CUT_SHORT);
  }

  // The second delta cannot be written: the client holds one token of content and
  // is charged for two.
  lemma RefusedDeltaIsCharged(q: Chat)
    requires q.promptTokens == 10
    ensures
      var env, blocks, res := CutEnv(), OneCall(CUT_SHORT), Failed(Upstream(OtherError), true);
      && Ran(env, {"p", "q"}, ONE_TIER, Clock(0, 0), blocks, [], res)
      && Charge(env, OneEach, q, Some(res), blocks) == 12
      && ChatHandler.Served(env, OneEach, q, Some(res), blocks) == 11
  {
    CutShortRuns();
    TwoTokensSeen(CutEnv(), A, B, CUT_SHORT);
  }

  function OneEach(text: string): nat {
    1
  }

  lemma TwoTokensSeen(env: Env, a: Delta, b: Delta, reply: Reply)
    requires env.stream(4).body == [a, b] && reply.body == [a] && a.content != "" && b.content != ""
    ensures Counted(OneEach, SeenOf(env, [Call("p", 4, reply)])) == 2 && TokensIn(OneEach, reply.body) == 1
  {
    var calls := [Call("p", 4, reply)];
    assert calls[..0] == [] && [a, b][..2] == [a, b];
    assert SeenOf(env, calls) == [] + [a, b] == [a, b];
    assert [] + [a] == [a] && [a] + [b] == [a, b];
    CollectedOneMore(OneEach, [], a);
    CollectedOneMore(OneEach, [a], b);
    CountsEachDelta(OneEach, [a]);
  }

  // A provider that sends an empty delta and then an error event: the JSON error
  // comes after event-stream headers.
  lemma ErrorAfterHeaders(q: Chat)
    requires q.closes
    ensures
      var reply := Reply(Some(ApiError(502, 0)), [Delta("", "", None)]);
      var env, blocks, res := CalmEnv(reply, reply, 0), OneCall(reply), Failed(Upstream(ApiError(502, 0)), false);
      && Ran(env, {"p", "q"}, ONE_TIER, Clock(0, 0), blocks, [Exit(9, {"p"})], res)
      && Response(env, q, Some(res), blocks) == [Headers("p"), Chunk("", ""), JsonError]
  {
    var empty := Delta("", "", None);
    var reply := Reply(Some(ApiError(502, 0)), [empty]);
    var env := CalmEnv(reply, reply, 0);
    OneCallFails(env, reply);
    OneCallReplies(reply);
    EmptyDeltaWire(env, empty, reply);
    assert ClosedBy([Headers("p"), Chunk("", "")], JsonError, true) == [Headers("p"), Chunk("", ""), JsonError];
  }

  lemma OneCallFails(env: Env, reply: Reply)
    requires Calm(env) && Relayed(env, 4, reply) && Harmless(reply)
    ensures Ran(env, {"p", "q"}, ONE_TIER, Clock(0, 0), OneCall(reply), [Exit(9, {"p"})],
                Failed(Upstream(reply.err.value), false))
  {
    OneCallWalks(env, reply);
    OneCallReplies(reply);
    OneCallLeaves(env, reply);
  }

  lemma OneCallLeaves(env: Env, reply: Reply)
    requires Calm(env)
    ensures Left(env, {"p", "q"}, ONE_TIER, Clock(0, 0), OneCall(reply), [Exit(9, {"p"})])
  {
    assert TriedIn([], 0) == {};
    TriedGrows([], CallBlock(0, "p", 0, reply), 0);
  }

  lemma EmptyDeltaWire(env: Env, empty: Delta, reply: Reply)
    requires env.canFlush && env.stream(4).body == [empty] && reply.body == [empty]
    ensures WireOf(env, [Call("p", 4, reply)]) == [Headers("p"), Chunk(empty.content, empty.finish)]
  {
    var calls := [Call("p", 4, reply)];
    assert calls[..0] == [] && [empty][..0] == [];
    assert Chunks([empty]) == [] + [Chunk(empty.content, empty.finish)];
    assert WireOf(env, calls) == [Headers("p")] + Chunks([empty]);
  }

  // ----- No call -----

  // A chain whose only link is wired, ready and let through by its breaker, but has
  // weight 0: no provider is healthy.
  lemma WeightlessChainIsRefused(first: Reply, later: Reply)
    ensures
      var env, tiers := CalmEnv(first, later, 0), ChainTiers(["p"], map["p" := "m"], map["p" := 0]);
      && tiers == [[Candidate("p", "m", 0)]]
      && Ran(env, {"p"}, tiers, Clock(0, 0), [], [Exit(0, {})], Failed(NoHealthyProvider, false))
  {
    assert ["p"][..0] == [];
    assert TriedIn([], 0) == {};
  }

  // ----- Two calls -----

  const TWO_TIERS := [[CandidateOf("p")], [CandidateOf("q")]]

  function TwoCalls(first: Reply, second: Reply): seq<Block> {
    OneCall(first) + [CallBlock(1, "q", 20, second)]
  }

  lemma TwoCallsRun(first: Reply, second: Reply)
    requires Harmless(first) && second.err.None?
    ensures
      var env, blocks := CalmEnv(first, second, 0), TwoCalls(first, second);
      && Ran(env, {"p", "q"}, TWO_TIERS, Clock(0, 0), blocks, [Exit(10, {"p"})],
             Completed(CandidateOf("q"), second.body))
      && Calls(blocks) == [Call("p", 4, first), Call("q", 24, second)]
  {
    var env, blocks := CalmEnv(first, second, 0), TwoCalls(first, second);
    TwoCallsWalk(env, first, second);
    TwoCallsLeave(env, first, second);
    BlockCalls([], 0, "p", 0, first);
    BlockCalls(OneCall(first), 1, "q", 20, second);
    assert Calls([]) == [];
  }

  lemma TwoCallsWalk(env: Env, first: Reply, second: Reply)
    requires Calm(env) && Relayed(env, 4, first) && Relayed(env, 24, second) && Harmless(first)
    ensures Walked(env, {"p", "q"}, TWO_TIERS, Clock(0, 0), TwoCalls(first, second))
  {
    var one := OneCall(first);
    assert TriedIn([], 0) == {} && TriedIn([], 1) == {};
    CallBlockFits(env, TWO_TIERS, [], 0, "p", 0, first);
    BlockJoins(env, {"p", "q"}, TWO_TIERS, Clock(0, 0), [], one[0]);
    TriedGrows([], one[0], 1);
    BlockCalls([], 0, "p", 0, first);
    CallBlockFits(env, TWO_TIERS, one, 1, "q", 20, second);
    BlockJoins(env, {"p", "q"}, TWO_TIERS, Clock(0, 0), one, CallBlock(1, "q", 20, second));
  }

  lemma TwoCallsLeave(env: Env, first: Reply, second: Reply)
    requires Calm(env)
    ensures Left(env, {"p", "q"}, TWO_TIERS, Clock(0, 0), TwoCalls(first, second), [Exit(10, {"p"})])
  {
    assert TriedIn([], 0) == {};
    TriedGrows([], CallBlock(0, "p", 0, first), 0);
    TriedGrows(OneCall(first), CallBlock(1, "q", 20, second), 0);
  }

  // A provider sends an empty delta that names a finish reason and then fails; the
  // next one answers without naming any.
  const FAILED := Reply(Some(ApiError(502, 0)), [Delta("", "length", None)])
  const ANSWER := Reply(None, [Delta("hi", "", None)])

  function HandedOver(): Env {
    CalmEnv(FAILED, ANSWER, 0)
  }

  const ANSWERED := Completed(CandidateOf("q"), ANSWER.body)

  // The client is told that the provider that failed served it.
  lemma FailedProviderIsNamed(q: Chat)
    ensures
      var blocks := TwoCalls(FAILED, ANSWER);
      var wire := Response(HandedOver(), q, Some(ANSWERED), blocks);
      && Ran(HandedOver(), {"p", "q"}, TWO_TIERS, Clock(0, 0), blocks, [Exit(10, {"p"})], ANSWERED)
      && wire != [] && wire[0] == Headers("p")
  {
    TwoCallsRun(FAILED, ANSWER);
    TwoCallsName(HandedOver(), FAILED, ANSWER, q);
  }

  // The caches keep its finish reason for the other's answer.
  lemma FailedFinishIsStored(q: Chat)
    requires q.storable
    ensures
      var blocks := TwoCalls(FAILED, ANSWER);
      var stored := Stored(HandedOver(), OneEach, q, Some(ANSWERED), blocks);
      && Ran(HandedOver(), {"p", "q"}, TWO_TIERS, Clock(0, 0), blocks, [Exit(10, {"p"})], ANSWERED)
      && stored.Some? && stored.value.finish == "length" && OwnFinish(HandedOver(), ANSWER.body) == "stop"
  {
    TwoCallsRun(FAILED, ANSWER);
    TwoCallsStore(HandedOver(), FAILED, ANSWER, q);
  }

  lemma TwoCallsName(env: Env, first: Reply, second: Reply, q: Chat)
    requires Calm(env) && env.stream(4) == first && first.body != []
    requires Calls(TwoCalls(first, second)) == [Call("p", 4, first), Call("q", 24, second)]
    ensures
      var wire := Response(env, q, Some(Completed(CandidateOf("q"), second.body)), TwoCalls(first, second));
      wire != [] && wire[0] == Headers("p")
  {
    var calls := [Call("p", 4, first), Call("q", 24, second)];
    assert FirstOfferAt(env, calls, 0);
    HeadersName(env, calls, 0);
  }

  lemma TwoCallsStore(env: Env, first: Reply, second: Reply, q: Chat)
    requires Calm(env) && q.storable && env.stream(4) == first && env.stream(24) == second
    requires first.body == [Delta("", "length", None)] && second.body == [Delta("hi", "", None)]
    requires Calls(TwoCalls(first, second)) == [Call("p", 4, first), Call("q", 24, second)]
    ensures
      var stored := Stored(env, OneEach, q, Some(Completed(CandidateOf("q"), second.body)), TwoCalls(first, second));
      stored.Some? && stored.value.finish == "length" && OwnFinish(env, second.body) == "stop"
  {
    assert Seen(env, OneEach, TwoCalls(first, second)).finish == "length" && LastFinish(second.body) == "" by {
      TwoCallsFinish(env, Delta("", "length", None), Delta("hi", "", None), first, second);
    }
  }

  lemma TwoCallsFinish(env: Env, stray: Delta, hi: Delta, first: Reply, second: Reply)
    requires env.stream(4).body == [stray] == first.body && env.stream(24).body == [hi] == second.body
    requires hi.finish == "" && stray.finish != ""
    ensures
      var seen := Collected(OneEach, SeenOf(env, [Call("p", 4, first), Call("q", 24, second)]));
      seen.finish == stray.finish && LastFinish(second.body) == ""
  {
    var calls := [Call("p", 4, first), Call("q", 24, second)];
    assert calls[..1] == [calls[0]] && calls[..1][..0] == [];
    assert SeenOf(env, calls[..1]) == [] + [stray] == [stray];
    assert SeenOf(env, calls) == [stray] + [hi] == [stray, hi];
    assert [stray, hi][..1] == [stray] && [stray][..0] == [] && [hi][..0] == [];
    CollectedContent(OneEach, [stray, hi]);
    assert LastFinish([stray]) == stray.finish;
  }
}
