/** The outer walk: tiers in order, and within a tier one weighted pick after
    another among candidates not tried yet, until a reply settles the request or
    every tier is drained. */
module Engine {
  import opened Wrappers
  import opened Router
  import opened Selection
  import opened Attempts

  // One candidate picked at a moment: what was done with it, nothing if its breaker
  // refused, and when that was over.
  datatype Block = Block(tier: nat, moment: nat, candidate: Candidate, acts: seq<Act>, end: Clock)

  // A tier left behind: when its candidates were last asked, and who had been tried.
  datatype Exit = Exit(moment: nat, tried: set<string>)

  datatype EngineError = NoHealthyProvider | Upstream(err: CallError) | ContextDone

  datatype Result = Completed(candidate: Candidate, body: seq<Delta>) | Failed(err: EngineError, flushed: bool)

  // The request's context is over: cancelled, or past its deadline.
  predicate ContextOver(env: Env, c: Clock) {
    env.cancelled(c.tick) || (env.deadline.Some? && env.deadline.value <= c.now)
  }

  function TriedIn(blocks: seq<Block>, tier: nat): set<string> {
    set b | b in blocks && b.tier == tier :: b.candidate.provider
  }

  // A failure that blames the provider and sent nothing.
  predicate Harmless(r: Reply) {
    r.err.Some? && r.err.value.Class() != Terminal && !Flushed(r)
  }

  // The walk goes past a block whose breaker refused, or whose failure was harmless
  // and left the request's context alive.
  predicate MovedOn(env: Env, b: Block) {
    b.acts == [] || (Harmless(LastReply(b.acts)) && !ContextOver(env, b.end))
  }

  // The weighted pick made at a moment, and the breaker asked right after it.
  ghost predicate Picked(env: Env, wired: set<string>, tier: Tier, tried: set<string>, b: Block) {
    && Chosen(env.ready, wired, tier, tried, b.moment, env.draw(b.moment + |tier|), b.candidate)
    && (b.acts == [] <==> !env.allow(b.moment + |tier| + 1, b.candidate))
  }

  // When the walk has got to by the end of these blocks.
  function Reached(since: Clock, blocks: seq<Block>): Clock {
    if blocks == [] then since else blocks[|blocks| - 1].end
  }

  ghost predicate BlockFits(env: Env, wired: set<string>, tiers: seq<Tier>, since: Clock, front: seq<Block>, b: Block) {
    var from := Reached(since, front);
    && b.tier < |tiers| && b.candidate in tiers[b.tier]
    && b.candidate.provider in wired && b.candidate.weight > 0
    && b.candidate.provider !in TriedIn(front, b.tier)
    && Picked(env, wired, tiers[b.tier], TriedIn(front, b.tier), b)
    && from.tick <= b.moment < b.end.tick && from.now <= b.end.now
    && (b.acts != [] ==> Shaped(env, b.candidate, b.acts, from) && Past(b.acts[|b.acts| - 1], b.end))
    && (front != [] ==> MovedOn(env, front[|front| - 1]) && front[|front| - 1].tier <= b.tier)
  }

  // The grammar of every run: blocks by non-decreasing tier, a provider at most
  // once per tier, and only a block the walk moves on from is followed by another.
  ghost predicate Walked(env: Env, wired: set<string>, tiers: seq<Tier>, since: Clock, blocks: seq<Block>) {
    blocks == [] ||
    (Walked(env, wired, tiers, since, blocks[..|blocks| - 1])
     && BlockFits(env, wired, tiers, since, blocks[..|blocks| - 1], blocks[|blocks| - 1]))
  }

  // Every tier before the current one was left with nobody in it to choose, asked
  // after everything done at that tier and before anything done at a later one.
  ghost predicate Left(env: Env, wired: set<string>, tiers: seq<Tier>, since: Clock, blocks: seq<Block>,
                       exits: seq<Exit>) {
    && |exits| <= |tiers|
    && (blocks != [] ==> blocks[|blocks| - 1].tier <= |exits|)
    && (forall k | 0 <= k < |exits| ::
          && exits[k].tried == TriedIn(blocks, k)
          && Drained(env.ready, wired, tiers[k], exits[k].tried, exits[k].moment)
          && since.tick <= exits[k].moment)
    && (forall k, i | 0 <= k < |exits| && 0 <= i < |blocks| ::
          if blocks[i].tier <= k then blocks[i].end.tick <= exits[k].moment
          else exits[k].moment + |tiers[k]| <= blocks[i].moment)
    && (forall k, m | 0 <= k < m < |exits| :: exits[k].moment + |tiers[k]| <= exits[m].moment)
  }

  // The error of the last candidate actually called, if any was.
  ghost function LastError(blocks: seq<Block>): Option<CallError> {
    if blocks == [] then None
    else if blocks[|blocks| - 1].acts == [] then LastError(blocks[..|blocks| - 1])
    else LastReply(blocks[|blocks| - 1].acts).err
  }

  // How the result follows from the run and the number of tiers left behind.
  ghost predicate Explains(env: Env, tiers: seq<Tier>, blocks: seq<Block>, left: nat, res: Result) {
    match res
    case Completed(c, body) =>
      && blocks != []
      && var b := blocks[|blocks| - 1];
         b.candidate == c && b.acts != [] && LastReply(b.acts) == Reply(None, body)
    case Failed(NoHealthyProvider, flushed) =>
      !flushed && left == |tiers| && LastError(blocks) == None && (blocks != [] ==> blocks[|blocks| - 1].acts == [])
    case Failed(ContextDone, flushed) =>
      && !flushed && blocks != []
      && var b := blocks[|blocks| - 1];
         b.acts != [] && Harmless(LastReply(b.acts)) && ContextOver(env, b.end)
    case Failed(Upstream(e), flushed) =>
      && LastError(blocks) == Some(e) && blocks != []
      && var b := blocks[|blocks| - 1];
         if MovedOn(env, b) then !flushed && left == |tiers|
         else b.acts != [] && flushed == Flushed(LastReply(b.acts)) && (flushed || e.Class() == Terminal)
  }

  lemma TriedGrows(blocks: seq<Block>, b: Block, k: nat)
    ensures TriedIn(blocks + [b], k) == TriedIn(blocks, k) + if b.tier == k then {b.candidate.provider} else {}
  {
    assert forall x :: x in blocks + [b] <==> x in blocks || x == b;
    assert b in blocks + [b];
  }

  lemma {:induction false} NoneBeyond(env: Env, since: Clock, blocks: seq<Block>, k: nat)
    requires Ordered(env, since, blocks) && (blocks != [] ==> blocks[|blocks| - 1].tier <= k)
    ensures forall i | 0 <= i < |blocks| :: blocks[i].tier <= k
  {
    if blocks != [] {
      NoneBeyond(env, since, blocks[..|blocks| - 1], k);
    }
  }

  // Between two picks: everything so far was moved on from.
  ghost predicate Walking(env: Env, wired: set<string>, tiers: seq<Tier>, since: Clock, blocks: seq<Block>,
                          left: nat, lastErr: EngineError, clk: Clock) {
    && Walked(env, wired, tiers, since, blocks) && NotBefore(clk, Reached(since, blocks))
    && (blocks != [] ==> MovedOn(env, blocks[|blocks| - 1]) && blocks[|blocks| - 1].tier <= left)
    && lastErr == (if LastError(blocks).None? then NoHealthyProvider else Upstream(LastError(blocks).value))
  }

  // The tiers left so far, all of it behind the clock.
  ghost predicate Leaving(env: Env, wired: set<string>, tiers: seq<Tier>, since: Clock, blocks: seq<Block>,
                          exits: seq<Exit>, clk: Clock) {
    && Left(env, wired, tiers, since, blocks, exits) && since.tick <= clk.tick
    && (forall i | 0 <= i < |blocks| :: blocks[i].end.tick <= clk.tick)
    && (forall k | 0 <= k < |exits| :: exits[k].moment + |tiers[k]| <= clk.tick)
  }

  // The current tier turned out drained, and asking took a moment per candidate.
  lemma TierLeft(env: Env, wired: set<string>, tiers: seq<Tier>, since: Clock, blocks: seq<Block>, exits: seq<Exit>,
                 clk: Clock, exit: Exit)
    requires Leaving(env, wired, tiers, since, blocks, exits, clk) && |exits| < |tiers|
    requires forall i | 0 <= i < |blocks| :: blocks[i].tier <= |exits|
    requires exit.moment == clk.tick && exit.tried == TriedIn(blocks, |exits|)
    requires Drained(env.ready, wired, tiers[|exits|], exit.tried, exit.moment)
    ensures Leaving(env, wired, tiers, since, blocks, exits + [exit], Clock(clk.tick + |tiers[|exits|]|, clk.now))
  {
  }

  // One more block at the current tier.
  lemma TierGoesOn(env: Env, wired: set<string>, tiers: seq<Tier>, since: Clock, blocks: seq<Block>,
                   exits: seq<Exit>, clk: Clock, b: Block)
    requires Leaving(env, wired, tiers, since, blocks, exits, clk)
    requires b.tier == |exits| && clk.tick == b.moment < b.end.tick
    ensures Leaving(env, wired, tiers, since, blocks + [b], exits, b.end)
  {
    forall k | 0 <= k < |exits| ensures TriedIn(blocks + [b], k) == TriedIn(blocks, k) {
      TriedGrows(blocks, b, k);
    }
  }

  // How a block ended.
  predicate Ended(b: Block, out: Tried) {
    if out == Rejected then b.acts == [] else b.acts != [] && out == Concluded(LastReply(b.acts))
  }

  // Everything done before a pick at this tier.
  ghost predicate Reaches(env: Env, since: Clock, blocks: seq<Block>, tier: nat, clk: Clock) {
    && NotBefore(clk, Reached(since, blocks))
    && (blocks != [] ==> MovedOn(env, blocks[|blocks| - 1]) && blocks[|blocks| - 1].tier <= tier)
  }

  // A candidate that can be picked at a moment, by the draw made then.
  ghost predicate Pickable(env: Env, wired: set<string>, tier: Tier, tried: set<string>, moment: nat, c: Candidate) {
    && c in tier && c.provider in wired && c.weight > 0 && c.provider !in tried
    && Chosen(env.ready, wired, tier, tried, moment, env.draw(moment + |tier|), c)
  }

  // The picked candidate has been tried, with outcome `out`: the block fits the run.
  lemma TriedFits(env: Env, wired: set<string>, tiers: seq<Tier>, since: Clock, blocks: seq<Block>, clk: Clock,
                  started: Clock, b: Block, out: Tried)
    requires b.tier < |tiers| && Reaches(env, since, blocks, b.tier, clk)
    requires b.moment == clk.tick && started == Clock(clk.tick + |tiers[b.tier]| + 1, clk.now)
    requires Pickable(env, wired, tiers[b.tier], TriedIn(blocks, b.tier), b.moment, b.candidate)
    requires b.end.tick > started.tick && b.end.now >= started.now
    requires out == Rejected <==> !env.allow(started.tick, b.candidate)
    requires out == Rejected ==> b.acts == []
    requires out != Rejected ==> Finished(env, b.candidate, b.acts, started, b.end, out)
    ensures BlockFits(env, wired, tiers, since, blocks, b) && Ended(b, out)
  {
    if out != Rejected {
      ShapedSince(env, b.candidate, b.acts, Reached(since, blocks), started);
    }
    assert Picked(env, wired, tiers[b.tier], TriedIn(blocks, b.tier), b);
  }

  lemma ShapedSince(env: Env, c: Candidate, acts: seq<Act>, since: Clock, later: Clock)
    requires NotBefore(later, since) && Shaped(env, c, acts, later)
    ensures Shaped(env, c, acts, since)
  {
    ChainedSince(env, c, acts, since, later);
  }

  lemma BlockJoins(env: Env, wired: set<string>, tiers: seq<Tier>, since: Clock, blocks: seq<Block>, b: Block)
    requires Walked(env, wired, tiers, since, blocks) && BlockFits(env, wired, tiers, since, blocks, b)
    ensures Walked(env, wired, tiers, since, blocks + [b])
    ensures LastError(blocks + [b]) == if b.acts == [] then LastError(blocks) else LastReply(b.acts).err
  {
    assert (blocks + [b])[..|blocks|] == blocks;
  }

  // A run that one more candidate has settled, or that goes on.
  ghost predicate Onward(env: Env, wired: set<string>, tiers: seq<Tier>, since: Clock, blocks: seq<Block>, tier: nat,
                         stop: Option<Result>, err: EngineError, clk: Clock) {
    && Walked(env, wired, tiers, since, blocks)
    && match stop
       case Some(res) => Explains(env, tiers, blocks, tier, res)
       case None => Walking(env, wired, tiers, since, blocks, tier, err, clk)
  }

  // The run so far stays in the grammar, and either the outcome settles the request
  // or the walk goes on.
  lemma CandidateJoins(env: Env, wired: set<string>, tiers: seq<Tier>, since: Clock, blocks: seq<Block>,
                       lastErr: EngineError, clk: Clock, b: Block, out: Tried)
    requires Walking(env, wired, tiers, since, blocks, b.tier, lastErr, clk)
    requires BlockFits(env, wired, tiers, since, blocks, b) && Ended(b, out)
    ensures Onward(env, wired, tiers, since, blocks + [b], b.tier, Answer(env, b, out), Remembered(lastErr, out), b.end)
  {
    BlockJoins(env, wired, tiers, since, blocks, b);
    BlockAnswers(env, wired, tiers, since, blocks + [b], b, out, LastError(blocks));
  }

  lemma BlockAnswers(env: Env, wired: set<string>, tiers: seq<Tier>, since: Clock, blocks: seq<Block>, b: Block,
                     out: Tried, before: Option<CallError>)
    requires blocks != [] && blocks[|blocks| - 1] == b && Walked(env, wired, tiers, since, blocks)
    requires Ended(b, out)
    requires LastError(blocks) == if b.acts == [] then before else LastReply(b.acts).err
    ensures Onward(env, wired, tiers, since, blocks, b.tier, Answer(env, b, out),
                   Remembered(if before.None? then NoHealthyProvider else Upstream(before.value), out), b.end)
  {
    if Answer(env, b, out).Some? {
      AnswerExplains(env, tiers, blocks, b, out);
    }
  }

  lemma AnswerExplains(env: Env, tiers: seq<Tier>, blocks: seq<Block>, b: Block, out: Tried)
    requires blocks != [] && blocks[|blocks| - 1] == b && Answer(env, b, out).Some?
    requires b.acts != [] && out == Concluded(LastReply(b.acts)) && LastError(blocks) == LastReply(b.acts).err
    ensures Explains(env, tiers, blocks, b.tier, Answer(env, b, out).value)
  {
  }

  // The answer a tried candidate settles the request with, if it does, and the
  // error to remember if not.
  function Answer(env: Env, b: Block, out: Tried): Option<Result> {
    match out
    case Rejected => None
    case Served(body) => Some(Completed(b.candidate, body))
    case GaveUp(e) =>
      if Flushed(LastReply(b.acts)) then Some(Failed(Upstream(e), true))
      else if e.Class() == Terminal then Some(Failed(Upstream(e), false))
      else if ContextOver(env, b.end) then Some(Failed(ContextDone, false))
      else None
  }

  function Remembered(lastErr: EngineError, out: Tried): EngineError {
    if out.GaveUp? then Upstream(out.err) else lastErr
  }

  // With every tier left, the last error is the answer.
  lemma WalkEnds(env: Env, wired: set<string>, tiers: seq<Tier>, since: Clock, blocks: seq<Block>,
                 lastErr: EngineError, clk: Clock)
    requires Walking(env, wired, tiers, since, blocks, |tiers|, lastErr, clk)
    ensures Explains(env, tiers, blocks, |tiers|, Failed(lastErr, false))
  {
  }

  function Providers(tier: Tier): set<string> {
    set c | c in tier :: c.provider
  }

  // One tier: candidates are picked and tried until one settles the request or
  // nobody is left to choose.
  method WalkTier(env: Env, wired: set<string>, tiers: seq<Tier>, walked: seq<Block>, ghost exits: seq<Exit>,
                  lastErr: EngineError, ghost since: Clock, k: nat, clock: Clock)
    returns (stop: Option<Result>, blocks: seq<Block>, err: EngineError, clk: Clock, tried: set<string>)
    requires env.maxAttempts >= 1 && !env.streaming && k == |exits| < |tiers| && NonNegative(tiers[k])
    requires TriedIn(walked, k) == {}
    requires Walking(env, wired, tiers, since, walked, k, lastErr, clock)
    requires Leaving(env, wired, tiers, since, walked, exits, clock)
    ensures Leaving(env, wired, tiers, since, blocks, exits, clk)
    ensures Onward(env, wired, tiers, since, blocks, k, stop, err, clk)
    ensures stop.None? ==> tried == TriedIn(blocks, k) && Drained(env.ready, wired, tiers[k], tried, clk.tick)
    ensures stop.Some? && stop.value.Failed? ==> !stop.value.flushed
  {
    blocks, err, clk, tried := walked, lastErr, clock, {};
    while true
      invariant tried == TriedIn(blocks, k) && Leaving(env, wired, tiers, since, blocks, exits, clk)
      invariant Walking(env, wired, tiers, since, blocks, k, err, clk)
      decreases Providers(tiers[k]) - tried
    {
      var pick := PickFromTier(env.ready, wired, tiers[k], tried, clk.tick, env.draw(clk.tick + |tiers[k]|));
      if pick.None? {
        return None, blocks, err, clk, tried;
      }
      var c := pick.value;
      assert c.provider in Providers(tiers[k]);
      var b;
      stop, b, err := Visit(env, wired, tiers, blocks, err, since, k, c, clk);
      TierGoesOn(env, wired, tiers, since, blocks, exits, clk, b);
      TriedGrows(blocks, b, k);
      blocks, tried, clk := blocks + [b], tried + {c.provider}, b.end;
      if stop.Some? {
        return;
      }
    }
  }

  /** The failover walk for a plain completion. It ends under arbitrary breaker
      interference; its calls always fit the grammar; a later tier is reached only
      when every earlier one, asked after all that was done there, had nobody left to
      choose; and the answer is "no healthy provider" exactly when no call was made. */
  method Execute(env: Env, wired: set<string>, tiers: seq<Tier>, clock: Clock)
    returns (res: Result, blocks: seq<Block>, exits: seq<Exit>)
    requires env.maxAttempts >= 1 && !env.streaming && forall k | 0 <= k < |tiers| :: NonNegative(tiers[k])
    ensures Walked(env, wired, tiers, clock, blocks) && Left(env, wired, tiers, clock, blocks, exits)
    ensures Explains(env, tiers, blocks, |exits|, res)
    ensures res.Failed? ==> !res.flushed
  {
    blocks, exits := [], [];
    var lastErr, clk := NoHealthyProvider, clock;
    for k := 0 to |tiers|
      invariant |exits| == k && TriedIn(blocks, k) == {} && Leaving(env, wired, tiers, clock, blocks, exits, clk)
      invariant Walking(env, wired, tiers, clock, blocks, k, lastErr, clk)
    {
      var stop, tried;
      stop, blocks, lastErr, clk, tried := WalkTier(env, wired, tiers, blocks, exits, lastErr, clock, k, clk);
      if stop.Some? {
        return stop.value, blocks, exits;
      }
      ExitTier(env, wired, tiers, clock, blocks, exits, lastErr, clk);
      exits, clk := exits + [Exit(clk.tick, tried)], Clock(clk.tick + |tiers[k]|, clk.now);
    }
    WalkEnds(env, wired, tiers, clock, blocks, lastErr, clk);
    res := Failed(lastErr, false);
  }

  // A drained tier is left behind.
  lemma ExitTier(env: Env, wired: set<string>, tiers: seq<Tier>, since: Clock, blocks: seq<Block>, exits: seq<Exit>,
                 lastErr: EngineError, clk: Clock)
    requires |exits| < |tiers| && Walking(env, wired, tiers, since, blocks, |exits|, lastErr, clk)
    requires Leaving(env, wired, tiers, since, blocks, exits, clk)
    requires Drained(env.ready, wired, tiers[|exits|], TriedIn(blocks, |exits|), clk.tick)
    ensures
      var k, later := |exits|, Clock(clk.tick + |tiers[|exits|]|, clk.now);
      && Leaving(env, wired, tiers, since, blocks, exits + [Exit(clk.tick, TriedIn(blocks, k))], later)
      && Walking(env, wired, tiers, since, blocks, k + 1, lastErr, later) && TriedIn(blocks, k + 1) == {}
  {
    WalkedIsOrdered(env, wired, tiers, since, blocks);
    NoneBeyond(env, since, blocks, |exits|);
    TierLeft(env, wired, tiers, since, blocks, exits, clk, Exit(clk.tick, TriedIn(blocks, |exits|)));
  }

  /** A tier is never left over the head of a candidate that stays ready: if it is
      wired, has weight and is ready at every moment of the run, it was tried there
      before the tier was left. */
  lemma ReadyIsTried(env: Env, wired: set<string>, tiers: seq<Tier>, since: Clock, blocks: seq<Block>,
                     exits: seq<Exit>, k: nat, c: Candidate)
    requires Left(env, wired, tiers, since, blocks, exits) && k < |exits|
    requires c in tiers[k] && c.provider in wired && c.weight != 0 && forall m: nat | m >= since.tick :: env.ready(m, c)
    ensures exists i :: 0 <= i < |blocks| && blocks[i].tier == k && blocks[i].candidate.provider == c.provider
                        && blocks[i].end.tick <= exits[k].moment
  {
    var j :| 0 <= j < |tiers[k]| && tiers[k][j] == c;
    assert env.ready(exits[k].moment + j, c);
    assert !Eligible(env.ready, wired, tiers[k][j], exits[k].tried, exits[k].moment + j);
    assert c.provider in TriedIn(blocks, k);
    var b :| b in blocks && b.tier == k && b.candidate.provider == c.provider;
    var i :| 0 <= i < |blocks| && blocks[i] == b;
  }

  // The chosen candidate is tried: the request is settled, or the walk goes on.
  method Visit(env: Env, wired: set<string>, tiers: seq<Tier>, ghost blocks: seq<Block>,
               lastErr: EngineError, ghost since: Clock, tier: nat, c: Candidate, clock: Clock)
    returns (stop: Option<Result>, b: Block, err: EngineError)
    requires env.maxAttempts >= 1 && !env.streaming && tier < |tiers|
    requires Walking(env, wired, tiers, since, blocks, tier, lastErr, clock)
    requires Pickable(env, wired, tiers[tier], TriedIn(blocks, tier), clock.tick, c)
    ensures b.tier == tier && b.candidate == c && b.moment == clock.tick < b.end.tick
    ensures Onward(env, wired, tiers, since, blocks + [b], tier, stop, err, b.end)
    ensures stop.Some? && stop.value.Failed? ==> !stop.value.flushed
  {
    var out;
    out, b := TryPicked(env, wired, tiers, blocks, since, tier, c, clock);
    CandidateJoins(env, wired, tiers, since, blocks, lastErr, clock, b, out);
    stop, err := Answer(env, b, out), Remembered(lastErr, out);
  }

  // The candidate just picked is tried.
  method TryPicked(env: Env, ghost wired: set<string>, tiers: seq<Tier>, ghost blocks: seq<Block>,
                   ghost since: Clock, tier: nat, c: Candidate, clock: Clock)
    returns (out: Tried, b: Block)
    requires env.maxAttempts >= 1 && !env.streaming && tier < |tiers| && Reaches(env, since, blocks, tier, clock)
    requires Pickable(env, wired, tiers[tier], TriedIn(blocks, tier), clock.tick, c)
    ensures b.tier == tier && b.moment == clock.tick < b.end.tick && b.candidate == c
    ensures BlockFits(env, wired, tiers, since, blocks, b) && Ended(b, out)
    ensures out.GaveUp? ==> !Flushed(LastReply(b.acts))
  {
    var started := Clock(clock.tick + |tiers[tier]| + 1, clock.now);
    var acts, clk;
    out, acts, clk := TryCandidate(env, c, started);
    b := Block(tier, clock.tick, c, acts, clk);
    TriedFits(env, wired, tiers, since, blocks, clock, started, b, out);
  }

  lemma {:induction false} ChainedSince(env: Env, c: Candidate, acts: seq<Act>, since: Clock, later: Clock)
    requires NotBefore(later, since) && Chained(env, c, acts, later)
    ensures Chained(env, c, acts, since)
  {
    if acts != [] {
      ChainedSince(env, c, acts[..|acts| - 1], since, later);
    }
  }

  // ----- What the grammar means for whole runs -----

  // Every provider reply of a run, in order.
  function RepliesOf(acts: seq<Act>): seq<Reply> {
    if acts == [] then []
    else RepliesOf(acts[..|acts| - 1]) + if acts[|acts| - 1].CallAct? then [acts[|acts| - 1].reply] else []
  }

  function Replies(blocks: seq<Block>): seq<Reply> {
    if blocks == [] then [] else Replies(blocks[..|blocks| - 1]) + RepliesOf(blocks[|blocks| - 1].acts)
  }

  predicate AllHarmless(rs: seq<Reply>) {
    forall i | 0 <= i < |rs| :: Harmless(rs[i])
  }

  predicate OnlyLastCounts(rs: seq<Reply>) {
    forall i | 0 <= i < |rs| - 1 :: Harmless(rs[i])
  }

  lemma {:induction false} BlockReplies(env: Env, c: Candidate, acts: seq<Act>, since: Clock)
    requires Chained(env, c, acts, since)
    ensures OnlyLastCounts(RepliesOf(acts))
    ensures acts != [] ==> RepliesOf(acts) != [] && RepliesOf(acts)[|RepliesOf(acts)| - 1] == LastReply(acts)
    ensures acts != [] && GoesOn(acts[|acts| - 1]) ==> AllHarmless(RepliesOf(acts))
  {
    if acts != [] {
      BlockReplies(env, c, acts[..|acts| - 1], since);
    }
  }

  // What the grammar says about the acts alone.
  ghost predicate Ordered(env: Env, since: Clock, blocks: seq<Block>) {
    blocks == [] ||
    var front, b := blocks[..|blocks| - 1], blocks[|blocks| - 1];
    && Ordered(env, since, front) && NotBefore(b.end, Reached(since, front))
    && Chained(env, b.candidate, b.acts, Reached(since, front))
    && (front != [] ==> MovedOn(env, front[|front| - 1]) && front[|front| - 1].tier <= b.tier)
  }

  lemma {:induction false} WalkedIsOrdered(env: Env, wired: set<string>, tiers: seq<Tier>, since: Clock,
                                           blocks: seq<Block>)
    requires Walked(env, wired, tiers, since, blocks)
    ensures Ordered(env, since, blocks)
  {
    if blocks != [] {
      WalkedIsOrdered(env, wired, tiers, since, blocks[..|blocks| - 1]);
    }
  }

  lemma RepliesJoin(before: seq<Reply>, more: seq<Reply>)
    requires AllHarmless(before) && OnlyLastCounts(more)
    ensures OnlyLastCounts(before + more)
    ensures more == [] || Harmless(more[|more| - 1]) ==> AllHarmless(before + more)
    ensures more != [] ==> (before + more)[|before + more| - 1] == more[|more| - 1]
  {
    LastHarmless(more);
  }

  lemma {:induction false} WalkReplies(env: Env, since: Clock, blocks: seq<Block>)
    requires Ordered(env, since, blocks)
    ensures OnlyLastCounts(Replies(blocks))
    ensures blocks != [] && MovedOn(env, blocks[|blocks| - 1]) ==> AllHarmless(Replies(blocks))
    ensures blocks != [] && blocks[|blocks| - 1].acts != [] ==>
              Replies(blocks) != [] && Replies(blocks)[|Replies(blocks)| - 1] == LastReply(blocks[|blocks| - 1].acts)
  {
    if blocks != [] {
      var front, b := blocks[..|blocks| - 1], blocks[|blocks| - 1];
      WalkReplies(env, since, front);
      assert AllHarmless(Replies(front));
      BlockReplies(env, b.candidate, b.acts, Reached(since, front));
      RepliesJoin(Replies(front), RepliesOf(b.acts));
    }
  }

  lemma LastHarmless(rs: seq<Reply>)
    requires OnlyLastCounts(rs)
    ensures rs == [] || Harmless(rs[|rs| - 1]) ==> AllHarmless(rs)
  {
  }

  /** No splicing: in every run, whatever providers and breakers do, all but the
      last reply are failures that blame the provider and sent nothing, so content
      comes from one call only and no call starts after it; and an error says
      "flushed" exactly when some call sent content. */
  lemma NoSplicing(env: Env, wired: set<string>, tiers: seq<Tier>, since: Clock, blocks: seq<Block>, left: nat,
                   res: Result)
    requires Walked(env, wired, tiers, since, blocks) && Explains(env, tiers, blocks, left, res)
    ensures OnlyLastCounts(Replies(blocks))
    ensures res.Completed? ==> Replies(blocks) != [] && Replies(blocks)[|Replies(blocks)| - 1] == Reply(None, res.body)
    ensures res.Failed? ==> (res.flushed <==> exists i :: 0 <= i < |Replies(blocks)| && Flushed(Replies(blocks)[i]))
  {
    WalkedIsOrdered(env, wired, tiers, since, blocks);
    OneReplyCounts(env, tiers, since, blocks, left, res);
  }

  lemma OneReplyCounts(env: Env, tiers: seq<Tier>, since: Clock, blocks: seq<Block>, left: nat, res: Result)
    requires Ordered(env, since, blocks) && Explains(env, tiers, blocks, left, res)
    ensures OnlyLastCounts(Replies(blocks))
    ensures res.Completed? ==> Replies(blocks) != [] && Replies(blocks)[|Replies(blocks)| - 1] == Reply(None, res.body)
    ensures res.Failed? ==> (res.flushed <==> exists i :: 0 <= i < |Replies(blocks)| && Flushed(Replies(blocks)[i]))
  {
    WalkReplies(env, since, blocks);
  }

  /** "No healthy provider" is the answer exactly when the attempt trace is empty. */
  lemma NoHealthyProviderMeansNoCall(env: Env, wired: set<string>, tiers: seq<Tier>, since: Clock,
                                     blocks: seq<Block>, left: nat, res: Result)
    requires Walked(env, wired, tiers, since, blocks) && Explains(env, tiers, blocks, left, res)
    ensures res == Failed(NoHealthyProvider, false) <==> Replies(blocks) == []
  {
    WalkedIsOrdered(env, wired, tiers, since, blocks);
    NoCallExplained(env, tiers, since, blocks, left, res);
  }

  lemma NoCallExplained(env: Env, tiers: seq<Tier>, since: Clock, blocks: seq<Block>, left: nat, res: Result)
    requires Ordered(env, since, blocks) && Explains(env, tiers, blocks, left, res)
    ensures res == Failed(NoHealthyProvider, false) <==> Replies(blocks) == []
  {
    WalkReplies(env, since, blocks);
    if LastError(blocks) == None && res.Failed? {
      NoErrorNoReply(env, since, blocks);
    } else if res.Failed? {
      ErrorHasReply(env, since, blocks);
    }
  }

  lemma {:induction false} NoErrorNoReply(env: Env, since: Clock, blocks: seq<Block>)
    requires Ordered(env, since, blocks) && LastError(blocks) == None
    requires blocks != [] ==> MovedOn(env, blocks[|blocks| - 1])
    ensures Replies(blocks) == []
  {
    if blocks != [] {
      NoErrorNoReply(env, since, blocks[..|blocks| - 1]);
    }
  }

  lemma {:induction false} ErrorHasReply(env: Env, since: Clock, blocks: seq<Block>)
    requires Ordered(env, since, blocks) && LastError(blocks).Some?
    ensures Replies(blocks) != []
  {
    var front, b := blocks[..|blocks| - 1], blocks[|blocks| - 1];
    if b.acts == [] {
      ErrorHasReply(env, since, front);
    } else {
      BlockReplies(env, b.candidate, b.acts, Reached(since, front));
    }
  }

  // Nothing begun before the deadline outlives it, and nothing begun after it takes any time.
  predicate InBudget(deadline: Option<int>, a: Act) {
    a.start <= a.end && (deadline.Some? ==> a.end <= Greater(a.start, deadline.value))
  }

  // A call ends by its timeout, which never reaches past the deadline, and a sleep
  // begins only if it fits.
  lemma GenuineInBudget(env: Env, c: Candidate, a: Act)
    requires Genuine(env, c, a)
    ensures InBudget(env.deadline, a)
  {
    if a.CallAct? {
      TimeoutFits(env.deadline, a.start, env.timeout(c.provider));
    }
  }

  lemma TimeoutFits(deadline: Option<int>, now: int, configured: int)
    ensures
      var timeout := AttemptTimeout(deadline, now, configured);
      0 <= timeout <= Greater(0, configured) && (deadline.Some? ==> now + timeout <= Greater(now, deadline.value))
  {
  }

  lemma {:induction false} ActsInBudget(env: Env, c: Candidate, acts: seq<Act>, since: Clock)
    requires Chained(env, c, acts, since)
    ensures forall i | 0 <= i < |acts| :: InBudget(env.deadline, acts[i]) && Before(since, acts[i])
    ensures forall i | 0 <= i < |acts| && acts[i].CallAct? :: acts[i].told == Verdict(acts[i].reply)
  {
    if acts != [] {
      ActsInBudget(env, c, acts[..|acts| - 1], since);
      GenuineInBudget(env, c, acts[|acts| - 1]);
    }
  }

  /** Deadline safety over whole runs: no call and no sleep begun before the
      deadline ends after it, and one begun later takes no time, whatever the
      Retry-After values and the number of tiers; and the breaker hears of every
      call except Terminal failures and failures after content was sent. */
  lemma RunKeepsDeadline(env: Env, wired: set<string>, tiers: seq<Tier>, since: Clock, blocks: seq<Block>)
    requires Walked(env, wired, tiers, since, blocks)
    ensures forall b, a | b in blocks && a in b.acts ::
              && Before(since, a) && InBudget(env.deadline, a)
              && (a.CallAct? ==> a.told == Verdict(a.reply))
  {
    WalkedIsOrdered(env, wired, tiers, since, blocks);
    OrderedInBudget(env, since, blocks);
  }

  lemma {:induction false} OrderedInBudget(env: Env, since: Clock, blocks: seq<Block>)
    requires Ordered(env, since, blocks)
    ensures NotBefore(Reached(since, blocks), since)
    ensures forall b, a | b in blocks && a in b.acts ::
              && Before(since, a) && InBudget(env.deadline, a)
              && (a.CallAct? ==> a.told == Verdict(a.reply))
  {
    if blocks != [] {
      var front, last := blocks[..|blocks| - 1], blocks[|blocks| - 1];
      OrderedInBudget(env, since, front);
      assert blocks == front + [last];
      ActsInBudget(env, last.candidate, last.acts, Reached(since, front));
    }
  }

  lemma {:induction false} ChainedAt(env: Env, c: Candidate, acts: seq<Act>, since: Clock, i: nat)
    requires Chained(env, c, acts, since) && i < |acts|
    ensures Follows(env, c, acts[..i], acts[i], since)
    decreases |acts|
  {
    if i < |acts| - 1 {
      ChainedAt(env, c, acts[..|acts| - 1], since, i);
      assert acts[..|acts| - 1][..i] == acts[..i];
    }
  }

  // Calls and sleeps take turns.
  predicate Alternates(acts: seq<Act>) {
    forall i | 0 <= i < |acts| :: acts[i].CallAct? <==> i % 2 == 0
  }

  lemma ChainedAlternates(env: Env, c: Candidate, acts: seq<Act>, since: Clock)
    requires Chained(env, c, acts, since)
    ensures Alternates(acts)
  {
    forall i: nat | i < |acts| ensures acts[i].CallAct? <==> i % 2 == 0 {
      ChainedAt(env, c, acts, since, i);
    }
  }

  lemma {:induction false} OrderedAt(env: Env, since: Clock, blocks: seq<Block>, k: nat)
    requires Ordered(env, since, blocks) && k < |blocks|
    ensures Chained(env, blocks[k].candidate, blocks[k].acts, Reached(since, blocks[..k]))
    decreases |blocks|
  {
    if k < |blocks| - 1 {
      OrderedAt(env, since, blocks[..|blocks| - 1], k);
      assert blocks[..|blocks| - 1][..k] == blocks[..k];
    }
  }

  // The wait a provider asked for, or one below the configured ceiling.
  predicate WaitBounded(maxBackoff: int, err: CallError, wait: int) {
    if err.RetryAfter() > 0 then wait == err.RetryAfter() else 0 <= wait < maxBackoff
  }

  /** In every run of a configured engine, at whatever attempt and with int64
      wrap-around, a backoff is the Retry-After of the failure before it or stays
      below the configured ceiling. */
  lemma WaitsAreBounded(env: Env, wired: set<string>, tiers: seq<Tier>, since: Clock, blocks: seq<Block>, base: int,
                        maxBackoff: int, k: nat, i: nat)
    requires Walked(env, wired, tiers, since, blocks) && Configured(env, base, maxBackoff) && base > 0 && maxBackoff > 0
    requires k < |blocks| && i < |blocks[k].acts| && blocks[k].acts[i].SleepAct?
    ensures
      && i > 0 && blocks[k].acts[i - 1].CallAct? && blocks[k].acts[i - 1].reply.err.Some?
      && WaitBounded(maxBackoff, blocks[k].acts[i - 1].reply.err.value, blocks[k].acts[i].wait)
  {
    WalkedIsOrdered(env, wired, tiers, since, blocks);
    OrderedWaits(env, since, blocks, base, maxBackoff, k, i);
  }

  lemma OrderedWaits(env: Env, since: Clock, blocks: seq<Block>, base: int, maxBackoff: int, k: nat, i: nat)
    requires Ordered(env, since, blocks) && Configured(env, base, maxBackoff) && base > 0 && maxBackoff > 0
    requires k < |blocks| && i < |blocks[k].acts| && blocks[k].acts[i].SleepAct?
    ensures
      && i > 0 && blocks[k].acts[i - 1].CallAct? && blocks[k].acts[i - 1].reply.err.Some?
      && WaitBounded(maxBackoff, blocks[k].acts[i - 1].reply.err.value, blocks[k].acts[i].wait)
  {
    OrderedAt(env, since, blocks, k);
    var acts := blocks[k].acts;
    ChainedAt(env, blocks[k].candidate, acts, Reached(since, blocks[..k]), i);
    assert acts[..i][|acts[..i]| - 1] == acts[i - 1];
    assert 0 < env.cap(|acts[..i]| / 2) <= maxBackoff;
  }

  // ----- Explicit chains -----

  lemma {:induction false} ChainLinks(chain: seq<string>, models: Models, weights: map<string, int>)
    ensures forall k, c | 0 <= k < |ChainTiers(chain, models, weights)| && c in ChainTiers(chain, models, weights)[k] ::
              c.weight == WeightOf(weights, c.provider)
  {
    if chain != [] {
      ChainLinks(chain[..|chain| - 1], models, weights);
    }
  }

  predicate HasWeight(tiers: seq<Tier>, b: Block) {
    b.tier < |tiers| && b.candidate in tiers[b.tier] && b.candidate.weight > 0
  }

  lemma {:induction false} PickedHasWeight(env: Env, wired: set<string>, tiers: seq<Tier>, since: Clock,
                                           blocks: seq<Block>, i: nat)
    requires Walked(env, wired, tiers, since, blocks) && i < |blocks|
    ensures HasWeight(tiers, blocks[i])
  {
    if i < |blocks| - 1 {
      PickedHasWeight(env, wired, tiers, since, blocks[..|blocks| - 1], i);
    }
  }

  /** A link of an explicit chain whose provider has weight 0 is never called, and its
      tier is drained whenever it is asked: weight matters to a chain after all. */
  lemma WeightlessLinkIsSkipped(env: Env, wired: set<string>, chain: seq<string>, models: Models,
                                weights: map<string, int>, since: Clock, blocks: seq<Block>, name: string)
    requires Walked(env, wired, ChainTiers(chain, models, weights), since, blocks) && WeightOf(weights, name) == 0
    ensures forall i | 0 <= i < |blocks| :: blocks[i].candidate.provider != name
    ensures forall model, tried, t :: Drained(env.ready, wired, [Candidate(name, model, 0)], tried, t)
  {
    ChainLinks(chain, models, weights);
    forall i: nat | i < |blocks| ensures blocks[i].candidate.provider != name {
      PickedHasWeight(env, wired, ChainTiers(chain, models, weights), since, blocks, i);
    }
  }

  /** A link that is wired and stays ready is tried before the walk goes past it if and
      only if its weight is not 0. */
  lemma LinkIsTriedByWeight(env: Env, wired: set<string>, tiers: seq<Tier>, since: Clock, blocks: seq<Block>,
                            exits: seq<Exit>, k: nat, link: Candidate)
    requires Walked(env, wired, tiers, since, blocks) && Left(env, wired, tiers, since, blocks, exits)
    requires k < |exits| && tiers[k] == [link] && link.provider in wired
    requires forall m: nat | m >= since.tick :: env.ready(m, link)
    ensures link.provider in TriedIn(blocks, k) <==> link.weight != 0
  {
    if link.weight != 0 {
      assert link in tiers[k];
      ReadyIsTried(env, wired, tiers, since, blocks, exits, k, link);
    } else {
      forall i: nat | i < |blocks| ensures blocks[i].tier != k {
        PickedHasWeight(env, wired, tiers, since, blocks, i);
      }
    }
  }
}
