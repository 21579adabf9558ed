/** What every run of the engine does, told from HTTP statuses, clocks and contents
    alone: whom it picks, what it retries, how long it takes over it, what the breaker
    hears, and what the caller is answered. */
module EngineLaws {
  import opened Wrappers
  import opened Int64
  import opened Backoff
  import opened Router
  import opened Selection
  import opened Attempts
  import opened Engine

  // Too many requests, or a fault of the server: the same provider is asked again.
  predicate Retries(e: CallError) {
    e.ApiError? && (e.status == 429 || e.status >= 500)
  }

  // The request or the credentials do not suit this provider: another one is asked.
  predicate PassesOn(e: CallError) {
    e.ApiError? && e.status in {400, 401, 403, 404}
  }

  // Nothing of the reply has reached the caller.
  predicate Silent(r: Reply) {
    forall d | d in r.body :: d.content == ""
  }

  predicate Alive(env: Env, c: Clock) {
    !env.cancelled(c.tick) && (env.deadline.Some? ==> c.now < env.deadline.value)
  }

  lemma SilentIsUnflushed(r: Reply)
    ensures Silent(r) <==> !Flushed(r)
  {
    if Flushed(r) {
      var i :| 0 <= i < |r.body| && r.body[i].content != "";
      assert r.body[i] in r.body;
    }
  }

  lemma ClassByStatus(e: CallError)
    ensures e.Class() == Retryable <==> Retries(e)
    ensures e.Class() == Fallback <==> PassesOn(e)
  {
  }

  lemma {:induction false} WalkedAt(env: Env, wired: set<string>, tiers: seq<Tier>, since: Clock, blocks: seq<Block>,
                                    k: nat)
    requires Walked(env, wired, tiers, since, blocks) && k < |blocks|
    ensures BlockFits(env, wired, tiers, since, blocks[..k], blocks[k])
    decreases |blocks|
  {
    if k < |blocks| - 1 {
      WalkedAt(env, wired, tiers, since, blocks[..|blocks| - 1], k);
      assert blocks[..|blocks| - 1][..k] == blocks[..k];
    }
  }

  // Act i of block k in its place.
  lemma ActAt(env: Env, wired: set<string>, tiers: seq<Tier>, since: Clock, blocks: seq<Block>, k: nat, i: nat)
    requires Walked(env, wired, tiers, since, blocks) && k < |blocks| && i < |blocks[k].acts|
    ensures Follows(env, blocks[k].candidate, blocks[k].acts[..i], blocks[k].acts[i], Reached(since, blocks[..k]))
  {
    WalkedAt(env, wired, tiers, since, blocks, k);
    ChainedAt(env, blocks[k].candidate, blocks[k].acts, Reached(since, blocks[..k]), i);
  }

  // ----- Whom it picks -----

  // The candidate stands in the tier and was ready when its turn to be asked came.
  ghost predicate WasReady(env: Env, tier: Tier, b: Block) {
    exists j :: 0 <= j < |tier| && tier[j] == b.candidate && env.ready(b.moment + j, b.candidate)
  }

  lemma PickWasReady(env: Env, wired: set<string>, tier: Tier, tried: set<string>, b: Block)
    requires Picked(env, wired, tier, tried, b)
    ensures WasReady(env, tier, b) && (b.acts != [] <==> env.allow(b.moment + |tier| + 1, b.candidate))
  {
    PickedWasReady(env.ready, wired, tier, tried, b.moment, env.draw(b.moment + |tier|), b.candidate);
    var j :| 0 <= j < |tier| && tier[j] == b.candidate && env.ready(b.moment + j, b.candidate);
  }

  /** Every candidate of every run is wired, was ready when it was asked, and is called
      exactly when its breaker let it through right after. */
  lemma PickedReady(env: Env, wired: set<string>, tiers: seq<Tier>, since: Clock, blocks: seq<Block>, k: nat)
    requires Walked(env, wired, tiers, since, blocks) && k < |blocks|
    ensures
      var b := blocks[k];
      && b.tier < |tiers| && b.candidate.provider in wired && WasReady(env, tiers[b.tier], b)
      && (b.acts != [] <==> env.allow(b.moment + |tiers[b.tier]| + 1, b.candidate))
  {
    WalkedAt(env, wired, tiers, since, blocks, k);
    PickWasReady(env, wired, tiers[blocks[k].tier], TriedIn(blocks[..k], blocks[k].tier), blocks[k]);
  }

  lemma BlockIsNew(env: Env, wired: set<string>, tiers: seq<Tier>, since: Clock, front: seq<Block>, b: Block, i: nat)
    requires BlockFits(env, wired, tiers, since, front, b) && i < |front|
    ensures front[i].tier == b.tier ==> front[i].candidate.provider != b.candidate.provider
    ensures front[|front| - 1].tier <= b.tier
  {
    assert front[i] in front;
  }

  // Each block is at the tier of the one before it or a later one.
  ghost predicate Climbs(blocks: seq<Block>) {
    forall k | 1 <= k < |blocks| :: blocks[k - 1].tier <= blocks[k].tier
  }

  lemma {:induction false} ClimbsFar(blocks: seq<Block>, i: nat, k: nat)
    requires Climbs(blocks) && i <= k < |blocks|
    ensures blocks[i].tier <= blocks[k].tier
    decreases k
  {
    if i < k {
      ClimbsFar(blocks, i, k - 1);
    }
  }

  lemma WalkedClimbs(env: Env, wired: set<string>, tiers: seq<Tier>, since: Clock, blocks: seq<Block>)
    requires Walked(env, wired, tiers, since, blocks)
    ensures Climbs(blocks)
  {
    forall k | 1 <= k < |blocks| ensures blocks[k - 1].tier <= blocks[k].tier {
      ClimbsAt(env, wired, tiers, since, blocks, k);
    }
  }

  lemma ClimbsAt(env: Env, wired: set<string>, tiers: seq<Tier>, since: Clock, blocks: seq<Block>, k: nat)
    requires Walked(env, wired, tiers, since, blocks) && 1 <= k < |blocks|
    ensures blocks[k - 1].tier <= blocks[k].tier
  {
    WalkedAt(env, wired, tiers, since, blocks, k);
    BlockIsNew(env, wired, tiers, since, blocks[..k], blocks[k], k - 1);
  }

  /** No provider is tried twice in a tier, and no tier is gone back to. */
  lemma TriedOncePerTier(env: Env, wired: set<string>, tiers: seq<Tier>, since: Clock, blocks: seq<Block>, i: nat,
                         k: nat)
    requires Walked(env, wired, tiers, since, blocks) && i < k < |blocks|
    ensures blocks[i].tier <= blocks[k].tier
    ensures blocks[i].tier == blocks[k].tier ==> blocks[i].candidate.provider != blocks[k].candidate.provider
  {
    WalkedClimbs(env, wired, tiers, since, blocks);
    ClimbsFar(blocks, i, k);
    WalkedAt(env, wired, tiers, since, blocks, k);
    BlockIsNew(env, wired, tiers, since, blocks[..k], blocks[k], i);
  }

  // ----- What it retries -----

  /** A call is followed by anything at the same provider only after a 429 or a 5xx
      that sent nothing. */
  lemma RetriedByStatus(env: Env, wired: set<string>, tiers: seq<Tier>, since: Clock, blocks: seq<Block>, k: nat,
                        i: nat)
    requires Walked(env, wired, tiers, since, blocks)
    requires k < |blocks| && i + 1 < |blocks[k].acts| && blocks[k].acts[i].CallAct?
    ensures var r := blocks[k].acts[i].reply; r.err.Some? && Retries(r.err.value) && Silent(r)
  {
    ActAt(env, wired, tiers, since, blocks, k, i + 1);
    var acts := blocks[k].acts;
    assert acts[..i + 1][i] == acts[i];
    GoesOnByStatus(acts[i]);
  }

  lemma GoesOnByStatus(a: Act)
    requires a.CallAct? && GoesOn(a)
    ensures a.reply.err.Some? && Retries(a.reply.err.value) && Silent(a.reply)
  {
    SilentIsUnflushed(a.reply);
  }

  lemma {:induction false} CallsAndSleeps(acts: seq<Act>)
    requires Alternates(acts)
    ensures |RepliesOf(acts)| == (|acts| + 1) / 2
  {
    if acts != [] {
      CallsAndSleeps(acts[..|acts| - 1]);
    }
  }

  // A sleep that does not fit before the deadline, or that the client cut short.
  predicate Abandoned(env: Env, a: Act) {
    && a.SleepAct? && a.wait > 0
    && ((env.deadline.Some? && env.deadline.value - a.start < a.wait) || env.cancelled(a.moment))
  }

  // How a block of calls and sleeps ends.
  ghost predicate EndsRightly(env: Env, acts: seq<Act>)
    requires acts != []
  {
    var r := LastReply(acts);
    && 1 <= |RepliesOf(acts)| <= env.maxAttempts
    && (|RepliesOf(acts)| == env.maxAttempts ==> acts[|acts| - 1].CallAct?)
    && (r.err.Some? && Retries(r.err.value) && Silent(r) ==>
          |RepliesOf(acts)| == env.maxAttempts || Abandoned(env, acts[|acts| - 1]))
  }

  lemma ShapedEndsRightly(env: Env, c: Candidate, acts: seq<Act>, since: Clock)
    requires Shaped(env, c, acts, since)
    ensures EndsRightly(env, acts)
  {
    ChainedAlternates(env, c, acts, since);
    CallsAndSleeps(acts);
    assert Follows(env, c, acts[..|acts| - 1], acts[|acts| - 1], since);
    SilentIsUnflushed(LastReply(acts));
  }

  /** And after a 429 or a 5xx that sent nothing it always asks again, until its
      attempts are used up or the sleep before the next one is refused or cut short;
      after the last attempt it does not sleep. */
  lemma GivesUpLast(env: Env, wired: set<string>, tiers: seq<Tier>, since: Clock, blocks: seq<Block>, k: nat)
    requires Walked(env, wired, tiers, since, blocks) && k < |blocks| && blocks[k].acts != []
    ensures EndsRightly(env, blocks[k].acts)
  {
    WalkedAt(env, wired, tiers, since, blocks, k);
    ShapedEndsRightly(env, blocks[k].candidate, blocks[k].acts, Reached(since, blocks[..k]));
  }

  // ----- How long it takes -----

  // A call answers when the provider does, unless that is later than its timeout or
  // the deadline; a call begun too late has no time at all.
  predicate CallTime(env: Env, provider: string, a: Act)
    requires a.CallAct?
  {
    var took, timeout := env.took(a.moment), env.timeout(provider);
    var ends := if env.deadline.Some? && env.deadline.value < a.start + timeout then env.deadline.value
                else a.start + timeout;
    if a.start + took <= ends then a.end == a.start + took
    else a.end == if ends < a.start then a.start else ends
  }

  // A sleep that completes lasts as long as it should, and it does unless abandoned.
  predicate SleepTime(env: Env, a: Act)
    requires a.SleepAct?
  {
    && (a.completed <==> !Abandoned(env, a))
    && (a.completed ==> a.end == a.start + if a.wait > 0 then a.wait else 0)
    && (!a.completed ==> a.start <= a.end <= a.start + a.wait)
  }

  /** Every call and every sleep of every run takes exactly the time it is due. */
  lemma ActsTakeTheirTime(env: Env, wired: set<string>, tiers: seq<Tier>, since: Clock, blocks: seq<Block>, k: nat,
                          i: nat)
    requires Walked(env, wired, tiers, since, blocks) && k < |blocks| && i < |blocks[k].acts|
    ensures
      var a := blocks[k].acts[i];
      if a.CallAct? then CallTime(env, blocks[k].candidate.provider, a) else SleepTime(env, a)
  {
    ActAt(env, wired, tiers, since, blocks, k, i);
  }

  /** With settings too small to wrap, the wait after a provider's n-th failure is the
      one it asked for, or is drawn from below base * 2^(n-1), up to the ceiling. */
  lemma WaitsDouble(env: Env, wired: set<string>, tiers: seq<Tier>, since: Clock, blocks: seq<Block>, base: int,
                    maxBackoff: int, k: nat, n: nat)
    requires Walked(env, wired, tiers, since, blocks) && Configured(env, base, maxBackoff)
    requires base > 0 && maxBackoff > 0 && base * maxBackoff <= TWO_62
    requires k < |blocks| && 2 * n + 1 < |blocks[k].acts|
    ensures
      var failed, slept := blocks[k].acts[2 * n], blocks[k].acts[2 * n + 1];
      && failed.CallAct? && failed.reply.err.Some? && slept.SleepAct? && failed.end <= slept.start
      && var e := failed.reply.err.value;
         if e.ApiError? && e.retryAfter > 0 then slept.wait == e.retryAfter
         else 0 <= slept.wait < Lesser(base * Pow2(n), maxBackoff)
  {
    var acts := blocks[k].acts;
    ActAt(env, wired, tiers, since, blocks, k, 2 * n + 1);
    assert acts[..2 * n + 1][|acts[..2 * n + 1]| - 1] == acts[2 * n];
    assert |acts[..2 * n + 1]| / 2 == n;
    JitterCapExactWhenSmall(n, base, maxBackoff);
    assert base * Pow2(n) > 0;
  }

  // ----- What the breaker hears -----

  /** Of every call the breaker hears that it succeeded, that it failed if the status
      blames the provider and nothing was sent, and nothing of any other failure. */
  lemma BreakerHears(env: Env, wired: set<string>, tiers: seq<Tier>, since: Clock, blocks: seq<Block>, k: nat, i: nat)
    requires Walked(env, wired, tiers, since, blocks)
    requires k < |blocks| && i < |blocks[k].acts| && blocks[k].acts[i].CallAct?
    ensures
      var a := blocks[k].acts[i];
      match a.reply.err
      case None => a.told == Some(true)
      case Some(e) => a.told == if (Retries(e) || PassesOn(e)) && Silent(a.reply) then Some(false) else None
  {
    ActAt(env, wired, tiers, since, blocks, k, i);
    SilentIsUnflushed(blocks[k].acts[i].reply);
  }

  // ----- What the caller is answered -----

  // A failure the walk goes past: the provider is to blame and nothing was sent.
  predicate Blamed(r: Reply) {
    r.err.Some? && (Retries(r.err.value) || PassesOn(r.err.value)) && Silent(r)
  }

  lemma BlamedIsHarmless(r: Reply)
    ensures Blamed(r) <==> Harmless(r)
  {
    SilentIsUnflushed(r);
  }

  /** The walk goes past a candidate exactly when its breaker refused it, or it was to
      blame, sent nothing and left the context alive. */
  lemma GoesPast(env: Env, wired: set<string>, tiers: seq<Tier>, since: Clock, blocks: seq<Block>, k: nat)
    requires Walked(env, wired, tiers, since, blocks) && k + 1 < |blocks|
    ensures blocks[k].acts == [] || (Blamed(LastReply(blocks[k].acts)) && Alive(env, blocks[k].end))
  {
    WalkedAt(env, wired, tiers, since, blocks, k + 1);
    assert blocks[..k + 1][k] == blocks[k];
    BlamedIsHarmless(LastReply(blocks[k].acts));
  }

  // What the last reply of a run settles.
  ghost predicate SettledBy(env: Env, tiers: seq<Tier>, b: Block, left: nat, res: Result) {
    var r := LastReply(b.acts);
    if r.err.None? then res == Completed(b.candidate, r.body)
    else if !Silent(r) then res == Failed(Upstream(r.err.value), true)
    else if !Blamed(r) then res == Failed(Upstream(r.err.value), false)
    else if !Alive(env, b.end) then res == Failed(ContextDone, false)
    else res == Failed(Upstream(r.err.value), false) && left == |tiers|
  }

  /** The answer follows from the run: a reply settles the request unless it blames the
      provider in silence; that ends the walk only when the context is over or every
      tier has been left, and then the last such error is the answer, or that nobody
      was healthy if nobody was called. */
  lemma AnsweredByStatus(env: Env, wired: set<string>, tiers: seq<Tier>, since: Clock, blocks: seq<Block>, left: nat,
                         res: Result)
    requires Walked(env, wired, tiers, since, blocks) && Explains(env, tiers, blocks, left, res)
    ensures blocks != [] && blocks[|blocks| - 1].acts != [] ==>
              SettledBy(env, tiers, blocks[|blocks| - 1], left, res)
    ensures blocks == [] || blocks[|blocks| - 1].acts == [] ==>
              && left == |tiers|
              && (Replies(blocks) == [] ==> res == Failed(NoHealthyProvider, false))
              && (Replies(blocks) != [] ==>
                    && Replies(blocks)[|Replies(blocks)| - 1].err.Some?
                    && res == Failed(Upstream(Replies(blocks)[|Replies(blocks)| - 1].err.value), false))
  {
    if blocks != [] && blocks[|blocks| - 1].acts != [] {
      LastReplySettles(env, tiers, blocks, left, res);
    } else {
      WalkedIsOrdered(env, wired, tiers, since, blocks);
      NobodyLeft(env, tiers, since, blocks, left, res);
    }
  }

  lemma LastReplySettles(env: Env, tiers: seq<Tier>, blocks: seq<Block>, left: nat, res: Result)
    requires blocks != [] && blocks[|blocks| - 1].acts != [] && Explains(env, tiers, blocks, left, res)
    ensures SettledBy(env, tiers, blocks[|blocks| - 1], left, res)
  {
    var r := LastReply(blocks[|blocks| - 1].acts);
    SilentIsUnflushed(r);
    BlamedIsHarmless(r);
  }

  lemma LastJoins(before: seq<Reply>, more: seq<Reply>)
    ensures more == [] ==> before + more == before
    ensures more != [] ==> before + more != [] && (before + more)[|before + more| - 1] == more[|more| - 1]
  {
  }

  lemma {:induction false} LastErrorIsLast(env: Env, since: Clock, blocks: seq<Block>)
    requires Ordered(env, since, blocks)
    ensures Replies(blocks) == [] ==> LastError(blocks) == None
    ensures Replies(blocks) != [] ==> Replies(blocks)[|Replies(blocks)| - 1].err == LastError(blocks)
  {
    if blocks != [] {
      var front, b := blocks[..|blocks| - 1], blocks[|blocks| - 1];
      LastErrorIsLast(env, since, front);
      BlockReplies(env, b.candidate, b.acts, Reached(since, front));
      LastJoins(Replies(front), RepliesOf(b.acts));
    }
  }

  lemma NobodyLeft(env: Env, tiers: seq<Tier>, since: Clock, blocks: seq<Block>, left: nat, res: Result)
    requires Ordered(env, since, blocks) && Explains(env, tiers, blocks, left, res)
    requires blocks == [] || blocks[|blocks| - 1].acts == []
    ensures left == |tiers|
    ensures Replies(blocks) == [] ==> res == Failed(NoHealthyProvider, false)
    ensures Replies(blocks) != [] ==>
              && Replies(blocks)[|Replies(blocks)| - 1].err.Some?
              && res == Failed(Upstream(Replies(blocks)[|Replies(blocks)| - 1].err.value), false)
  {
    LastErrorIsLast(env, since, blocks);
    NoCallExplained(env, tiers, since, blocks, left, res);
  }
}
