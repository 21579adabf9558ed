/** The calls made to one candidate: a retry loop with backoff under a deadline.
    Providers, clocks, cancellation and breakers are oracles, arbitrary functions
    of the moment they are consulted, so every interleaving and every outcome is
    covered. */
module Attempts {
  import opened Wrappers
  import opened Backoff
  import opened Int64
  import opened Router

  datatype FailureClass = Terminal | Retryable | Fallback

  function ClassifyByStatus(status: int): FailureClass {
    if status == 429 || status >= 500 then Retryable
    else if status == 400 || status == 401 || status == 403 || status == 404 then Fallback
    else Terminal
  }

  // What a provider call can fail with: an HTTP status, or an error that carries none.
  datatype CallError = ApiError(status: int, retryAfter: int) | OtherError
  {
    function Status(): int {
      if ApiError? then status else 0
    }

    function RetryAfter(): int {
      if ApiError? then retryAfter else 0
    }

    function Class(): FailureClass {
      ClassifyByStatus(Status())
    }
  }

  datatype Usage = Usage(prompt: int, completion: int)

  datatype Delta = Delta(content: string, finish: string, usage: Option<Usage>)

  // A call's error, if any, and what it brought: the response, or the deltas of
  // a stream that the caller accepted.
  datatype Reply = Reply(err: Option<CallError>, body: seq<Delta>)

  function Content(body: seq<Delta>): string {
    if body == [] then "" else Content(body[..|body| - 1]) + body[|body| - 1].content
  }

  // Some content reached the caller.
  predicate Flushed(r: Reply) {
    exists i :: 0 <= i < |r.body| && r.body[i].content != ""
  }

  // Everything a run depends on: the retry settings (`cap` is the interval jitter
  // is drawn from at each attempt), whether it streams and to a writer that can
  // flush, and the oracles.
  datatype Env = Env(maxAttempts: nat, cap: nat -> int, timeout: string -> int, deadline: Option<int>,
                     streaming: bool, canFlush: bool, ready: (nat, Candidate) -> bool, allow: (nat, Candidate) -> bool,
                     complete: nat -> Reply, stream: nat -> Reply, write: nat -> bool,
                     draw: nat -> nat, took: nat -> nat, idle: nat -> nat, cancelled: nat -> bool)

  // The settings come from a configured base and ceiling.
  ghost predicate Configured(env: Env, base: int, maxBackoff: int) {
    env.maxAttempts >= 1 && forall attempt: nat :: env.cap(attempt) == JitterCap(attempt, base, maxBackoff)
  }

  datatype Clock = Clock(tick: nat, now: int)

  // Time passes between two things the gateway does.
  function Idle(env: Env, c: Clock): Clock {
    Clock(c.tick + 1, c.now + env.idle(c.tick))
  }

  // What the engine did at a moment, with the time it began and ended.
  datatype Act =
    | CallAct(moment: nat, start: int, end: int, reply: Reply, told: Option<bool>)
    | SleepAct(moment: nat, start: int, end: int, wait: int, completed: bool)

  function Greater(a: int, b: int): int {
    if a < b then b else a
  }

  function AttemptTimeout(deadline: Option<int>, now: int, configured: int): int {
    var timeout := if deadline.Some? && deadline.value - now < configured then deadline.value - now else configured;
    Greater(0, timeout)
  }

  // A call answers within the timeout it is given, and the breaker is told how it went.
  function Called(env: Env, c: Clock, provider: string, reply: Reply, told: Option<bool>): Act {
    var timeout := AttemptTimeout(env.deadline, c.now, env.timeout(provider));
    CallAct(c.tick, c.now, c.now + Lesser(env.took(c.tick), timeout), reply, told)
  }

  // What the breaker should hear: success, or a failure that is neither Terminal
  // nor came after content was sent.
  function Verdict(r: Reply): Option<bool> {
    if r.err.None? then Some(true)
    else if r.err.value.Class() == Terminal || Flushed(r) then None
    else Some(false)
  }

  // A sleep that would not fit before the deadline is refused outright; one that
  // starts may still be cut short by cancellation.
  function Slept(env: Env, c: Clock, wait: int): Act {
    if wait <= 0 then SleepAct(c.tick, c.now, c.now, wait, true)
    else if env.deadline.Some? && env.deadline.value - c.now < wait then SleepAct(c.tick, c.now, c.now, wait, false)
    else if env.cancelled(c.tick) then SleepAct(c.tick, c.now, c.now + Lesser(env.took(c.tick), wait), wait, false)
    else SleepAct(c.tick, c.now, c.now + wait, wait, true)
  }

  // What a call that fails brings back is discarded.
  function Returned(r: Reply): Reply {
    if r.err.Some? then Reply(r.err, []) else r
  }

  // The reply to a Stream call begun at a moment: all the provider sent, or, when
  // the callback could not write a delta, those before it and an error without a
  // status. Delta i is written at moment + 1 + i.
  predicate Relayed(env: Env, moment: nat, reply: Reply) {
    var offered, n := env.stream(moment), |reply.body|;
    && n <= |offered.body|
    && (n > 0 ==> env.canFlush) && (forall k: nat | moment < k <= moment + n :: env.write(k))
    && if n == |offered.body| then reply == offered
       else reply == Reply(Some(OtherError), offered.body[..n]) && !(env.canFlush && env.write(moment + 1 + n))
  }

  // The act is what the oracles made of it: a call takes its time up to its
  // timeout and its reply is the provider's, and a sleep goes as it must.
  predicate Genuine(env: Env, c: Candidate, a: Act) {
    match a
    case CallAct(moment, start, end, reply, _) =>
      && end == start + Lesser(env.took(moment), AttemptTimeout(env.deadline, start, env.timeout(c.provider)))
      && if env.streaming then Relayed(env, moment, reply) else reply == Returned(env.complete(moment))
    case SleepAct(moment, start, _, wait, _) => a == Slept(env, Clock(moment, start), wait)
  }

  // The loop carries on after a retryable failure that sent nothing, and after a full sleep.
  predicate GoesOn(a: Act) {
    match a
    case CallAct(_, _, _, reply, _) => reply.err.Some? && reply.err.value.Class() == Retryable && !Flushed(reply)
    case SleepAct(_, _, _, _, completed) => completed
  }

  predicate Before(c: Clock, a: Act) {
    c.tick <= a.moment && c.now <= a.start
  }

  // Act a may come next after the acts in front: calls and sleeps alternate, each
  // genuine and in order, and only after an act the loop carries on from; a sleep
  // lasts the provider's Retry-After or a fresh draw below the cap.
  ghost predicate Follows(env: Env, c: Candidate, front: seq<Act>, a: Act, since: Clock) {
    && (a.CallAct? <==> |front| % 2 == 0)
    && Genuine(env, c, a)
    && (front == [] ==> Before(since, a))
    && (front != [] ==>
          && GoesOn(front[|front| - 1]) && front[|front| - 1].end <= a.start
          && front[|front| - 1].moment < a.moment)
    && (a.CallAct? ==> a.told == Verdict(a.reply))
    && (a.SleepAct? ==>
          && front[|front| - 1].CallAct? && front[|front| - 1].reply.err.Some?
          && var asked := front[|front| - 1].reply.err.value.RetryAfter();
             a.wait == BackoffFor(env.cap(|front| / 2), asked, env.draw(a.moment)))
  }

  ghost predicate Chained(env: Env, c: Candidate, acts: seq<Act>, since: Clock) {
    acts == [] ||
    (Chained(env, c, acts[..|acts| - 1], since) && Follows(env, c, acts[..|acts| - 1], acts[|acts| - 1], since))
  }

  // The acts of one candidate: at most maxAttempts calls; only a retryable failure
  // that sent nothing is ever followed by anything, and such a failure ends the
  // block only when the attempts are used up or the sleep after it was refused or
  // cut short.
  ghost predicate Shaped(env: Env, c: Candidate, acts: seq<Act>, since: Clock) {
    && acts != [] && |acts| < 2 * env.maxAttempts
    && Chained(env, c, acts, since)
    && (GoesOn(acts[|acts| - 1]) ==> |acts| == 2 * env.maxAttempts - 1)
  }

  // The reply the block ends with.
  function LastReply(acts: seq<Act>): Reply {
    if acts == [] then Reply(None, [])
    else if acts[|acts| - 1].CallAct? then acts[|acts| - 1].reply
    else LastReply(acts[..|acts| - 1])
  }

  // The moment of the last call.
  function LastMoment(acts: seq<Act>): nat {
    if acts == [] then 0
    else if acts[|acts| - 1].CallAct? then acts[|acts| - 1].moment
    else LastMoment(acts[..|acts| - 1])
  }

  datatype Tried = Rejected | Served(body: seq<Delta>) | GaveUp(err: CallError)

  function Concluded(r: Reply): Tried {
    if r.err.None? then Served(r.body) else GaveUp(r.err.value)
  }

  // The clock has passed an act.
  predicate Past(a: Act, clk: Clock) {
    a.moment < clk.tick && a.end <= clk.now
  }

  predicate NotBefore(clk: Clock, since: Clock) {
    since.tick <= clk.tick && since.now <= clk.now
  }

  // The retry loop is about to make call number `attempt`.
  ghost predicate Retrying(env: Env, c: Candidate, acts: seq<Act>, since: Clock, clk: Clock, attempt: nat,
                           lastErr: CallError) {
    && NotBefore(clk, since) && Chained(env, c, acts, since)
    && |acts| == (if attempt == 0 then 0 else 2 * attempt - 1)
    && (attempt > 0 ==>
          var last := acts[|acts| - 1];
          && last.CallAct? && GoesOn(last) && last.reply == LastReply(acts) && last.reply.err == Some(lastErr)
          && Past(last, clk))
  }

  // Backoff done, the call itself is next.
  ghost predicate Poised(env: Env, c: Candidate, acts: seq<Act>, since: Clock, clk: Clock, attempt: nat) {
    && NotBefore(clk, since) && Chained(env, c, acts, since) && |acts| == 2 * attempt
    && (attempt > 0 ==> GoesOn(acts[|acts| - 1]) && Past(acts[|acts| - 1], clk))
  }

  // The sleep before a retry takes its place in the chain.
  lemma SleepFits(env: Env, c: Candidate, acts: seq<Act>, since: Clock, clk: Clock, attempt: nat, err: CallError)
    requires attempt > 0 && Retrying(env, c, acts, since, clk, attempt, err)
    ensures
      var s := Slept(env, clk, BackoffFor(env.cap(attempt - 1), err.RetryAfter(), env.draw(clk.tick)));
      && Chained(env, c, acts + [s], since) && clk.now <= s.end
      && (s.completed ==> Poised(env, c, acts + [s], since, Clock(clk.tick + 1, s.end), attempt))
      && LastReply(acts + [s]) == LastReply(acts) && LastMoment(acts + [s]) == LastMoment(acts)
  {
    var s := Slept(env, clk, BackoffFor(env.cap(attempt - 1), err.RetryAfter(), env.draw(clk.tick)));
    assert (acts + [s])[..|acts|] == acts;
    assert |acts| / 2 == attempt - 1;
  }

  // So does a call, first or after a full sleep.
  lemma CallFits(env: Env, c: Candidate, acts: seq<Act>, since: Clock, clk: Clock, attempt: nat, reply: Reply,
                 told: Option<bool>)
    requires Poised(env, c, acts, since, clk, attempt) && told == Verdict(reply)
    requires if env.streaming then Relayed(env, clk.tick, reply) else reply == Returned(env.complete(clk.tick))
    ensures
      var a := Called(env, clk, c.provider, reply, told);
      Chained(env, c, acts + [a], since) && clk.now <= a.end && LastReply(acts + [a]) == reply
  {
    var a := Called(env, clk, c.provider, reply, told);
    assert (acts + [a])[..|acts|] == acts;
    assert |acts| % 2 == 0;
    assert Follows(env, c, acts, a, since);
  }

  // Backing off before a retry: what is chained so far stays chained.
  method Pause(env: Env, c: Candidate, ghost acts: seq<Act>, ghost since: Clock, clock: Clock, attempt: nat,
               err: CallError)
    returns (s: Act, clk: Clock)
    requires 0 < attempt < env.maxAttempts && Retrying(env, c, acts, since, clock, attempt, err)
    ensures s.SleepAct? && clk.tick > clock.tick && clk.now == s.end >= clock.now && Past(s, clk)
    ensures !s.completed ==> Shaped(env, c, acts + [s], since)
    ensures s.completed ==> Poised(env, c, acts + [s], since, clk, attempt)
    ensures LastReply(acts + [s]) == LastReply(acts) && LastMoment(acts + [s]) == LastMoment(acts)
  {
    clk := Idle(env, clock);
    var wait := BackoffFor(env.cap(attempt - 1), err.RetryAfter(), env.draw(clk.tick));
    SleepFits(env, c, acts, since, clk, attempt, err);
    s := Slept(env, clk, wait);
    clk := Clock(clk.tick + 1, s.end);
  }

  // One call of Complete within its timeout.
  method Complete(env: Env, c: Candidate, ghost acts: seq<Act>, ghost since: Clock, clock: Clock, ghost attempt: nat)
    returns (a: Act, clk: Clock)
    requires !env.streaming && attempt < env.maxAttempts && Poised(env, c, acts, since, clock, attempt)
    ensures a.CallAct? && clk.tick > clock.tick && clk.now == a.end >= clock.now && Past(a, clk)
    ensures !GoesOn(a) || attempt + 1 == env.maxAttempts ==> Shaped(env, c, acts + [a], since)
    ensures GoesOn(a) ==> Retrying(env, c, acts + [a], since, clk, attempt + 1, a.reply.err.value)
    ensures LastReply(acts + [a]) == a.reply
    ensures a.reply.err.Some? ==> !Flushed(a.reply)
  {
    clk := Idle(env, clock);
    var reply := Returned(env.complete(clk.tick));
    var told := None;
    if reply.err.None? {
      told := Some(true);
    } else if reply.err.value.Class() != Terminal {
      told := Some(false);
    }
    CallFits(env, c, acts, since, clk, attempt, reply, told);
    a := Called(env, clk, c.provider, reply, told);
    clk := Clock(clk.tick + 1, a.end);
  }

  // How a candidate's block ends.
  ghost predicate Finished(env: Env, c: Candidate, acts: seq<Act>, since: Clock, clk: Clock, out: Tried) {
    Shaped(env, c, acts, since) && Past(acts[|acts| - 1], clk) && out == Concluded(LastReply(acts))
  }

  // Before every call but the first, back off; a sleep that does not complete ends the block.
  method BackOff(env: Env, c: Candidate, before: seq<Act>, ghost since: Clock, clock: Clock, attempt: nat,
                 lastErr: CallError)
    returns (go: bool, acts: seq<Act>, clk: Clock)
    requires attempt < env.maxAttempts && Retrying(env, c, before, since, clock, attempt, lastErr)
    ensures NotBefore(clk, clock) && LastReply(acts) == LastReply(before) && LastMoment(acts) == LastMoment(before)
    ensures acts == before || (|acts| == |before| + 1 && acts[..|before|] == before && acts[|before|].SleepAct?)
    ensures go ==> Poised(env, c, acts, since, clk, attempt)
    ensures !go ==> attempt > 0 && clk.tick > clock.tick && Finished(env, c, acts, since, clk, GaveUp(lastErr))
  {
    if attempt == 0 {
      return true, before, clock;
    }
    var s;
    s, clk := Pause(env, c, before, since, clock, attempt, lastErr);
    acts, go := before + [s], s.completed;
  }

  // One turn of the retry loop: back off unless first, call, and decide whether to go on.
  method AttemptCall(env: Env, c: Candidate, before: seq<Act>, ghost since: Clock, clock: Clock, attempt: nat,
                     lastErr: CallError)
    returns (stop: Option<Tried>, acts: seq<Act>, clk: Clock)
    requires !env.streaming && attempt < env.maxAttempts && Retrying(env, c, before, since, clock, attempt, lastErr)
    ensures clk.tick > clock.tick && clk.now >= clock.now
    ensures stop.Some? ==> Finished(env, c, acts, since, clk, stop.value) && stop.value != Rejected
    ensures stop.None? ==>
              && LastReply(acts).err.Some? && Retrying(env, c, acts, since, clk, attempt + 1, LastReply(acts).err.value)
              && (attempt + 1 == env.maxAttempts ==> Shaped(env, c, acts, since))
    ensures LastReply(acts).err.Some? ==> !Flushed(LastReply(acts))
  {
    var go;
    go, acts, clk := BackOff(env, c, before, since, clock, attempt, lastErr);
    if !go {
      return Some(GaveUp(lastErr)), acts, clk;
    }
    var a;
    a, clk := Complete(env, c, acts, since, clk, attempt);
    acts := acts + [a];
    if a.reply.err.None? {
      return Some(Served(a.reply.body)), acts, clk;
    }
    if a.reply.err.value.Class() != Retryable {
      return Some(GaveUp(a.reply.err.value)), acts, clk;
    }
    stop := None;
  }

  /** The retry loop for one candidate of a plain completion. */
  method TryCandidate(env: Env, c: Candidate, clock: Clock)
    returns (out: Tried, acts: seq<Act>, clk: Clock)
    requires env.maxAttempts >= 1 && !env.streaming
    ensures clk.tick > clock.tick && clk.now >= clock.now
    ensures out == Rejected <==> !env.allow(clock.tick, c)
    ensures out == Rejected ==> acts == []
    ensures out != Rejected ==> Finished(env, c, acts, clock, clk, out)
    ensures out.GaveUp? ==> !Flushed(LastReply(acts))
  {
    acts, clk := [], Clock(clock.tick + 1, clock.now);
    if !env.allow(clock.tick, c) {
      return Rejected, acts, clk;
    }
    var lastErr := OtherError;
    for attempt := 0 to env.maxAttempts
      invariant Retrying(env, c, acts, clock, clk, attempt, lastErr) && clk.tick > clock.tick
      invariant attempt == env.maxAttempts ==> Shaped(env, c, acts, clock)
    {
      var stop;
      stop, acts, clk := AttemptCall(env, c, acts, clock, clk, attempt, lastErr);
      if stop.Some? {
        return stop.value, acts, clk;
      }
      lastErr := LastReply(acts).err.value;
    }
    out := GaveUp(lastErr);
  }
}
