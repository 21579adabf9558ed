/** The streaming walk. Each delta a provider sends goes to the handler's callback,
    which writes it to the client; a failed write comes back as an error without a
    status. */
module Streaming {
  import opened Wrappers
  import opened Router
  import opened Selection
  import opened Attempts
  import opened Engine

  datatype Wire = Headers(provider: string) | Chunk(content: string, finish: string) | DoneMark | ErrorEvent
                | JsonResponse(content: string) | JsonError

  // The content the client has received.
  function Sent(wire: seq<Wire>): string {
    if wire == [] then ""
    else Sent(wire[..|wire| - 1]) + if wire[|wire| - 1].Chunk? then wire[|wire| - 1].content else ""
  }

  // A response still open: nothing yet, or the stream's headers and then chunks.
  predicate Streamed(wire: seq<Wire>) {
    wire == [] || (wire[0].Headers? && forall i | 1 <= i < |wire| :: wire[i].Chunk?)
  }

  // What the callback has collected: the text so far, its token count and the
  // latest finish reason.
  datatype Totals = Totals(content: string, tokens: int, finish: string)

  // One more delta collected.
  function Gathered(count: string -> nat, t: Totals, d: Delta): Totals {
    Totals(t.content + d.content,
           t.tokens + if d.content != "" then count(d.content) else 0,
           if d.finish != "" then d.finish else t.finish)
  }

  function Collected(count: string -> nat, deltas: seq<Delta>): Totals {
    if deltas == [] then Totals("", 0, "")
    else Gathered(count, Collected(count, deltas[..|deltas| - 1]), deltas[|deltas| - 1])
  }

  lemma CollectedOneMore(count: string -> nat, deltas: seq<Delta>, d: Delta)
    ensures Collected(count, deltas + [d]) == Gathered(count, Collected(count, deltas), d)
  {
    assert (deltas + [d])[..|deltas|] == deltas;
  }

  lemma {:induction false} CollectedContent(count: string -> nat, deltas: seq<Delta>)
    ensures Collected(count, deltas).content == Content(deltas) && Collected(count, deltas).finish == LastFinish(deltas)
  {
    if deltas != [] {
      CollectedContent(count, deltas[..|deltas| - 1]);
    }
  }

  function LastFinish(deltas: seq<Delta>): string {
    if deltas == [] then ""
    else if deltas[|deltas| - 1].finish != "" then deltas[|deltas| - 1].finish
    else LastFinish(deltas[..|deltas| - 1])
  }

  function LastUsage(deltas: seq<Delta>): Option<Usage> {
    if deltas == [] then None
    else if deltas[|deltas| - 1].usage.Some? then deltas[|deltas| - 1].usage
    else LastUsage(deltas[..|deltas| - 1])
  }

  // The wire after one delta: headers come first, and the chunk only if it was written.
  function Written(wire: seq<Wire>, provider: string, d: Delta, canFlush: bool, ok: bool): seq<Wire> {
    var headed := if wire == [] && canFlush then [Headers(provider)] else wire;
    if ok then headed + [Chunk(d.content, d.finish)] else headed
  }

  /** The handler's side of a stream: the variables its callback captures and the
      bytes on the wire. */
  class StreamHandler {
    const canFlush: bool
    const count: string -> nat
    var fullContent: string
    var completionTokens: int
    var finishReason: string
    var headersSent: bool
    var wire: seq<Wire>
    ghost var seen: seq<Delta>

    ghost predicate Valid()
      reads this
    {
      && Totals(fullContent, completionTokens, finishReason) == Collected(count, seen)
      && Streamed(wire) && (headersSent <==> wire != []) && (headersSent <==> canFlush && seen != [])
    }

    constructor (canFlush: bool, count: string -> nat)
      ensures Valid() && wire == [] && seen == [] && this.canFlush == canFlush && this.count == count
    {
      this.canFlush, this.count := canFlush, count;
      fullContent, completionTokens, finishReason, headersSent, wire, seen := "", 0, "", false, [], [];
    }

    // The callback: collect the delta, commit the headers on first use, write the chunk.
    method OnDelta(provider: string, d: Delta, writes: bool) returns (ok: bool)
      requires Valid()
      modifies this
      ensures Valid() && seen == old(seen) + [d]
      ensures ok <==> (old(headersSent) || canFlush) && writes
      ensures headersSent == (old(headersSent) || canFlush)
      ensures wire == Written(old(wire), provider, d, canFlush, ok)
    {
      Collect(d);
      ok := Write(provider, d, writes);
    }

    method Collect(d: Delta)
      requires Totals(fullContent, completionTokens, finishReason) == Collected(count, seen)
      modifies `fullContent, `completionTokens, `finishReason, `seen
      ensures Totals(fullContent, completionTokens, finishReason) == Collected(count, seen)
      ensures seen == old(seen) + [d]
    {
      CollectedOneMore(count, seen, d);
      Gather(d);
      seen := seen + [d];
    }

    method Gather(d: Delta)
      modifies `fullContent, `completionTokens, `finishReason
      ensures Totals(fullContent, completionTokens, finishReason)
           == Gathered(count, old(Totals(fullContent, completionTokens, finishReason)), d)
    {
      assert d.content == "" ==> fullContent + d.content == fullContent;
      if d.content != "" {
        fullContent := fullContent + d.content;
        completionTokens := completionTokens + count(d.content);
      }
      if d.finish != "" {
        finishReason := d.finish;
      }
    }

    method Write(provider: string, d: Delta, writes: bool) returns (ok: bool)
      requires Streamed(wire) && (headersSent <==> wire != [])
      modifies `headersSent, `wire
      ensures Streamed(wire) && (headersSent <==> wire != [])
      ensures ok <==> (old(headersSent) || canFlush) && writes
      ensures headersSent == (old(headersSent) || canFlush)
      ensures wire == Written(old(wire), provider, d, canFlush, ok)
    {
      if !headersSent {
        if !canFlush {
          return false;
        }
        wire := [Headers(provider)];
        headersSent := true;
      }
      if !writes {
        return false;
      }
      wire := wire + [Chunk(d.content, d.finish)];
      ok := true;
    }
  }

  lemma Associates(a: string, b: string, c: string)
    ensures (a + b) + c == a + (b + c)
  {
  }

  lemma {:induction false} ContentJoins(a: seq<Delta>, b: seq<Delta>)
    ensures Content(a + b) == Content(a) + Content(b)
  {
    if b == [] {
      assert a + b == a;
    } else {
      ContentJoins(a, b[..|b| - 1]);
      assert (a + b)[..|a + b| - 1] == a + b[..|b| - 1];
      Associates(Content(a), Content(b[..|b| - 1]), b[|b| - 1].content);
    }
  }

  lemma {:induction false} FlushedMeansContent(r: Reply)
    ensures Flushed(r) <==> Content(r.body) != ""
    decreases |r.body|
  {
    if r.body != [] {
      var front := Reply(r.err, r.body[..|r.body| - 1]);
      FlushedMeansContent(front);
      if Flushed(front) {
        var i :| 0 <= i < |front.body| && front.body[i].content != "";
        assert r.body[i].content != "";
      }
    }
  }

  // Tokens counted on the way past; a delta without content adds none.
  function Counted(count: string -> nat, deltas: seq<Delta>): int {
    Collected(count, deltas).tokens
  }

  lemma {:induction false} CountedJoins(count: string -> nat, a: seq<Delta>, b: seq<Delta>)
    ensures Counted(count, a + b) == Counted(count, a) + Counted(count, b) && Counted(count, b) >= 0
  {
    if b == [] {
      assert a + b == a;
    } else {
      CountedJoins(count, a, b[..|b| - 1]);
      assert (a + b)[..|a + b| - 1] == a + b[..|b| - 1];
    }
  }

  lemma {:induction false} SilenceCountsNothing(count: string -> nat, deltas: seq<Delta>)
    requires Content(deltas) == ""
    ensures Counted(count, deltas) == 0
  {
    if deltas != [] {
      SilenceCountsNothing(count, deltas[..|deltas| - 1]);
    }
  }

  // One chunk for every delta accepted.
  function Chunks(deltas: seq<Delta>): seq<Wire> {
    if deltas == [] then []
    else Chunks(deltas[..|deltas| - 1]) + [Chunk(deltas[|deltas| - 1].content, deltas[|deltas| - 1].finish)]
  }

  // The wire after a Stream call that offered some deltas and had the first of them
  // accepted: the first delta ever offered commits the headers.
  function CallWire(wire: seq<Wire>, provider: string, canFlush: bool, offered: seq<Delta>,
                    accepted: seq<Delta>): seq<Wire> {
    if offered == [] || (wire == [] && !canFlush) then wire
    else (if wire == [] then [Headers(provider)] else wire) + Chunks(accepted)
  }

  lemma WireJoins(a: seq<Wire>, b: seq<Wire>, c: seq<Wire>)
    ensures a + (b + c) == (a + b) + c
  {
  }

  lemma WireOneMore(wire: seq<Wire>, provider: string, canFlush: bool, deltas: seq<Delta>, n: nat, ok: bool)
    requires n < |deltas| && (ok ==> wire != [] || canFlush)
    ensures CallWire(wire, provider, canFlush, deltas[..n + 1], if ok then deltas[..n + 1] else deltas[..n])
         == Written(CallWire(wire, provider, canFlush, deltas[..n], deltas[..n]), provider, deltas[n], canFlush, ok)
  {
    assert deltas[..n + 1][..n] == deltas[..n];
    var headed := if wire == [] then [Headers(provider)] else wire;
    assert headed + [] == headed;
    WireJoins(headed, Chunks(deltas[..n]), [Chunk(deltas[n].content, deltas[n].finish)]);
  }

  // ----- What a run leaves with the handler -----

  // One Stream call of a run.
  datatype Call = Call(provider: string, moment: nat, reply: Reply)

  function Offered(env: Env, c: Call): seq<Delta> {
    env.stream(c.moment).body
  }

  // What the callback collected: the deltas it accepted and the one it refused.
  function Heard(env: Env, c: Call): seq<Delta> {
    var offered, n := Offered(env, c), |c.reply.body|;
    if n < |offered| then offered[..n + 1] else offered
  }

  function WireOf(env: Env, calls: seq<Call>): seq<Wire> {
    if calls == [] then []
    else
      var c := calls[|calls| - 1];
      CallWire(WireOf(env, calls[..|calls| - 1]), c.provider, env.canFlush, Offered(env, c), c.reply.body)
  }

  function SeenOf(env: Env, calls: seq<Call>): seq<Delta> {
    if calls == [] then [] else SeenOf(env, calls[..|calls| - 1]) + Heard(env, calls[|calls| - 1])
  }

  function CallsOf(provider: string, acts: seq<Act>): seq<Call> {
    if acts == [] then []
    else CallsOf(provider, acts[..|acts| - 1])
         + if acts[|acts| - 1].CallAct? then [Call(provider, acts[|acts| - 1].moment, acts[|acts| - 1].reply)] else []
  }

  function Calls(blocks: seq<Block>): seq<Call> {
    if blocks == [] then []
    else Calls(blocks[..|blocks| - 1]) + CallsOf(blocks[|blocks| - 1].candidate.provider, blocks[|blocks| - 1].acts)
  }

  // The handler holds exactly what these calls left with it.
  ghost predicate Records(env: Env, h: StreamHandler, calls: seq<Call>)
    reads h
  {
    h.Valid() && h.canFlush == env.canFlush && h.wire == WireOf(env, calls) && h.seen == SeenOf(env, calls)
  }

  lemma CallsJoin(a: seq<Call>, b: seq<Call>, c: seq<Call>)
    ensures a + (b + c) == (a + b) + c
  {
  }

  lemma OneMoreCall(env: Env, calls: seq<Call>, c: Call)
    ensures WireOf(env, calls + [c])
         == CallWire(WireOf(env, calls), c.provider, env.canFlush, Offered(env, c), c.reply.body)
    ensures SeenOf(env, calls + [c]) == SeenOf(env, calls) + Heard(env, c)
  {
    assert (calls + [c])[..|calls|] == calls;
  }

  // Tokens of the deltas that carry content, from the first on.
  function TokensIn(count: string -> nat, deltas: seq<Delta>): int
    decreases |deltas|
  {
    if deltas == [] then 0
    else (if deltas[0].content != "" then count(deltas[0].content) else 0) + TokensIn(count, deltas[1..])
  }

  lemma {:induction false} CountsEachDelta(count: string -> nat, deltas: seq<Delta>)
    ensures Counted(count, deltas) == TokensIn(count, deltas)
    decreases |deltas|
  {
    if deltas != [] {
      CountsEachDelta(count, deltas[1..]);
      CountedJoins(count, [deltas[0]], deltas[1..]);
      CollectedOneMore(count, [], deltas[0]);
      assert [] + [deltas[0]] == [deltas[0]] && [deltas[0]] + deltas[1..] == deltas;
    }
  }

  // The usage a reply reports: the latest that one of its deltas carries.
  function Reported(deltas: seq<Delta>): Option<Usage>
    decreases |deltas|
  {
    if deltas == [] then None
    else if Reported(deltas[1..]).Some? then Reported(deltas[1..])
    else deltas[0].usage
  }

  lemma {:induction false} ReportedJoins(a: seq<Delta>, d: Delta)
    ensures Reported(a + [d]) == if d.usage.Some? then d.usage else Reported(a)
    decreases |a|
  {
    if a == [] {
      assert [] + [d] == [d] && [d][1..] == [];
    } else {
      ReportedJoins(a[1..], d);
      assert (a + [d])[1..] == a[1..] + [d];
    }
  }

  lemma {:induction false} LastUsageIsReported(deltas: seq<Delta>)
    ensures LastUsage(deltas) == Reported(deltas)
  {
    if deltas != [] {
      var front, d := deltas[..|deltas| - 1], deltas[|deltas| - 1];
      LastUsageIsReported(front);
      ReportedJoins(front, d);
      assert front + [d] == deltas;
    }
  }

  // ----- Relaying one Stream call -----

  // The first n deltas were accepted and the first m collected.
  ghost predicate Relaying(h: StreamHandler, provider: string, wire: seq<Wire>, seen: seq<Delta>, deltas: seq<Delta>,
                           n: nat, m: nat)
    reads h
  {
    && h.Valid() && n <= m <= |deltas| && h.seen == seen + deltas[..m]
    && h.wire == CallWire(wire, provider, h.canFlush, deltas[..m], deltas[..n])
  }

  method OfferNext(h: StreamHandler, provider: string, deltas: seq<Delta>, n: nat, writes: bool,
                   ghost wire: seq<Wire>, ghost seen: seq<Delta>)
    returns (ok: bool)
    requires n < |deltas| && Relaying(h, provider, wire, seen, deltas, n, n)
    modifies h
    ensures Relaying(h, provider, wire, seen, deltas, if ok then n + 1 else n, n + 1)
    ensures ok <==> h.canFlush && writes
  {
    assert (seen + deltas[..n]) + [deltas[n]] == seen + deltas[..n + 1];
    ok := h.OnDelta(provider, deltas[n], writes);
    WireOneMore(wire, provider, h.canFlush, deltas, n, ok);
  }

  /** Deltas reach the callback in order, at successive moments, until it cannot
      write one; the first n are accepted. */
  method OfferAll(env: Env, provider: string, h: StreamHandler, deltas: seq<Delta>, from: nat) returns (n: nat)
    requires h.Valid() && h.canFlush == env.canFlush
    modifies h
    ensures n <= |deltas|
    ensures Relaying(h, provider, old(h.wire), old(h.seen), deltas, n, if n < |deltas| then n + 1 else n)
    ensures (n > 0 ==> env.canFlush) && forall k: nat | from <= k < from + n :: env.write(k)
    ensures n < |deltas| ==> !(env.canFlush && env.write(from + n))
  {
    ghost var wire, seen := h.wire, h.seen;
    n := 0;
    var ok := true;
    assert seen + deltas[..0] == seen;
    while ok && n < |deltas|
      invariant n <= |deltas| && Relaying(h, provider, wire, seen, deltas, n, if ok then n else n + 1)
      invariant (n > 0 ==> env.canFlush) && forall k: nat | from <= k < from + n :: env.write(k)
      invariant !ok ==> n < |deltas| && !(env.canFlush && env.write(from + n))
      decreases ok, |deltas| - n
    {
      ok := OfferNext(h, provider, deltas, n, env.write(from + n), wire, seen);
      n := if ok then n + 1 else n;
    }
  }

  /** One Stream call: the reply is the provider's, or the accepted prefix with an
      error that has no status, and the handler holds exactly what it left. */
  method RelayStream(env: Env, provider: string, h: StreamHandler, ghost calls: seq<Call>,
                     clock: Clock) returns (reply: Reply, clk: Clock)
    requires Records(env, h, calls)
    modifies h
    ensures clk.tick > clock.tick && clk.now == clock.now && Relayed(env, clock.tick, reply)
    ensures Records(env, h, calls + [Call(provider, clock.tick, reply)])
  {
    var offered := env.stream(clock.tick);
    var n := OfferAll(env, provider, h, offered.body, clock.tick + 1);
    reply := if n < |offered.body| then Reply(Some(OtherError), offered.body[..n]) else offered;
    clk := Clock(clock.tick + 2 + n, clock.now);
    Accepts(env, clock.tick, n);
    OneMoreCall(env, calls, Call(provider, clock.tick, reply));
  }

  lemma Accepts(env: Env, moment: nat, n: nat)
    requires
      var offered := env.stream(moment).body;
      && n <= |offered| && (n > 0 ==> env.canFlush) && (forall k: nat | moment < k <= moment + n :: env.write(k))
      && (n < |offered| ==> !(env.canFlush && env.write(moment + 1 + n)))
    ensures
      var offered := env.stream(moment);
      var reply := if n < |offered.body| then Reply(Some(OtherError), offered.body[..n]) else offered;
      && Relayed(env, moment, reply) && offered.body[..n] == reply.body
      && offered.body[..if n < |offered.body| then n + 1 else n] == Heard(env, Call("", moment, reply))
      && (offered.body == [] <==> Heard(env, Call("", moment, reply)) == [])
  {
    var offered := env.stream(moment);
    assert offered.body[..|offered.body|] == offered.body;
  }

  // ----- The retry loop -----

  // What the breaker is told of a Stream call.
  method Tell(reply: Reply) returns (told: Option<bool>)
    ensures told == Verdict(reply)
  {
    told := None;
    if reply.err.None? {
      told := Some(true);
    } else if !Flushed(reply) && reply.err.value.Class() != Terminal {
      told := Some(false);
    }
  }

  // The breaker is told, and the call takes its place in the chain.
  method TakeReply(env: Env, c: Candidate, before: seq<Act>, ghost since: Clock, begun: Clock, ended: Clock,
                   ghost attempt: nat, reply: Reply)
    returns (stop: Option<Tried>, acts: seq<Act>, clk: Clock)
    requires env.streaming && attempt < env.maxAttempts && Poised(env, c, before, since, begun, attempt)
    requires ended.tick > begun.tick
    requires Relayed(env, begun.tick, reply)
    ensures clk.tick == ended.tick && clk.now >= begun.now && Turned(env, c, acts, since, clk, attempt, stop)
    ensures |acts| == |before| + 1 && acts[..|before|] == before
    ensures acts[|before|].CallAct? && acts[|before|].moment == begun.tick && acts[|before|].reply == reply
  {
    var told := Tell(reply);
    var a := Called(env, begun, c.provider, reply, told);
    acts, clk, stop := before + [a], Clock(ended.tick, a.end), Stops(reply);
    TurnEnds(env, c, before, since, begun, attempt, reply, told, clk);
  }

  lemma TurnEnds(env: Env, c: Candidate, before: seq<Act>, since: Clock, begun: Clock, attempt: nat, reply: Reply,
                 told: Option<bool>, clk: Clock)
    requires env.streaming && attempt < env.maxAttempts && Poised(env, c, before, since, begun, attempt)
    requires Relayed(env, begun.tick, reply) && told == Verdict(reply)
    requires begun.tick < clk.tick && clk.now == Called(env, begun, c.provider, reply, told).end
    ensures clk.now >= begun.now
    ensures Turned(env, c, before + [Called(env, begun, c.provider, reply, told)], since, clk, attempt, Stops(reply))
  {
    var a := Called(env, begun, c.provider, reply, told);
    CallFits(env, c, before, since, begun, attempt, reply, told);
    TurnShape(env, c, before + [a], since, clk, attempt, reply);
  }

  lemma TurnShape(env: Env, c: Candidate, acts: seq<Act>, since: Clock, clk: Clock, attempt: nat, reply: Reply)
    requires attempt < env.maxAttempts && |acts| == 2 * attempt + 1 && Chained(env, c, acts, since)
    requires NotBefore(clk, since)
    requires LastReply(acts) == reply && acts[|acts| - 1].CallAct? && acts[|acts| - 1].reply == reply
    requires Past(acts[|acts| - 1], clk)
    ensures Turned(env, c, acts, since, clk, attempt, Stops(reply))
  {
  }

  // Where one turn of the retry loop ends.
  ghost predicate Turned(env: Env, c: Candidate, acts: seq<Act>, since: Clock, clk: Clock, attempt: nat,
                         stop: Option<Tried>) {
    match stop
    case Some(out) => Finished(env, c, acts, since, clk, out) && out != Rejected
    case None =>
      && LastReply(acts).err.Some? && Retrying(env, c, acts, since, clk, attempt + 1, LastReply(acts).err.value)
      && (attempt + 1 == env.maxAttempts ==> Shaped(env, c, acts, since))
  }

  // One Stream call within its timeout.
  method CallStream(env: Env, c: Candidate, h: StreamHandler, ghost calls: seq<Call>, before: seq<Act>,
                    ghost since: Clock, clock: Clock, ghost attempt: nat)
    returns (stop: Option<Tried>, acts: seq<Act>, clk: Clock)
    requires env.streaming && attempt < env.maxAttempts && Poised(env, c, before, since, clock, attempt)
    requires Records(env, h, calls + CallsOf(c.provider, before))
    modifies h
    ensures clk.tick > clock.tick && clk.now >= clock.now && Turned(env, c, acts, since, clk, attempt, stop)
    ensures Records(env, h, calls + CallsOf(c.provider, acts))
  {
    var begun := Idle(env, clock);
    var reply, ended := RelayStream(env, c.provider, h, calls + CallsOf(c.provider, before), begun);
    stop, acts, clk := TakeReply(env, c, before, since, begun, ended, attempt, reply);
    CallJoins(calls, c.provider, before, acts);
  }

  // One turn of the streaming retry loop: back off unless first, call, and decide
  // whether to go on; content once sent always stops it.
  method AttemptStream(env: Env, c: Candidate, h: StreamHandler, ghost calls: seq<Call>, before: seq<Act>,
                       ghost since: Clock, clock: Clock,
                       attempt: nat, lastErr: CallError)
    returns (stop: Option<Tried>, acts: seq<Act>, clk: Clock)
    requires env.streaming && attempt < env.maxAttempts && Retrying(env, c, before, since, clock, attempt, lastErr)
    requires Records(env, h, calls + CallsOf(c.provider, before))
    modifies h
    ensures clk.tick > clock.tick && clk.now >= clock.now && Turned(env, c, acts, since, clk, attempt, stop)
    ensures Records(env, h, calls + CallsOf(c.provider, acts))
  {
    var go;
    go, acts, clk := BackOff(env, c, before, since, clock, attempt, lastErr);
    SleepIsNoCall(c.provider, before, acts);
    if !go {
      return Some(GaveUp(lastErr)), acts, clk;
    }
    stop, acts, clk := CallStream(env, c, h, calls, acts, since, clk, attempt);
  }

  // What a reply means for the loop.
  function Stops(reply: Reply): Option<Tried> {
    if reply.err.None? then Some(Served(reply.body))
    else if Flushed(reply) || reply.err.value.Class() != Retryable then Some(GaveUp(reply.err.value))
    else None
  }

  lemma SleepIsNoCall(provider: string, before: seq<Act>, acts: seq<Act>)
    requires acts == before || (|acts| == |before| + 1 && acts[..|before|] == before && acts[|before|].SleepAct?)
    ensures CallsOf(provider, acts) == CallsOf(provider, before)
  {
  }

  lemma CallJoins(calls: seq<Call>, provider: string, before: seq<Act>, acts: seq<Act>)
    requires |acts| == |before| + 1 && acts[..|before|] == before && acts[|before|].CallAct?
    ensures calls + CallsOf(provider, acts)
         == (calls + CallsOf(provider, before)) + [Call(provider, acts[|before|].moment, acts[|before|].reply)]
  {
    CallsJoin(calls, CallsOf(provider, before), [Call(provider, acts[|before|].moment, acts[|before|].reply)]);
  }

  /** The retry loop for one candidate of a streaming completion: it never calls
      again once content has been sent, and the handler holds what every call left. */
  method TryCandidateStream(env: Env, c: Candidate, h: StreamHandler, ghost calls: seq<Call>, clock: Clock)
    returns (out: Tried, acts: seq<Act>, clk: Clock)
    requires env.maxAttempts >= 1 && env.streaming && Records(env, h, calls)
    modifies h
    ensures clk.tick > clock.tick && clk.now >= clock.now
    ensures out == Rejected <==> !env.allow(clock.tick, c)
    ensures out == Rejected ==> acts == []
    ensures out != Rejected ==> Finished(env, c, acts, clock, clk, out)
    ensures Records(env, h, calls + CallsOf(c.provider, acts))
  {
    acts, clk := [], Clock(clock.tick + 1, clock.now);
    assert calls + CallsOf(c.provider, []) == calls;
    if !env.allow(clock.tick, c) {
      return Rejected, acts, clk;
    }
    var lastErr := OtherError;
    for attempt := 0 to env.maxAttempts
      invariant Retrying(env, c, acts, clock, clk, attempt, lastErr) && clk.tick > clock.tick
      invariant attempt == env.maxAttempts ==> Shaped(env, c, acts, clock)
      invariant Records(env, h, calls + CallsOf(c.provider, acts))
    {
      var stop;
      stop, acts, clk := AttemptStream(env, c, h, calls, acts, clock, clk, attempt, lastErr);
      if stop.Some? {
        return stop.value, acts, clk;
      }
      lastErr := LastReply(acts).err.value;
    }
    out := GaveUp(lastErr);
  }

  // ----- The walk -----

  // The candidate just picked is tried.
  method TryPickedStream(env: Env, ghost wired: set<string>, tiers: seq<Tier>, h: StreamHandler,
                         ghost blocks: seq<Block>, ghost since: Clock,
                         tier: nat, c: Candidate, clock: Clock)
    returns (out: Tried, b: Block)
    requires env.maxAttempts >= 1 && env.streaming && tier < |tiers| && Reaches(env, since, blocks, tier, clock)
    requires Records(env, h, Calls(blocks)) && Pickable(env, wired, tiers[tier], TriedIn(blocks, tier), clock.tick, c)
    modifies h
    ensures b.tier == tier && b.moment == clock.tick < b.end.tick && b.candidate == c
    ensures BlockFits(env, wired, tiers, since, blocks, b) && Ended(b, out)
    ensures Records(env, h, Calls(blocks + [b]))
  {
    var started := Clock(clock.tick + |tiers[tier]| + 1, clock.now);
    var acts, clk;
    out, acts, clk := TryCandidateStream(env, c, h, Calls(blocks), started);
    b := Block(tier, clock.tick, c, acts, clk);
    CallsGrow(blocks, b);
    TriedFits(env, wired, tiers, since, blocks, clock, started, b, out);
  }

  lemma CallsGrow(blocks: seq<Block>, b: Block)
    ensures Calls(blocks + [b]) == Calls(blocks) + CallsOf(b.candidate.provider, b.acts)
  {
    assert (blocks + [b])[..|blocks|] == blocks;
  }

  // The chosen candidate is tried: the request is settled, or the walk goes on.
  method VisitStream(env: Env, wired: set<string>, tiers: seq<Tier>, h: StreamHandler, ghost blocks: seq<Block>,
                     lastErr: EngineError, ghost since: Clock, tier: nat, c: Candidate, clock: Clock)
    returns (stop: Option<Result>, b: Block, err: EngineError)
    requires env.maxAttempts >= 1 && env.streaming && tier < |tiers|
    requires Walking(env, wired, tiers, since, blocks, tier, lastErr, clock)
    requires Records(env, h, Calls(blocks)) && Pickable(env, wired, tiers[tier], TriedIn(blocks, tier), clock.tick, c)
    modifies h
    ensures b.tier == tier && b.candidate == c && b.moment == clock.tick < b.end.tick
    ensures Onward(env, wired, tiers, since, blocks + [b], tier, stop, err, b.end)
    ensures Records(env, h, Calls(blocks + [b]))
  {
    var out;
    out, b := TryPickedStream(env, wired, tiers, h, blocks, since, tier, c, clock);
    CandidateJoins(env, wired, tiers, since, blocks, lastErr, clock, b, out);
    stop, err := Answer(env, b, out), Remembered(lastErr, out);
  }

  // One tier: candidates are picked and tried until one settles the request or
  // nobody is left to choose.
  method WalkTierStream(env: Env, wired: set<string>, tiers: seq<Tier>, h: StreamHandler, walked: seq<Block>,
                        ghost exits: seq<Exit>,
                        lastErr: EngineError, ghost since: Clock, k: nat, clock: Clock)
    returns (stop: Option<Result>, blocks: seq<Block>, err: EngineError, clk: Clock, tried: set<string>)
    requires env.maxAttempts >= 1 && env.streaming && k == |exits| < |tiers| && NonNegative(tiers[k])
    requires TriedIn(walked, k) == {}
    requires Walking(env, wired, tiers, since, walked, k, lastErr, clock)
    requires Leaving(env, wired, tiers, since, walked, exits, clock)
    requires Records(env, h, Calls(walked))
    modifies h
    ensures Leaving(env, wired, tiers, since, blocks, exits, clk)
    ensures Onward(env, wired, tiers, since, blocks, k, stop, err, clk)
    ensures stop.None? ==> tried == TriedIn(blocks, k) && Drained(env.ready, wired, tiers[k], tried, clk.tick)
    ensures Records(env, h, Calls(blocks))
  {
    blocks, err, clk, tried := walked, lastErr, clock, {};
    while true
      invariant tried == TriedIn(blocks, k) && Leaving(env, wired, tiers, since, blocks, exits, clk)
      invariant Walking(env, wired, tiers, since, blocks, k, err, clk) && Records(env, h, Calls(blocks))
      decreases Providers(tiers[k]) - tried
    {
      var pick := PickFromTier(env.ready, wired, tiers[k], tried, clk.tick, env.draw(clk.tick + |tiers[k]|));
      if pick.None? {
        return None, blocks, err, clk, tried;
      }
      var c := pick.value;
      assert c.provider in Providers(tiers[k]);
      var b;
      stop, b, err := VisitStream(env, wired, tiers, h, blocks, err, since, k, c, clk);
      TierGoesOn(env, wired, tiers, since, blocks, exits, clk, b);
      TriedGrows(blocks, b, k);
      blocks, tried, clk := blocks + [b], tried + {c.provider}, b.end;
      if stop.Some? {
        return;
      }
    }
  }

  /** The streaming walk: the grammar and the answers of the plain one, and the
      handler is left holding exactly what the calls of the run put there. */
  method ExecuteStream(env: Env, wired: set<string>, tiers: seq<Tier>, h: StreamHandler, clock: Clock)
    returns (res: Result, blocks: seq<Block>, exits: seq<Exit>)
    requires env.maxAttempts >= 1 && env.streaming && (forall k | 0 <= k < |tiers| :: NonNegative(tiers[k]))
    requires Records(env, h, [])
    modifies h
    ensures Walked(env, wired, tiers, clock, blocks) && Left(env, wired, tiers, clock, blocks, exits)
    ensures Explains(env, tiers, blocks, |exits|, res) && Records(env, h, Calls(blocks))
  {
    blocks, exits := [], [];
    var lastErr, clk := NoHealthyProvider, clock;
    for k := 0 to |tiers|
      invariant |exits| == k && TriedIn(blocks, k) == {} && Leaving(env, wired, tiers, clock, blocks, exits, clk)
      invariant Walking(env, wired, tiers, clock, blocks, k, lastErr, clk) && Records(env, h, Calls(blocks))
    {
      var stop, tried;
      stop, blocks, lastErr, clk, tried := WalkTierStream(env, wired, tiers, h, blocks, exits, lastErr, clock, k, clk);
      if stop.Some? {
        return stop.value, blocks, exits;
      }
      ExitTier(env, wired, tiers, clock, blocks, exits, lastErr, clk);
      exits, clk := exits + [Exit(clk.tick, tried)], Clock(clk.tick + |tiers[k]|, clk.now);
    }
    WalkEnds(env, wired, tiers, clock, blocks, lastErr, clk);
    res := Failed(lastErr, false);
  }

  // ----- What the client holds -----

  ghost predicate AllRelayed(env: Env, calls: seq<Call>) {
    forall i | 0 <= i < |calls| :: Relayed(env, calls[i].moment, calls[i].reply)
  }

  // Tokens of the delta the callback refused: counted before the write failed.
  function Spilled(env: Env, count: string -> nat, c: Call): nat {
    var offered, n := Offered(env, c), |c.reply.body|;
    if n < |offered| && offered[n].content != "" then count(offered[n].content) else 0
  }

  lemma SentOneMore(wire: seq<Wire>, d: Delta)
    ensures Sent(wire + [Chunk(d.content, d.finish)]) == Sent(wire) + d.content
  {
    assert (wire + [Chunk(d.content, d.finish)])[..|wire|] == wire;
  }

  lemma {:induction false} SentByChunks(wire: seq<Wire>, accepted: seq<Delta>)
    ensures Sent(wire + Chunks(accepted)) == Sent(wire) + Content(accepted)
  {
    if accepted == [] {
      assert wire + [] == wire && Sent(wire) + "" == Sent(wire);
    } else {
      var front, d := accepted[..|accepted| - 1], accepted[|accepted| - 1];
      WireJoins(wire, Chunks(front), [Chunk(d.content, d.finish)]);
      SentOneMore(wire + Chunks(front), d);
      SentByChunks(wire, front);
      Associates(Sent(wire), Content(front), d.content);
    }
  }

  lemma SentByCall(env: Env, wire: seq<Wire>, c: Call)
    requires Relayed(env, c.moment, c.reply)
    ensures Sent(CallWire(wire, c.provider, env.canFlush, Offered(env, c), c.reply.body))
              == Sent(wire) + Content(c.reply.body)
  {
    assert Sent(wire) + "" == Sent(wire);
    assert [Headers(c.provider)][..0] == [];
    SentByChunks(if wire == [] then [Headers(c.provider)] else wire, c.reply.body);
  }

  // What a call leaves with the callback: the accepted deltas, and a refused one.
  lemma HeardCounts(env: Env, count: string -> nat, c: Call)
    requires Relayed(env, c.moment, c.reply)
    ensures Counted(count, Heard(env, c)) == Counted(count, c.reply.body) + Spilled(env, count, c)
    ensures c.reply.err.None? || Harmless(c.reply) ==> Heard(env, c) == c.reply.body && Spilled(env, count, c) == 0
  {
    var offered, n := Offered(env, c), |c.reply.body|;
    if n < |offered| {
      assert offered[..n + 1][..n] == offered[..n];
    }
  }

  lemma {:induction false} SilentCalls(env: Env, count: string -> nat, calls: seq<Call>)
    requires AllRelayed(env, calls) && forall i | 0 <= i < |calls| :: Harmless(calls[i].reply)
    ensures Content(SeenOf(env, calls)) == "" && Counted(count, SeenOf(env, calls)) == 0
    ensures Sent(WireOf(env, calls)) == ""
  {
    if calls != [] {
      var front, c := calls[..|calls| - 1], calls[|calls| - 1];
      SilentCalls(env, count, front);
      HeardCounts(env, count, c);
      FlushedMeansContent(c.reply);
      ContentJoins(SeenOf(env, front), Heard(env, c));
      SilenceCountsNothing(count, SeenOf(env, calls));
      SentByCall(env, WireOf(env, front), c);
    }
  }

  // With silence before it, the last call alone is what the client holds.
  lemma LastCallDelivers(env: Env, count: string -> nat, calls: seq<Call>)
    requires calls != [] && AllRelayed(env, calls) && forall i | 0 <= i < |calls| - 1 :: Harmless(calls[i].reply)
    ensures
      var c := calls[|calls| - 1];
      && Sent(WireOf(env, calls)) == Content(c.reply.body)
      && Counted(count, SeenOf(env, calls)) == Counted(count, c.reply.body) + Spilled(env, count, c)
      && (c.reply.err.None? ==> Content(SeenOf(env, calls)) == Content(c.reply.body) && Spilled(env, count, c) == 0)
  {
    var front, c := calls[..|calls| - 1], calls[|calls| - 1];
    SilentCalls(env, count, front);
    HeardCounts(env, count, c);
    ContentJoins(SeenOf(env, front), Heard(env, c));
    CountedJoins(count, SeenOf(env, front), Heard(env, c));
    SentByCall(env, WireOf(env, front), c);
    assert "" + Content(c.reply.body) == Content(c.reply.body);
  }

  lemma {:induction false} CallsOfChain(env: Env, c: Candidate, acts: seq<Act>, since: Clock, provider: string)
    requires env.streaming && Chained(env, c, acts, since)
    ensures AllRelayed(env, CallsOf(provider, acts)) && |CallsOf(provider, acts)| == |RepliesOf(acts)|
    ensures forall i | 0 <= i < |RepliesOf(acts)| :: CallsOf(provider, acts)[i].reply == RepliesOf(acts)[i]
  {
    if acts != [] {
      CallsOfChain(env, c, acts[..|acts| - 1], since, provider);
    }
  }

  lemma {:induction false} CallsOfRun(env: Env, since: Clock, blocks: seq<Block>)
    requires env.streaming && Ordered(env, since, blocks)
    ensures AllRelayed(env, Calls(blocks)) && |Calls(blocks)| == |Replies(blocks)|
    ensures forall i | 0 <= i < |Replies(blocks)| :: Calls(blocks)[i].reply == Replies(blocks)[i]
  {
    if blocks != [] {
      var front, b := blocks[..|blocks| - 1], blocks[|blocks| - 1];
      CallsOfRun(env, since, front);
      CallsOfChain(env, b.candidate, b.acts, Reached(since, front), b.candidate.provider);
      MatchJoins(env, Calls(front), Replies(front), CallsOf(b.candidate.provider, b.acts), RepliesOf(b.acts));
    }
  }

  lemma MatchJoins(env: Env, calls: seq<Call>, replies: seq<Reply>, calls': seq<Call>, replies': seq<Reply>)
    requires AllRelayed(env, calls) && AllRelayed(env, calls') && |calls| == |replies| && |calls'| == |replies'|
    requires forall i | 0 <= i < |replies| :: calls[i].reply == replies[i]
    requires forall i | 0 <= i < |replies'| :: calls'[i].reply == replies'[i]
    ensures AllRelayed(env, calls + calls') && |calls + calls'| == |replies + replies'|
    ensures forall i | 0 <= i < |replies + replies'| :: (calls + calls')[i].reply == (replies + replies')[i]
  {
  }

  // What the client holds at the end of a run: on success exactly what was
  // collected and answered; after a flushed failure the content of the last call;
  // else nothing.
  ghost predicate Delivered(env: Env, count: string -> nat, calls: seq<Call>, res: Result) {
    var sent, seen := Sent(WireOf(env, calls)), SeenOf(env, calls);
    match res
    case Completed(_, body) => sent == Content(body) == Content(seen) && Counted(count, seen) == Counted(count, body)
    case Failed(_, flushed) =>
      if !flushed then sent == ""
      else && calls != []
           && var c := calls[|calls| - 1];
              && sent == Content(c.reply.body) != ""
              && Counted(count, seen) == Counted(count, c.reply.body) + Spilled(env, count, c)
  }

  /** In every streaming run the client holds exactly the content of the last call if
      it was answered or flushed, and nothing otherwise; what was counted is that and
      the delta a failed write refused. */
  lemma RunDelivers(env: Env, wired: set<string>, tiers: seq<Tier>, since: Clock, blocks: seq<Block>, left: nat,
                    res: Result, count: string -> nat)
    requires env.streaming && Walked(env, wired, tiers, since, blocks) && Explains(env, tiers, blocks, left, res)
    ensures Delivered(env, count, Calls(blocks), res)
  {
    WalkedIsOrdered(env, wired, tiers, since, blocks);
    CallsOfRun(env, since, blocks);
    OneReplyCounts(env, tiers, since, blocks, left, res);
    CallsDeliver(env, count, Calls(blocks), Replies(blocks), res);
  }

  lemma CallsDeliver(env: Env, count: string -> nat, calls: seq<Call>, replies: seq<Reply>, res: Result)
    requires AllRelayed(env, calls) && |calls| == |replies|
    requires forall i | 0 <= i < |replies| :: calls[i].reply == replies[i]
    requires OnlyLastCounts(replies)
    requires res.Completed? ==> replies != [] && replies[|replies| - 1] == Reply(None, res.body)
    requires res.Failed? ==> (res.flushed <==> exists i :: 0 <= i < |replies| && Flushed(replies[i]))
    ensures Delivered(env, count, calls, res)
  {
    if calls != [] {
      LastCallDelivers(env, count, calls);
      FlushedMeansContent(calls[|calls| - 1].reply);
    }
  }

  // Some provider offered a delta, empty or not.
  predicate AnyOffer(env: Env, calls: seq<Call>) {
    exists i :: 0 <= i < |calls| && Offered(env, calls[i]) != []
  }

  /** Event-stream headers are out exactly when the writer can stream and some call
      offered a delta, with or without content. */
  lemma {:induction false} WireStarts(env: Env, calls: seq<Call>)
    ensures WireOf(env, calls) != [] <==> env.canFlush && AnyOffer(env, calls)
  {
    if calls != [] {
      var front, c := calls[..|calls| - 1], calls[|calls| - 1];
      WireStarts(env, front);
      assert AnyOffer(env, calls) <==> AnyOffer(env, front) || Offered(env, c) != [] by {
        assert forall i | 0 <= i < |front| :: front[i] == calls[i];
        if AnyOffer(env, front) {
          var i :| 0 <= i < |front| && Offered(env, front[i]) != [];
          assert Offered(env, calls[i]) != [];
        }
      }
    }
  }

  lemma {:induction false} ChunksStream(wire: seq<Wire>, accepted: seq<Delta>)
    requires Streamed(wire) && wire != []
    ensures Streamed(wire + Chunks(accepted))
  {
    if accepted != [] {
      var front, d := accepted[..|accepted| - 1], accepted[|accepted| - 1];
      ChunksStream(wire, front);
      WireJoins(wire, Chunks(front), [Chunk(d.content, d.finish)]);
    } else {
      assert wire + [] == wire;
    }
  }

  // The wire of a run is nothing, or the headers and then chunks.
  lemma {:induction false} WireIsStream(env: Env, calls: seq<Call>)
    ensures Streamed(WireOf(env, calls))
  {
    if calls != [] {
      var front, c := calls[..|calls| - 1], calls[|calls| - 1];
      WireIsStream(env, front);
      var wire := WireOf(env, front);
      ChunksStream(if wire == [] then [Headers(c.provider)] else wire, c.reply.body);
    }
  }

  /** What a Stream call gives back: all the provider sent if and only if the client
      could be written every delta of it, and otherwise those before the first that
      could not, with an error without a status. */
  lemma RelayedExactly(env: Env, moment: nat, reply: Reply)
    requires Relayed(env, moment, reply)
    ensures
      var sent, n := env.stream(moment), |reply.body|;
      && (reply == sent <==>
            sent.body == [] || (env.canFlush && forall k: nat | moment < k <= moment + |sent.body| :: env.write(k)))
      && (reply != sent ==>
            && n < |sent.body| && reply == Reply(Some(OtherError), sent.body[..n])
            && !(env.canFlush && env.write(moment + 1 + n))
            && forall k: nat | moment < k <= moment + n :: env.canFlush && env.write(k))
  {
  }

  // Every delta the client was written, call by call.
  function Accepted(calls: seq<Call>): seq<Delta> {
    if calls == [] then [] else Accepted(calls[..|calls| - 1]) + calls[|calls| - 1].reply.body
  }

  // A chunk for each, with its content and its finish reason.
  ghost predicate Carries(wire: seq<Wire>, deltas: seq<Delta>) {
    |wire| == |deltas| && forall i | 0 <= i < |deltas| :: wire[i] == Chunk(deltas[i].content, deltas[i].finish)
  }

  lemma {:induction false} ChunksCarry(deltas: seq<Delta>)
    ensures Carries(Chunks(deltas), deltas)
  {
    if deltas != [] {
      ChunksCarry(deltas[..|deltas| - 1]);
    }
  }

  lemma CarriesJoin(a: seq<Wire>, b: seq<Wire>, c: seq<Delta>, d: seq<Delta>)
    requires Carries(a, c) && Carries(b, d)
    ensures Carries(a + b, c + d)
  {
  }

  lemma CallCarries(wire: seq<Wire>, before: seq<Delta>, provider: string, canFlush: bool, offered: seq<Delta>,
                    accepted: seq<Delta>)
    requires |accepted| <= |offered| && (accepted != [] ==> canFlush)
    requires if wire == [] then before == [] else Carries(wire[1..], before)
    ensures
      var next := CallWire(wire, provider, canFlush, offered, accepted);
      if next == [] then before + accepted == [] else Carries(next[1..], before + accepted)
  {
    if offered == [] || (wire == [] && !canFlush) {
      assert before + accepted == before;
    } else {
      var headed := if wire == [] then [Headers(provider)] else wire;
      ChunksCarry(accepted);
      CarriesJoin(headed[1..], Chunks(accepted), before, accepted);
      assert (headed + Chunks(accepted))[1..] == headed[1..] + Chunks(accepted);
    }
  }

  /** After its headers the client is sent exactly one chunk for every accepted delta
      of every call, in order, whole. */
  lemma {:induction false} WireCarriesAccepted(env: Env, calls: seq<Call>)
    requires AllRelayed(env, calls)
    ensures WireOf(env, calls) == [] ==> Accepted(calls) == []
    ensures WireOf(env, calls) != [] ==> Carries(WireOf(env, calls)[1..], Accepted(calls))
  {
    if calls != [] {
      var front, c := calls[..|calls| - 1], calls[|calls| - 1];
      WireCarriesAccepted(env, front);
      assert Relayed(env, c.moment, c.reply);
      CallCarries(WireOf(env, front), Accepted(front), c.provider, env.canFlush, Offered(env, c), c.reply.body);
    }
  }

  // ----- Whose headers, whose finish -----

  // The first call that offered a delta went to this provider.
  ghost predicate OffersFirst(env: Env, calls: seq<Call>, provider: string) {
    exists i :: FirstOfferAt(env, calls, i) && calls[i].provider == provider
  }

  predicate FirstOfferAt(env: Env, calls: seq<Call>, i: int) {
    0 <= i < |calls| && Offered(env, calls[i]) != [] && forall j | 0 <= j < i :: Offered(env, calls[j]) == []
  }

  /** The headers name the provider of the first call that offered a delta. */
  lemma {:induction false} HeadersName(env: Env, calls: seq<Call>, i: int)
    requires FirstOfferAt(env, calls, i) && env.canFlush
    ensures WireOf(env, calls) != [] && WireOf(env, calls)[0] == Headers(calls[i].provider)
  {
    var front := calls[..|calls| - 1];
    if i < |front| {
      assert forall j | 0 <= j < |front| :: front[j] == calls[j];
      HeadersName(env, front, i);
    } else {
      NothingOffered(env, front);
    }
  }

  lemma {:induction false} NothingOffered(env: Env, calls: seq<Call>)
    requires forall j | 0 <= j < |calls| :: Offered(env, calls[j]) == []
    ensures WireOf(env, calls) == []
  {
    if calls != [] {
      NothingOffered(env, calls[..|calls| - 1]);
    }
  }

  lemma {:induction false} SomeFirst(env: Env, calls: seq<Call>) returns (i: int)
    requires AnyOffer(env, calls)
    ensures FirstOfferAt(env, calls, i)
  {
    var k :| 0 <= k < |calls| && Offered(env, calls[k]) != [];
    var front := calls[..|calls| - 1];
    if AnyOffer(env, front) {
      i := SomeFirst(env, front);
      assert forall j | 0 <= j < |front| :: front[j] == calls[j];
    } else {
      i := |calls| - 1;
      forall j | 0 <= j < i ensures Offered(env, calls[j]) == [] {
        assert front[j] == calls[j];
      }
    }
  }

  /** Headers that are out name a provider exactly when its call was the first to
      offer a delta, with or without content, whether or not it went on to fail. */
  lemma HeadersNameFirst(env: Env, calls: seq<Call>, provider: string)
    requires WireOf(env, calls) != []
    ensures WireOf(env, calls)[0] == Headers(provider) <==> OffersFirst(env, calls, provider)
  {
    WireStarts(env, calls);
    var i := SomeFirst(env, calls);
    HeadersName(env, calls, i);
    if OffersFirst(env, calls, provider) {
      var j :| FirstOfferAt(env, calls, j) && calls[j].provider == provider;
      HeadersName(env, calls, j);
    }
  }

  lemma {:induction false} LastFinishJoins(a: seq<Delta>, b: seq<Delta>)
    ensures LastFinish(a + b) == if LastFinish(b) != "" then LastFinish(b) else LastFinish(a)
  {
    if b == [] {
      assert a + b == a;
    } else {
      LastFinishJoins(a, b[..|b| - 1]);
      assert (a + b)[..|a + b| - 1] == a + b[..|b| - 1];
    }
  }

  // A finish reason as it is stored, "stop" unless one was named.
  function Named(finish: string): string {
    if finish == "" then "stop" else finish
  }

  /** After an answered run the collected finish reason is the answer's own exactly
      when the answering call named one or no failed call before it left another. */
  lemma FinishIsOwn(env: Env, count: string -> nat, calls: seq<Call>)
    requires calls != [] && var c := calls[|calls| - 1]; Relayed(env, c.moment, c.reply) && c.reply.err.None?
    ensures
      var own, before := LastFinish(calls[|calls| - 1].reply.body), LastFinish(SeenOf(env, calls[..|calls| - 1]));
      Named(LastFinish(SeenOf(env, calls))) == Named(own) <==> own != "" || Named(before) == "stop"
  {
    var c := calls[|calls| - 1];
    HeardCounts(env, count, c);
    LastFinishJoins(SeenOf(env, calls[..|calls| - 1]), c.reply.body);
  }
}
