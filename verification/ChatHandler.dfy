/** One chat completion from admission to settlement: reserve, consult the caches,
    run the engine, answer, and reconcile the reservation. */
module ChatHandler {
  import opened Wrappers
  import opened Router
  import opened Selection
  import opened Attempts
  import opened Engine
  import opened Streaming
  import TokenBuckets
  import TickingBuckets
  import Settlement
  import Limiter

  // A complete response as the caches keep it.
  datatype Answer = Answer(content: string, finish: string, usage: Usage)

  // A request: its scopes, its token estimates, what the caches hold for it and
  // whether its own answer may be stored, when it reaches the limiter and whether
  // Redis is there, and whether the last event of its response can be written.
  datatype Chat = Chat(s: TokenBuckets.Scopes, promptTokens: int, maxTokens: Option<int>, estimate: int,
                       cached: Option<Answer>, storable: bool,
                       askAt: real, askUp: bool, settleAt: real, settleUp: bool, closes: bool)
  {
    // The estimate it reserves.
    function Cost(): int {
      promptTokens + if maxTokens.Some? then maxTokens.value else estimate
    }

    function Arrival(): Settlement.Event {
      Settlement.Arrive(s, Cost() as real, askAt, askUp)
    }

    function Settling(request: nat, charge: int): Settlement.Event {
      Settlement.Settle(request, charge as real, settleAt, settleUp)
    }
  }

  // What a request leaves in the caches and with the client.
  datatype Effects = Effects(stored: Option<Answer>, wire: seq<Wire>)

  // ----- The effects of a run -----

  function Total(u: Usage): int {
    u.prompt + u.completion
  }

  // The usage of an answered stream: the provider's own count if it sent one, else
  // what was counted on the way past.
  function StreamUsage(promptTokens: int, counted: int, body: seq<Delta>): Usage {
    if LastUsage(body).Some? then LastUsage(body).value else Usage(promptTokens, counted)
  }

  function PlainUsage(body: seq<Delta>): Usage {
    if LastUsage(body).Some? then LastUsage(body).value else Usage(0, 0)
  }

  // What the reservation is settled to.
  function StreamCharge(promptTokens: int, counted: int, r: Result): int {
    match r
    case Completed(_, body) => Total(StreamUsage(promptTokens, counted, body))
    case Failed(_, flushed) => if flushed then promptTokens + counted else 0
  }

  function PlainCharge(r: Result): int {
    match r
    case Completed(_, body) => Total(PlainUsage(body))
    case Failed(_, _) => 0
  }

  // What the caches are given: for a stream, what the callback collected.
  function StreamStored(promptTokens: int, storable: bool, seen: Totals, r: Result): Option<Answer> {
    if r.Failed? || !storable then None
    else Some(Answer(seen.content, Named(seen.finish), StreamUsage(promptTokens, seen.tokens, r.body)))
  }

  function PlainStored(storable: bool, r: Result): Option<Answer> {
    if r.Failed? || !storable then None else Some(Answer(Content(r.body), LastFinish(r.body), PlainUsage(r.body)))
  }

  // The last event of a response, if it could be written: write errors are ignored.
  function ClosedBy(wire: seq<Wire>, last: Wire, closes: bool): seq<Wire> {
    if closes then wire + [last] else wire
  }

  function StreamClosing(r: Result): Wire {
    match r
    case Completed(_, _) => DoneMark
    case Failed(_, flushed) => if flushed then ErrorEvent else JsonError
  }

  function PlainClosing(r: Result): Wire {
    if r.Completed? then JsonResponse(Content(r.body)) else JsonError
  }

  function CachedWire(a: Answer, canFlush: bool, closes: bool): seq<Wire> {
    if canFlush then ClosedBy([Headers(""), Chunk(a.content, ""), Chunk("", Named(a.finish))], DoneMark, closes)
    else ClosedBy([], JsonResponse(a.content), closes)
  }

  // What everything collected in a run amounts to.
  ghost function Seen(env: Env, count: string -> nat, blocks: seq<Block>): Totals {
    Collected(count, SeenOf(env, Calls(blocks)))
  }

  // A cached answer has no result.
  ghost function Charge(env: Env, count: string -> nat, q: Chat, res: Option<Result>, blocks: seq<Block>): int {
    match res
    case None => 0
    case Some(r) =>
      if env.streaming then StreamCharge(q.promptTokens, Seen(env, count, blocks).tokens, r) else PlainCharge(r)
  }

  ghost function Stored(env: Env, count: string -> nat, q: Chat, res: Option<Result>,
                        blocks: seq<Block>): Option<Answer> {
    match res
    case None => None
    case Some(r) =>
      if env.streaming then StreamStored(q.promptTokens, q.storable, Seen(env, count, blocks), r)
      else PlainStored(q.storable, r)
  }

  ghost function Response(env: Env, q: Chat, res: Option<Result>, blocks: seq<Block>): seq<Wire> {
    match res
    case None => if q.cached.None? then [] else CachedWire(q.cached.value, env.streaming && env.canFlush, q.closes)
    case Some(r) =>
      if env.streaming then ClosedBy(WireOf(env, Calls(blocks)), StreamClosing(r), q.closes)
      else ClosedBy([], PlainClosing(r), q.closes)
  }

  ghost function EffectsOf(env: Env, count: string -> nat, q: Chat, res: Option<Result>, blocks: seq<Block>): Effects {
    Effects(Stored(env, count, q, res, blocks), Response(env, q, res, blocks))
  }

  // The engine's run and its result.
  ghost predicate Ran(env: Env, wired: set<string>, tiers: seq<Tier>, since: Clock, blocks: seq<Block>,
                      exits: seq<Exit>, r: Result) {
    && Walked(env, wired, tiers, since, blocks) && Left(env, wired, tiers, since, blocks, exits)
    && Explains(env, tiers, blocks, |exits|, r) && (!env.streaming && r.Failed? ==> !r.flushed)
  }

  // A request served from the caches, or by a run.
  ghost predicate Answers(env: Env, wired: set<string>, tiers: seq<Tier>, since: Clock, cached: Option<Answer>,
                          res: Option<Result>, blocks: seq<Block>, exits: seq<Exit>) {
    match res
    case None => cached.Some? && blocks == []
    case Some(r) => cached.None? && Ran(env, wired, tiers, since, blocks, exits, r)
  }

  // ----- The handlers -----

  // The end of a streaming request, from what the callback left behind.
  method ConcludeStream(h: StreamHandler, q: Chat, r: Result) returns (e: Effects, actual: int)
    ensures actual == StreamCharge(q.promptTokens, h.completionTokens, r)
    ensures
      var seen := Totals(h.fullContent, h.completionTokens, h.finishReason);
      e.stored == StreamStored(q.promptTokens, q.storable, seen, r)
    ensures e.wire == ClosedBy(h.wire, StreamClosing(r), q.closes)
  {
    match r
    case Completed(_, body) =>
      var finish := if h.finishReason == "" then "stop" else h.finishReason;
      var usage := StreamUsage(q.promptTokens, h.completionTokens, body);
      actual := usage.prompt + usage.completion;
      e := Effects(if q.storable then Some(Answer(h.fullContent, finish, usage)) else None,
                   ClosedBy(h.wire, DoneMark, q.closes));
    case Failed(_, flushed) =>
      actual := if flushed then q.promptTokens + h.completionTokens else 0;
      e := Effects(None, ClosedBy(h.wire, if flushed then ErrorEvent else JsonError, q.closes));
  }

  method ConcludePlain(q: Chat, r: Result) returns (e: Effects, actual: int)
    ensures actual == PlainCharge(r)
    ensures e.stored == PlainStored(q.storable, r) && e.wire == ClosedBy([], PlainClosing(r), q.closes)
  {
    match r
    case Completed(_, body) =>
      var usage, content := PlainUsage(body), Content(body);
      actual := usage.prompt + usage.completion;
      e := Effects(if q.storable then Some(Answer(content, LastFinish(body), usage)) else None,
                   ClosedBy([], JsonResponse(content), q.closes));
    case Failed(_, _) =>
      actual := 0;
      e := Effects(None, ClosedBy([], JsonError, q.closes));
  }

  // The request holds its reservation and its turn to settle has come.
  ghost predicate Reserved(limiter: Limiter.RateLimiter, request: nat, q: Chat)
    reads limiter, limiter.redis
  {
    && limiter.Valid() && request < |limiter.reservations|
    && limiter.reservations[request] == Some(Settlement.Reservation(q.s, q.Cost() as real))
    && limiter.Sys().clock <= q.settleAt
  }

  // The one Adjust of a request.
  method Settle(limiter: Limiter.RateLimiter, request: nat, q: Chat, actual: int)
    requires Reserved(limiter, request, q)
    modifies limiter`history, limiter`reservations, limiter.redis
    ensures limiter.Valid() && limiter.history == old(limiter.history) + [q.Settling(request, actual)]
  {
    assert q.Cost() as real - (q.Cost() - actual) as real == actual as real;
    limiter.Adjust(request, (q.Cost() - actual) as real, q.settleAt, q.settleUp);
  }

  // A streaming request served from the caches or by a run.
  method ServeStream(env: Env, wired: set<string>, tiers: seq<Tier>, clock: Clock, h: StreamHandler, q: Chat)
    returns (e: Effects, actual: int, res: Option<Result>, blocks: seq<Block>, exits: seq<Exit>)
    requires env.maxAttempts >= 1 && env.streaming && (forall k | 0 <= k < |tiers| :: NonNegative(tiers[k]))
    requires h.Valid() && h.seen == [] && h.wire == [] && h.canFlush == env.canFlush
    modifies h
    ensures Answers(env, wired, tiers, clock, q.cached, res, blocks, exits)
    ensures e == EffectsOf(env, h.count, q, res, blocks) && actual == Charge(env, h.count, q, res, blocks)
  {
    if q.cached.Some? {
      return Effects(None, CachedWire(q.cached.value, h.canFlush, q.closes)), 0, None, [], [];
    }
    var r;
    r, blocks, exits := ExecuteStream(env, wired, tiers, h, clock);
    res := Some(r);
    e, actual := ConcludeStream(h, q, r);
  }

  // So is a plain one.
  method ServePlain(env: Env, wired: set<string>, tiers: seq<Tier>, clock: Clock, ghost count: string -> nat, q: Chat)
    returns (e: Effects, actual: int, res: Option<Result>, blocks: seq<Block>, exits: seq<Exit>)
    requires env.maxAttempts >= 1 && !env.streaming && (forall k | 0 <= k < |tiers| :: NonNegative(tiers[k]))
    ensures Answers(env, wired, tiers, clock, q.cached, res, blocks, exits)
    ensures e == EffectsOf(env, count, q, res, blocks) && actual == Charge(env, count, q, res, blocks)
  {
    if q.cached.Some? {
      return Effects(None, CachedWire(q.cached.value, false, q.closes)), 0, None, [], [];
    }
    var r;
    r, blocks, exits := Execute(env, wired, tiers, clock);
    res := Some(r);
    e, actual := ConcludePlain(q, r);
  }

  /** A streaming request after admission settles exactly once, and does exactly what
      the cached answer or its run of the engine calls for. */
  method HandleStreaming(env: Env, wired: set<string>, tiers: seq<Tier>, clock: Clock, h: StreamHandler, q: Chat,
                         limiter: Limiter.RateLimiter, request: nat)
    returns (e: Effects, res: Option<Result>, blocks: seq<Block>, exits: seq<Exit>)
    requires env.maxAttempts >= 1 && env.streaming && (forall k | 0 <= k < |tiers| :: NonNegative(tiers[k]))
    requires h.Valid() && h.seen == [] && h.wire == [] && h.canFlush == env.canFlush && Reserved(limiter, request, q)
    modifies h, limiter`history, limiter`reservations, limiter.redis
    ensures Answers(env, wired, tiers, clock, q.cached, res, blocks, exits)
    ensures e == EffectsOf(env, h.count, q, res, blocks)
    ensures limiter.Valid()
    ensures limiter.history == old(limiter.history) + [q.Settling(request, Charge(env, h.count, q, res, blocks))]
  {
    var actual;
    e, actual, res, blocks, exits := ServeStream(env, wired, tiers, clock, h, q);
    Settle(limiter, request, q, actual);
  }

  /** So does a plain one. */
  method HandlePlain(env: Env, wired: set<string>, tiers: seq<Tier>, clock: Clock, ghost count: string -> nat, q: Chat,
                     limiter: Limiter.RateLimiter, request: nat)
    returns (e: Effects, res: Option<Result>, blocks: seq<Block>, exits: seq<Exit>)
    requires env.maxAttempts >= 1 && !env.streaming && (forall k | 0 <= k < |tiers| :: NonNegative(tiers[k]))
    requires Reserved(limiter, request, q)
    modifies limiter`history, limiter`reservations, limiter.redis
    ensures Answers(env, wired, tiers, clock, q.cached, res, blocks, exits)
    ensures e == EffectsOf(env, count, q, res, blocks)
    ensures limiter.Valid()
    ensures limiter.history == old(limiter.history) + [q.Settling(request, Charge(env, count, q, res, blocks))]
  {
    var actual;
    e, actual, res, blocks, exits := ServePlain(env, wired, tiers, clock, count, q);
    Settle(limiter, request, q, actual);
  }

  // Whether the limiter lets the request in.
  ghost predicate Admitted(limiter: Limiter.RateLimiter, q: Chat)
    reads limiter, limiter.redis
  {
    Settlement.Admitted(limiter.failOpen, limiter.redis.store, q.s, q.Cost() as real, q.askAt, q.askUp)
  }

  // What other requests do between this one's arrival and its settlement: anything
  // they can, short of settling this one.
  ghost predicate Meanwhile(limiter: Limiter.RateLimiter, q: Chat, others: seq<Settlement.Event>)
    requires limiter.Valid()
    reads limiter, limiter.redis
  {
    var sys := Settlement.Step(limiter.failOpen, limiter.Sys(), q.Arrival());
    && (forall i | 0 <= i < |others| && others[i].Settle? :: others[i].request != |limiter.reservations|)
    && Settlement.ValidRun(limiter.caps, limiter.failOpen, sys, others)
    && Settlement.Run(limiter.caps, limiter.failOpen, sys, others).clock <= q.settleAt
  }

  // The request arrives, and others come and go while it is served.
  method Admit(limiter: Limiter.RateLimiter, q: Chat, others: seq<Settlement.Event>)
    returns (admitted: bool, request: nat)
    requires limiter.Valid() && TickingBuckets.Agrees(limiter.caps, q.s) && limiter.Sys().clock <= q.askAt
    requires Admitted(limiter, q) ==> Meanwhile(limiter, q, others)
    modifies limiter`history, limiter`reservations, limiter.redis
    ensures limiter.Valid() && admitted == old(Admitted(limiter, q)) && request == old(|limiter.reservations|)
    ensures limiter.history == old(limiter.history) + [q.Arrival()] + if admitted then others else []
    ensures admitted ==> Reserved(limiter, request, q)
  {
    request := |limiter.reservations|;
    var d := limiter.Reserve(q.s, q.Cost() as real, q.askAt, q.askUp);
    admitted := d.Some? && d.value.allowed;
    if admitted {
      Settlement.StaysOpen(limiter.caps, limiter.failOpen, limiter.Sys(), others, request);
      limiter.Interleave(others);
    }
  }

  /** Every path, whatever other requests do meanwhile: a request that is not admitted
      only asks the limiter; an admitted one settles exactly once, and its charge, its
      response and what it stores are those of its run. */
  method HandleChatCompletion(env: Env, wired: set<string>, tiers: seq<Tier>, clock: Clock, h: StreamHandler, q: Chat,
                              limiter: Limiter.RateLimiter, others: seq<Settlement.Event>)
    returns (e: Effects, res: Option<Result>, blocks: seq<Block>, exits: seq<Exit>)
    requires env.maxAttempts >= 1 && (forall k | 0 <= k < |tiers| :: NonNegative(tiers[k]))
    requires h.Valid() && h.seen == [] && h.wire == [] && h.canFlush == env.canFlush
    requires limiter.Valid() && TickingBuckets.Agrees(limiter.caps, q.s) && limiter.Sys().clock <= q.askAt
    requires Admitted(limiter, q) ==> Meanwhile(limiter, q, others)
    modifies h, limiter`history, limiter`reservations, limiter.redis
    ensures limiter.Valid()
    ensures old(!Admitted(limiter, q)) ==>
              && e == Effects(None, ClosedBy([], JsonError, q.closes)) && res == None && blocks == []
              && limiter.history == old(limiter.history) + [q.Arrival()]
    ensures old(Admitted(limiter, q)) ==>
              && Answers(env, wired, tiers, clock, q.cached, res, blocks, exits)
              && e == EffectsOf(env, h.count, q, res, blocks)
              && limiter.history == old(limiter.history) + [q.Arrival()] + others
                                    + [q.Settling(old(|limiter.reservations|), Charge(env, h.count, q, res, blocks))]
  {
    var admitted, request := Admit(limiter, q, others);
    if !admitted {
      return Effects(None, ClosedBy([], JsonError, q.closes)), None, [], [];
    }
    if env.streaming {
      e, res, blocks, exits := HandleStreaming(env, wired, tiers, clock, h, q, limiter, request);
    } else {
      e, res, blocks, exits := HandlePlain(env, wired, tiers, clock, h.count, q, limiter, request);
    }
  }

  // ----- What the effects mean -----

  // What a request was served, by what reached the client: the usage of a complete
  // answer, the prompt and the delivered content of a broken stream, else nothing.
  ghost function Served(env: Env, count: string -> nat, q: Chat, res: Option<Result>, blocks: seq<Block>): int {
    match res
    case None => 0
    case Some(Completed(_, body)) =>
      var u := AnswerUsage(env, count, q.promptTokens, body);
      u.prompt + u.completion
    case Some(Failed(_, flushed)) =>
      var calls := Calls(blocks);
      if env.streaming && flushed && calls != [] then q.promptTokens + TokensIn(count, calls[|calls| - 1].reply.body)
      else 0
  }

  // The usage of an answer: what it reports itself, and if a stream reports none, the
  // prompt and the tokens of its content.
  function AnswerUsage(env: Env, count: string -> nat, promptTokens: int, body: seq<Delta>): Usage {
    match Reported(body)
    case Some(u) => u
    case None => if env.streaming then Usage(promptTokens, TokensIn(count, body)) else Usage(0, 0)
  }

  // The stream broke on a delta that counts tokens and could not be written.
  predicate RefusedTokens(env: Env, count: string -> nat, r: Result, calls: seq<Call>) {
    r.Failed? && r.flushed && calls != [] && Spilled(env, count, calls[|calls| - 1]) > 0
  }

  /** A request is charged at least what it was served, and exactly that if and only
      if its stream did not break on a refused delta that counts tokens. */
  lemma ChargedAsServed(env: Env, wired: set<string>, tiers: seq<Tier>, since: Clock, q: Chat, res: Option<Result>,
                        blocks: seq<Block>, exits: seq<Exit>, count: string -> nat)
    requires Answers(env, wired, tiers, since, q.cached, res, blocks, exits)
    ensures
      var charge, served := Charge(env, count, q, res, blocks), Served(env, count, q, res, blocks);
      && charge >= served
      && (charge == served <==> !(env.streaming && res.Some? && RefusedTokens(env, count, res.value, Calls(blocks))))
  {
    if res.Some? {
      if env.streaming {
        RunDelivers(env, wired, tiers, since, blocks, |exits|, res.value, count);
        DeliveredCharge(env, count, q, res.value, blocks);
      } else if res.value.Completed? {
        LastUsageIsReported(res.value.body);
      }
    }
  }

  lemma DeliveredCharge(env: Env, count: string -> nat, q: Chat, r: Result, blocks: seq<Block>)
    requires env.streaming && Delivered(env, count, Calls(blocks), r)
    ensures
      var charge, served := Charge(env, count, q, Some(r), blocks), Served(env, count, q, Some(r), blocks);
      charge >= served && (charge == served <==> !RefusedTokens(env, count, r, Calls(blocks)))
  {
    var calls := Calls(blocks);
    if r.Completed? {
      LastUsageIsReported(r.body);
      CountsEachDelta(count, r.body);
    } else if r.flushed {
      CountsEachDelta(count, calls[|calls| - 1].reply.body);
    }
  }

  /** An answer is charged the usage it reports itself, prompt and completion, streamed
      or not; only an answer that reports none is charged by its content, or nothing
      when it was not streamed. */
  lemma AnswerIsCharged(env: Env, wired: set<string>, tiers: seq<Tier>, since: Clock, q: Chat, c: Candidate,
                        body: seq<Delta>, blocks: seq<Block>, exits: seq<Exit>, count: string -> nat)
    requires Ran(env, wired, tiers, since, blocks, exits, Completed(c, body))
    ensures
      var charge := Charge(env, count, q, Some(Completed(c, body)), blocks);
      match Reported(body)
      case Some(u) => charge == u.prompt + u.completion
      case None => charge == if env.streaming then q.promptTokens + TokensIn(count, body) else 0
  {
    LastUsageIsReported(body);
    if env.streaming {
      RunDelivers(env, wired, tiers, since, blocks, |exits|, Completed(c, body), count);
      CountsEachDelta(count, body);
    }
  }

  /** A request overruns its reservation by exactly what it is charged beyond its prompt
      and the completion it announced, or the estimate if it announced none. */
  lemma OverrunsEstimate(failOpen: bool, sys: Settlement.System, q: Chat, request: nat, charge: int,
                         b: TokenBuckets.BucketId)
    requires sys.Holds(request) && q.s.Touches(b)
    requires sys.open[request] == Some(Settlement.Reservation(q.s, q.Arrival().cost))
    ensures
      var reserved := q.promptTokens + match q.maxTokens case Some(m) => m case None => q.estimate;
      var tally := Settlement.EventTally(failOpen, sys, q.Settling(request, charge), b);
      && tally.settled == charge as real
      && tally.overrun == if charge > reserved then (charge - reserved) as real else 0.0
  {
  }

  // A finished response: an open stream, or nothing, and then one last event.
  predicate Closed(wire: seq<Wire>) {
    wire != [] && Streamed(wire[..|wire| - 1]) && !wire[|wire| - 1].Headers? && !wire[|wire| - 1].Chunk?
  }

  lemma ClosingSendsNothing(wire: seq<Wire>, last: Wire)
    requires Streamed(wire) && !last.Headers? && !last.Chunk?
    ensures Closed(wire + [last]) && Sent(wire + [last]) == Sent(wire)
  {
    assert (wire + [last])[..|wire|] == wire;
    assert Sent(wire) + "" == Sent(wire);
  }

  /** A cached answer replayed as a stream sends exactly its content, then its finish
      reason and, if that can be written, [DONE]. */
  lemma CachedStreamContent(a: Answer, closes: bool)
    ensures
      var wire := CachedWire(a, true, closes);
      && Sent(wire) == a.content && (closes ==> Closed(wire) && wire[|wire| - 1] == DoneMark)
      && |wire| > 2 && wire[2] == Chunk("", if a.finish == "" then "stop" else a.finish)
  {
    var one := [Headers(""), Chunk(a.content, "")];
    var two := [Headers(""), Chunk(a.content, ""), Chunk("", Named(a.finish))];
    assert one[..1] == [Headers("")] && one[..1][..0] == [] && two[..2] == one;
    assert Sent(one[..1]) == "";
    assert Sent(one) == a.content;
    assert Sent(two) == a.content;
    ClosingSendsNothing(two, DoneMark);
  }

  // What an answered or failed stream looks like to the client.
  ghost predicate Streams(env: Env, calls: seq<Call>, r: Result, closes: bool, wire: seq<Wire>) {
    && (if closes then Closed(wire) && wire == WireOf(env, calls) + [StreamClosing(r)]
        else Streamed(wire) && wire == WireOf(env, calls))
    && match r
       case Completed(_, body) => Sent(wire) == Content(body) && (closes ==> wire[|wire| - 1] == DoneMark)
       case Failed(_, flushed) =>
         if flushed
         then && calls != [] && Sent(wire) == Content(calls[|calls| - 1].reply.body) != ""
              && (closes ==> wire[|wire| - 1] == ErrorEvent)
         else && Sent(wire) == "" && (closes ==> wire[|wire| - 1] == JsonError)
              && (WireOf(env, calls) != [] <==> env.canFlush && AnyOffer(env, calls))
  }

  /** A plain response, if it can be written, is one JSON document: the answer's content,
      or an error. A cached answer is replayed as one too. */
  lemma PlainResponse(env: Env, wired: set<string>, tiers: seq<Tier>, since: Clock, q: Chat, res: Option<Result>,
                      blocks: seq<Block>, exits: seq<Exit>)
    requires !env.streaming && Answers(env, wired, tiers, since, q.cached, res, blocks, exits)
    ensures
      var wire := Response(env, q, res, blocks);
      if !q.closes then wire == []
      else
        match res
        case None => wire == [JsonResponse(q.cached.value.content)]
        case Some(Completed(_, body)) => wire == [JsonResponse(Content(body))]
        case Some(Failed(_, _)) => wire == [JsonError]
  {
  }

  /** Every streamed response is closed by exactly one last event, if that can still
      be written: [DONE] after exactly the answer's content, an error event after
      exactly what the last call delivered, or a JSON error after no content at all.
      That JSON error follows event-stream headers exactly when some call offered a
      delta. */
  lemma StreamedResponse(env: Env, wired: set<string>, tiers: seq<Tier>, since: Clock, blocks: seq<Block>,
                         exits: seq<Exit>, r: Result, q: Chat)
    requires env.streaming && Ran(env, wired, tiers, since, blocks, exits, r)
    ensures Streams(env, Calls(blocks), r, q.closes, Response(env, q, Some(r), blocks))
  {
    var count: string -> nat := _ => 0;
    RunDelivers(env, wired, tiers, since, blocks, |exits|, r, count);
    DeliveredStream(env, count, Calls(blocks), r, q.closes);
  }

  lemma DeliveredStream(env: Env, count: string -> nat, calls: seq<Call>, r: Result, closes: bool)
    requires Delivered(env, count, calls, r)
    ensures Streams(env, calls, r, closes, ClosedBy(WireOf(env, calls), StreamClosing(r), closes))
  {
    WireIsStream(env, calls);
    WireStarts(env, calls);
    ClosingSendsNothing(WireOf(env, calls), StreamClosing(r));
  }

  // The finish reason an answer carries itself.
  function OwnFinish(env: Env, body: seq<Delta>): string {
    if env.streaming then Named(LastFinish(body)) else LastFinish(body)
  }

  // A failed call before the answer left a finish reason that the answer did not
  // replace.
  ghost predicate StrayFinish(env: Env, body: seq<Delta>, calls: seq<Call>) {
    && env.streaming && calls != [] && LastFinish(body) == ""
    && Named(LastFinish(SeenOf(env, calls[..|calls| - 1]))) != "stop"
  }

  /** What is stored is a complete answer with exactly the content the client
      received and the usage it was charged, and its finish reason is the answer's own
      if and only if no failed call left another behind. */
  lemma StoredIsSent(env: Env, wired: set<string>, tiers: seq<Tier>, since: Clock, q: Chat, res: Option<Result>,
                     blocks: seq<Block>, exits: seq<Exit>, count: string -> nat)
    requires Answers(env, wired, tiers, since, q.cached, res, blocks, exits)
    ensures
      var stored, wire := Stored(env, count, q, res, blocks), Response(env, q, res, blocks);
      && (stored.Some? <==> q.storable && res.Some? && res.value.Completed?)
      && (stored.Some? ==>
            && stored.value.usage == AnswerUsage(env, count, q.promptTokens, res.value.body)
            && Total(stored.value.usage) == Charge(env, count, q, res, blocks)
            && (stored.value.finish == OwnFinish(env, res.value.body)
                <==> !StrayFinish(env, res.value.body, Calls(blocks)))
            && (if env.streaming then Sent(wire) == stored.value.content
                else wire == ClosedBy([], JsonResponse(stored.value.content), q.closes)))
  {
    if res.Some? && res.value.Completed? {
      LastUsageIsReported(res.value.body);
      CountsEachDelta(count, res.value.body);
      if env.streaming {
        StreamStoredIsSent(env, wired, tiers, since, q, res.value, blocks, exits, count);
      }
    }
  }

  lemma StreamStoredIsSent(env: Env, wired: set<string>, tiers: seq<Tier>, since: Clock, q: Chat, r: Result,
                           blocks: seq<Block>, exits: seq<Exit>, count: string -> nat)
    requires env.streaming && Ran(env, wired, tiers, since, blocks, exits, r) && r.Completed?
    ensures
      var calls, seen := Calls(blocks), Seen(env, count, blocks);
      && Sent(ClosedBy(WireOf(env, calls), DoneMark, q.closes)) == seen.content
      && seen.tokens == Counted(count, r.body)
      && (Named(seen.finish) == Named(LastFinish(r.body)) <==> !StrayFinish(env, r.body, calls))
  {
    var calls := Calls(blocks);
    RunDelivers(env, wired, tiers, since, blocks, |exits|, r, count);
    DeliveredStream(env, count, calls, r, q.closes);
    CollectedContent(count, SeenOf(env, calls));
    LastCallAnswers(env, wired, tiers, since, blocks, |exits|, r);
    FinishIsOwn(env, count, calls);
  }

  // The last call of an answered run is the one that answered.
  lemma LastCallAnswers(env: Env, wired: set<string>, tiers: seq<Tier>, since: Clock, blocks: seq<Block>, left: nat,
                        r: Result)
    requires env.streaming && Walked(env, wired, tiers, since, blocks) && Explains(env, tiers, blocks, left, r)
    requires r.Completed?
    ensures
      && Calls(blocks) != []
      && var c := Calls(blocks)[|Calls(blocks)| - 1]; c.reply == Reply(None, r.body) && Relayed(env, c.moment, c.reply)
  {
    WalkedIsOrdered(env, wired, tiers, since, blocks);
    CallsOfRun(env, since, blocks);
    OneReplyCounts(env, tiers, since, blocks, left, r);
  }

  /** An answered stream opens with headers that name the provider that answered if
      and only if headers can be sent and its call was the first to offer a delta. */
  lemma HeadersNameAnswer(env: Env, wired: set<string>, tiers: seq<Tier>, since: Clock, blocks: seq<Block>,
                          exits: seq<Exit>, c: Candidate, body: seq<Delta>, q: Chat)
    requires env.streaming && Ran(env, wired, tiers, since, blocks, exits, Completed(c, body))
    ensures
      var wire := Response(env, q, Some(Completed(c, body)), blocks);
      wire != [] && wire[0] == Headers(c.provider) <==> env.canFlush && OffersFirst(env, Calls(blocks), c.provider)
  {
    var calls := Calls(blocks);
    WireStarts(env, calls);
    if WireOf(env, calls) != [] {
      HeadersNameFirst(env, calls, c.provider);
    }
  }
}
