/** The usage ledger: requests put rows into a bounded channel without ever
    waiting, and one background loop batches them into inserts and drains the
    channel on shutdown. The goroutines interleave at the channel operations, so a
    run is any sequence of the atomic steps below that are enabled. */
module UsageLedger {

  datatype Row = Row(requestId: string, costUsd: real)

  datatype Offer = Offer(row: Row, taken: bool)

  datatype Batch = Batch(rows: seq<Row>, drained: bool)

  datatype Phase = Running | Draining | Exited

  datatype Limits = Limits(bufferSize: int, batchSize: int)
  {
    predicate Valid() {
      bufferSize >= 1 && batchSize >= 1
    }
  }

  // `offers` records every Record call; `late` counts rows taken once the drain
  // has begun and `missed` those taken after the loop has gone.
  datatype Ledger = Ledger(channel: seq<Row>, batch: seq<Row>, inserted: seq<Batch>, offers: seq<Offer>,
                           dropped: nat, cancelled: bool, phase: Phase, late: nat, missed: nat)

  const EMPTY := Ledger([], [], [], [], 0, false, Running, 0, 0)

  datatype Step = Record(row: Row) | Receive | Tick | Cancel | SeeCancel | DrainOne | DrainDone

  predicate Enabled(s: Ledger, step: Step) {
    match step
    case Record(_) => true
    case Receive => s.phase == Running && s.channel != []
    case Tick => s.phase == Running
    case Cancel => true
    case SeeCancel => s.phase == Running && s.cancelled
    case DrainOne => s.phase == Draining && s.channel != []
    case DrainDone => s.phase == Draining && s.channel == []
  }

  function Flushed(s: Ledger, drained: bool): Ledger {
    if s.batch == [] then s else s.(inserted := s.inserted + [Batch(s.batch, drained)], batch := [])
  }

  function Next(l: Limits, s: Ledger, step: Step): Ledger
    requires Enabled(s, step)
  {
    match step
    case Record(row) =>
      if |s.channel| < l.bufferSize
      then s.(channel := s.channel + [row], offers := s.offers + [Offer(row, true)],
              late := s.late + if s.phase == Running then 0 else 1,
              missed := s.missed + if s.phase == Exited then 1 else 0)
      else s.(offers := s.offers + [Offer(row, false)], dropped := s.dropped + 1)
    case Receive =>
      var t := s.(batch := s.batch + [s.channel[0]], channel := s.channel[1..]);
      if |t.batch| >= l.batchSize then Flushed(t, false) else t
    case Tick => Flushed(s, false)
    case Cancel => s.(cancelled := true)
    case SeeCancel => s.(phase := Draining)
    case DrainOne => s.(batch := s.batch + [s.channel[0]], channel := s.channel[1..])
    case DrainDone => Flushed(s, true).(phase := Exited)
  }

  // The rows taken into the channel, in the order Record was called.
  function Taken(offers: seq<Offer>): seq<Row> {
    if offers == [] then []
    else Taken(offers[..|offers| - 1]) + if offers[|offers| - 1].taken then [offers[|offers| - 1].row] else []
  }

  function Handed(inserted: seq<Batch>): seq<Row> {
    if inserted == [] then [] else Handed(inserted[..|inserted| - 1]) + inserted[|inserted| - 1].rows
  }

  // Nothing taken is lost, repeated or reordered, and every call is counted.
  ghost predicate Conserved(s: Ledger) {
    && Handed(s.inserted) + s.batch + s.channel == Taken(s.offers)
    && |Taken(s.offers)| + s.dropped == |s.offers|
  }

  ghost predicate Bounded(l: Limits, s: Ledger) {
    && |s.channel| <= l.bufferSize
    && (forall b | b in s.inserted :: b.rows != [])
    && (forall b | b in s.inserted && !b.drained :: |b.rows| <= l.batchSize)
    && (forall b | b in s.inserted && b.drained ::
          s.phase == Exited && |b.rows| <= l.batchSize - 1 + l.bufferSize + s.late)
    && s.missed <= s.late
    && match s.phase
       case Running => |s.batch| < l.batchSize && s.late == 0
       case Draining =>
         s.cancelled && s.missed == 0 && |s.batch| + |s.channel| <= l.batchSize - 1 + l.bufferSize + s.late
       case Exited => s.cancelled && s.batch == [] && |s.channel| == s.missed
  }

  lemma TakenOneMore(offers: seq<Offer>, o: Offer)
    ensures Taken(offers + [o]) == if o.taken then Taken(offers) + [o.row] else Taken(offers)
  {
    assert (offers + [o])[..|offers|] == offers;
  }

  lemma HandedOneMore(inserted: seq<Batch>, b: Batch)
    ensures Handed(inserted + [b]) == Handed(inserted) + b.rows
  {
    assert (inserted + [b])[..|inserted|] == inserted;
  }

  lemma MovesOne(a: seq<Row>, b: seq<Row>, c: seq<Row>)
    requires c != []
    ensures a + (b + [c[0]]) + c[1..] == a + b + c
  {
    assert [c[0]] + c[1..] == c;
  }

  lemma FlushConserves(s: Ledger, drained: bool)
    requires Conserved(s)
    ensures Conserved(Flushed(s, drained))
  {
    HandedOneMore(s.inserted, Batch(s.batch, drained));
    var handed := Handed(s.inserted) + s.batch;
    assert handed + [] == handed;
  }

  lemma MoveConserves(s: Ledger)
    requires Conserved(s) && s.channel != []
    ensures Conserved(s.(batch := s.batch + [s.channel[0]], channel := s.channel[1..]))
  {
    MovesOne(Handed(s.inserted), s.batch, s.channel);
  }

  lemma RecordConserves(l: Limits, s: Ledger, row: Row)
    requires Conserved(s)
    ensures Conserved(Next(l, s, Record(row)))
  {
    TakenOneMore(s.offers, Offer(row, |s.channel| < l.bufferSize));
    AddsOne(Handed(s.inserted) + s.batch, s.channel, row);
  }

  lemma AddsOne(a: seq<Row>, b: seq<Row>, row: Row)
    ensures a + (b + [row]) == (a + b) + [row]
  {
  }

  lemma NextConserves(l: Limits, s: Ledger, step: Step)
    requires Enabled(s, step) && Conserved(s)
    ensures Conserved(Next(l, s, step))
  {
    match step
    case Record(row) => RecordConserves(l, s, row);
    case Receive =>
      MoveConserves(s);
      FlushConserves(s.(batch := s.batch + [s.channel[0]], channel := s.channel[1..]), false);
    case DrainOne => MoveConserves(s);
    case Tick => FlushConserves(s, false);
    case DrainDone => FlushConserves(s, true);
    case Cancel =>
    case SeeCancel =>
  }

  lemma NextBounded(l: Limits, s: Ledger, step: Step)
    requires l.Valid() && Enabled(s, step) && Bounded(l, s)
    ensures Bounded(l, Next(l, s, step))
  {
  }

  ghost predicate Possible(l: Limits, s: Ledger, steps: seq<Step>)
    decreases |steps|
  {
    steps == [] || (Enabled(s, steps[0]) && Possible(l, Next(l, s, steps[0]), steps[1..]))
  }

  ghost function Run(l: Limits, s: Ledger, steps: seq<Step>): Ledger
    requires Possible(l, s, steps)
    decreases |steps|
  {
    if steps == [] then s else Run(l, Next(l, s, steps[0]), steps[1..])
  }

  lemma {:induction false} RunGrows(l: Limits, s: Ledger, steps: seq<Step>, step: Step)
    requires Possible(l, s, steps) && Enabled(Run(l, s, steps), step)
    ensures Possible(l, s, steps + [step]) && Run(l, s, steps + [step]) == Next(l, Run(l, s, steps), step)
    decreases |steps|
  {
    if steps == [] {
      assert [] + [step] == [step] && [step][1..] == [];
    } else {
      RunGrows(l, Next(l, s, steps[0]), steps[1..], step);
      assert (steps + [step])[1..] == steps[1..] + [step];
    }
  }

  /** Conservation and bounds under every interleaving. */
  lemma {:induction false} EveryRunConserves(l: Limits, s: Ledger, steps: seq<Step>)
    requires l.Valid() && Possible(l, s, steps) && Conserved(s) && Bounded(l, s)
    ensures Conserved(Run(l, s, steps)) && Bounded(l, Run(l, s, steps))
    decreases |steps|
  {
    if steps != [] {
      NextConserves(l, s, steps[0]);
      NextBounded(l, s, steps[0]);
      EveryRunConserves(l, Next(l, s, steps[0]), steps[1..]);
    }
  }

  /** After the loop has exited, the rows handed to the database are the rows taken,
      in order, short of exactly those taken after the exit: nothing is lost unless
      a Record overlapped the shutdown. */
  lemma ExitLosesOnlyLateRows(l: Limits, steps: seq<Step>)
    requires l.Valid() && Possible(l, EMPTY, steps) && Run(l, EMPTY, steps).phase == Exited
    ensures
      var s := Run(l, EMPTY, steps);
      && Taken(s.offers) == Handed(s.inserted) + s.channel
      && |s.channel| == s.missed
      && (s.missed == 0 <==> Handed(s.inserted) == Taken(s.offers))
      && (s.late == 0 ==> forall b | b in s.inserted :: |b.rows| <= l.batchSize - 1 + l.bufferSize)
  {
    EveryRunConserves(l, EMPTY, steps);
    var s := Run(l, EMPTY, steps);
    assert Handed(s.inserted) + [] == Handed(s.inserted);
    if s.missed == 0 {
      assert Handed(s.inserted) + s.channel == Handed(s.inserted);
    } else {
      assert |Handed(s.inserted) + s.channel| > |Handed(s.inserted)|;
    }
  }

  // Rows handed over, batched or waiting.
  function Held(s: Ledger): int {
    |Handed(s.inserted)| + |s.batch| + |s.channel|
  }

  lemma FlushHolds(s: Ledger, drained: bool)
    ensures Held(Flushed(s, drained)) == Held(s) && Flushed(s, drained).late == s.late
  {
    HandedOneMore(s.inserted, Batch(s.batch, drained));
  }

  lemma ShutdownStep(l: Limits, s: Ledger, step: Step)
    requires Enabled(s, step) && s.phase != Running
    ensures Next(l, s, step).phase != Running && Held(Next(l, s, step)) - Next(l, s, step).late == Held(s) - s.late
  {
    match step
    case Record(_) =>
    case DrainOne =>
    case DrainDone => FlushHolds(s, true);
    case Cancel =>
  }

  lemma {:induction false} ShutdownHolds(l: Limits, s: Ledger, steps: seq<Step>)
    requires Possible(l, s, steps) && s.phase != Running
    ensures Held(Run(l, s, steps)) - Run(l, s, steps).late == Held(s) - s.late
    decreases |steps|
  {
    if steps != [] {
      ShutdownStep(l, s, steps[0]);
      ShutdownHolds(l, Next(l, s, steps[0]), steps[1..]);
    }
  }

  // The drain has added nothing yet, or exactly its one batch.
  ghost predicate DrainedOnce(before: Ledger, s: Ledger) {
    var n := |before.inserted|;
    if s.phase == Draining then s.inserted == before.inserted
    else && s.phase == Exited && n <= |s.inserted| <= n + 1 && s.inserted[..n] == before.inserted
         && (|s.inserted| == n + 1 ==> s.inserted[n].drained)
  }

  lemma {:induction false} DrainAddsOneBatch(l: Limits, before: Ledger, s: Ledger, steps: seq<Step>)
    requires Possible(l, s, steps) && DrainedOnce(before, s)
    ensures DrainedOnce(before, Run(l, s, steps))
    decreases |steps|
  {
    if steps != [] {
      DrainAddsOneBatch(l, before, Next(l, s, steps[0]), steps[1..]);
    }
  }

  lemma DrainRows(l: Limits, s: Ledger, steps: seq<Step>)
    requires l.Valid() && Conserved(s) && Bounded(l, s) && s.phase == Draining && s.late == 0
    requires Possible(l, s, steps) && Run(l, s, steps).phase == Exited
    ensures
      var end := Run(l, s, steps);
      && end.missed <= end.late
      && |Handed(end.inserted)| - |Handed(s.inserted)| == |s.batch| + |s.channel| + end.late - end.missed
  {
    EveryRunConserves(l, s, steps);
    ShutdownHolds(l, s, steps);
  }

  /** The drain adds at most one batch: exactly what was batched and waiting when it
      began plus the rows taken while it ran. That batch stays within a batch short
      of one and a full buffer if and only if the arrivals fit in the room left. */
  lemma DrainSize(l: Limits, s: Ledger, steps: seq<Step>)
    requires l.Valid() && Conserved(s) && Bounded(l, s) && s.phase == Draining && s.late == 0
    requires Possible(l, s, steps) && Run(l, s, steps).phase == Exited
    ensures
      var end := Run(l, s, steps);
      var arrivals := end.late - end.missed;
      var room := l.batchSize - 1 + l.bufferSize - |s.batch| - |s.channel|;
      && DrainedOnce(s, end)
      && (end.inserted == s.inserted ==> s.batch == [] && s.channel == [] && arrivals == 0)
      && (end.inserted != s.inserted ==>
            var size := |end.inserted[|s.inserted|].rows|;
            && size == |s.batch| + |s.channel| + arrivals
            && (size <= l.batchSize - 1 + l.bufferSize <==> arrivals <= room))
  {
    DrainRows(l, s, steps);
    DrainAddsOneBatch(l, s, s, steps);
    OneBatchMore(s.inserted, Run(l, s, steps).inserted);
  }

  lemma OneBatchMore(before: seq<Batch>, after: seq<Batch>)
    requires |before| <= |after| <= |before| + 1 && after[..|before|] == before
    ensures after != before ==> |after| == |before| + 1 && |Handed(after)| == |Handed(before)| + |after[|before|].rows|
  {
    if |after| == |before| {
      assert after == before;
    } else {
      assert after == before + [after[|before|]];
      HandedOneMore(before, after[|before|]);
    }
  }

  lemma OneStep(l: Limits, s: Ledger, step: Step, rest: seq<Step>)
    requires Enabled(s, step) && Possible(l, Next(l, s, step), rest)
    ensures Possible(l, s, [step] + rest) && Run(l, s, [step] + rest) == Run(l, Next(l, s, step), rest)
  {
    assert ([step] + rest)[1..] == rest;
  }

  // With a batch and a buffer of one, a Record during the drain makes a batch of
  // two, although a batch short of one and a full buffer are one row together.
  lemma DrainBatchCanGrow()
    ensures
      var l, a, b := Limits(1, 1), Row("a", 0.0), Row("b", 0.0);
      var drain := [DrainOne] + ([Record(b)] + ([DrainOne] + ([DrainDone] + [])));
      var steps := [Record(a)] + ([Cancel] + ([SeeCancel] + drain));
      Possible(l, EMPTY, steps) && Run(l, EMPTY, steps).inserted == [Batch([a, b], true)]
  {
    var l, a, b := Limits(1, 1), Row("a", 0.0), Row("b", 0.0);
    var s1 := Next(l, EMPTY, Record(a));
    var s3 := Next(l, Next(l, s1, Cancel), SeeCancel);
    var s4 := Next(l, s3, DrainOne);
    var s5 := Next(l, s4, Record(b));
    var s6 := Next(l, s5, DrainOne);
    assert s4.channel == [] && s6.batch == [a, b] && s6.channel == [];
    var drain := [DrainOne] + ([Record(b)] + ([DrainOne] + ([DrainDone] + [])));
    OneStep(l, s6, DrainDone, []);
    OneStep(l, s5, DrainOne, [DrainDone] + []);
    OneStep(l, s4, Record(b), [DrainOne] + ([DrainDone] + []));
    OneStep(l, s3, DrainOne, [Record(b)] + ([DrainOne] + ([DrainDone] + [])));
    OneStep(l, Next(l, s1, Cancel), SeeCancel, drain);
    OneStep(l, s1, Cancel, [SeeCancel] + drain);
    OneStep(l, EMPTY, Record(a), [Cancel] + ([SeeCancel] + drain));
  }

  /** The writer object; each method is one atomic step of the goroutine that calls it. */
  class Writer {
    const limits: Limits
    var entries: seq<Row>
    var batch: seq<Row>
    var cancelled: bool
    var phase: Phase
    var dropped: nat
    var inserted: seq<Batch>
    ghost var offers: seq<Offer>
    ghost var late: nat
    ghost var missed: nat

    ghost function Abs(): Ledger
      reads this
    {
      Ledger(entries, batch, inserted, offers, dropped, cancelled, phase, late, missed)
    }

    constructor (limits: Limits)
      requires limits.Valid()
      ensures Abs() == EMPTY && this.limits == limits
    {
      this.limits := limits;
      entries, batch, inserted, cancelled, phase, dropped := [], [], [], false, Running, 0;
      offers, late, missed := [], 0, 0;
    }

    // Never blocks: a full buffer drops the row and counts it.
    method RecordRow(row: Row)
      modifies this
      ensures Abs() == Next(limits, old(Abs()), Record(row))
    {
      if |entries| < limits.bufferSize {
        entries := entries + [row];
        offers := offers + [Offer(row, true)];
        late := late + if phase == Running then 0 else 1;
        missed := missed + if phase == Exited then 1 else 0;
      } else {
        dropped := dropped + 1;
        offers := offers + [Offer(row, false)];
      }
    }

    method Flush(drained: bool)
      modifies `inserted, `batch
      ensures Abs() == Flushed(old(Abs()), drained)
    {
      if batch == [] {
        return;
      }
      inserted := inserted + [Batch(batch, drained)];
      batch := [];
    }

    method OnReceive()
      requires Enabled(Abs(), Receive)
      modifies this
      ensures Abs() == Next(limits, old(Abs()), Receive)
    {
      batch, entries := batch + [entries[0]], entries[1..];
      if |batch| >= limits.batchSize {
        Flush(false);
      }
    }

    method OnTick()
      requires Enabled(Abs(), Tick)
      modifies this
      ensures Abs() == Next(limits, old(Abs()), Tick)
    {
      Flush(false);
    }

    method RequestStop()
      modifies `cancelled
      ensures Abs() == Next(limits, old(Abs()), Cancel)
    {
      cancelled := true;
    }

    method SeeStop()
      requires Enabled(Abs(), SeeCancel)
      modifies `phase
      ensures Abs() == Next(limits, old(Abs()), SeeCancel)
    {
      phase := Draining;
    }

    method DrainNext()
      requires Enabled(Abs(), DrainOne)
      modifies `batch, `entries
      ensures Abs() == Next(limits, old(Abs()), DrainOne)
    {
      batch, entries := batch + [entries[0]], entries[1..];
    }

    method Exit()
      requires Enabled(Abs(), DrainDone)
      modifies `batch, `inserted, `phase
      ensures Abs() == Next(limits, old(Abs()), DrainDone)
    {
      Flush(true);
      phase := Exited;
    }

    // The rows other goroutines record before the loop looks at the channel again.
    method Arrive(rows: seq<Row>, ghost start: Ledger, ghost before: seq<Step>) returns (ghost steps: seq<Step>)
      requires Possible(limits, start, before) && Abs() == Run(limits, start, before)
      modifies this
      ensures Possible(limits, start, steps) && Abs() == Run(limits, start, steps)
      ensures phase == old(phase) && batch == old(batch)
    {
      steps := before;
      for i := 0 to |rows|
        invariant Possible(limits, start, steps) && Abs() == Run(limits, start, steps)
        invariant phase == old(phase) && batch == old(batch)
      {
        RunGrows(limits, start, steps, Record(rows[i]));
        RecordRow(rows[i]);
        steps := steps + [Record(rows[i])];
      }
    }

    /** The shutdown branch, whatever is recorded before each look at the channel: it
        is a run of the ledger's steps that exits with nothing buffered, so all that
        was accepted by then has been handed over in order. */
    method Drain(arrivals: seq<seq<Row>>) returns (ghost steps: seq<Step>)
      requires Enabled(Abs(), SeeCancel)
      modifies this
      ensures Possible(limits, old(Abs()), steps) && Abs() == Run(limits, old(Abs()), steps)
      ensures phase == Exited && entries == [] && batch == []
      ensures old(limits.Valid() && Conserved(Abs()) && Bounded(limits, Abs())) ==> Handed(inserted) == Taken(offers)
    {
      ghost var start := Abs();
      RunGrows(limits, start, [], SeeCancel);
      SeeStop();
      steps := [] + [SeeCancel];
      var look, empty := 0, false;
      while !empty
        invariant phase == Draining && look <= |arrivals| && (empty ==> entries == [])
        invariant Possible(limits, start, steps) && Abs() == Run(limits, start, steps)
        decreases !empty, |arrivals| - look, |entries|
      {
        if look < |arrivals| {
          steps := Arrive(arrivals[look], start, steps);
          look := look + 1;
        }
        if entries == [] {
          empty := true;
        } else {
          RunGrows(limits, start, steps, DrainOne);
          DrainNext();
          steps := steps + [DrainOne];
        }
      }
      RunGrows(limits, start, steps, DrainDone);
      Exit();
      steps := steps + [DrainDone];
      if limits.Valid() && Conserved(start) && Bounded(limits, start) {
        EveryRunConserves(limits, start, steps);
        assert Handed(inserted) + [] == Handed(inserted);
      }
    }
  }

  // ----- When rows are taken and handed over -----

  /** A row is dropped if and only if as many rows as the buffer holds are waiting: taken
      and neither batched nor handed over. */
  lemma DropsOnlyWhenFull(l: Limits, s: Ledger, row: Row)
    requires Conserved(s)
    ensures
      var next := Next(l, s, Record(row));
      var waiting := |Taken(s.offers)| - |Handed(s.inserted)| - |s.batch|;
      && next.offers == s.offers + [Offer(row, waiting < l.bufferSize)]
      && (waiting >= l.bufferSize ==> Taken(next.offers) == Taken(s.offers))
  {
    TakenOneMore(s.offers, Offer(row, |s.channel| < l.bufferSize));
    assert |Handed(s.inserted) + s.batch + s.channel| == |Handed(s.inserted)| + |s.batch| + |s.channel|;
  }

  /** A batch is handed over when it is full, when the ticker fires and when the loop
      shuts down, and at no other time. */
  lemma FullUnlessTicked(l: Limits, s: Ledger, step: Step)
    requires l.Valid() && Enabled(s, step) && Bounded(l, s)
    ensures
      var before, after := s.inserted, Next(l, s, step).inserted;
      after == before
      || (&& |after| == |before| + 1 && after[..|before|] == before
          && (step.Tick? || step.DrainDone? || |after[|before|].rows| == l.batchSize))
  {
  }

  /** After any run that ends in a tick nothing is held back: every row taken from the
      channel has been handed over. */
  lemma TickHandsOver(l: Limits, steps: seq<Step>)
    requires l.Valid() && Possible(l, EMPTY, steps) && Enabled(Run(l, EMPTY, steps), Tick)
    ensures
      && Possible(l, EMPTY, steps + [Tick])
      && var s := Run(l, EMPTY, steps + [Tick]);
         s.batch == [] && Handed(s.inserted) + s.channel == Taken(s.offers)
  {
    RunGrows(l, EMPTY, steps, Tick);
    EveryRunConserves(l, EMPTY, steps + [Tick]);
    var s := Run(l, EMPTY, steps + [Tick]);
    assert Handed(s.inserted) + [] == Handed(s.inserted);
  }
}
