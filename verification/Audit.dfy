/** The audit buffer: a bounded queue whose flusher lets go of the lock while it
    writes. Nothing is lost silently, and the alert that can stop the surface stands
    for as long as a loss is unmarked. */
module Audit {
  import opened Basics

  datatype Event = Event(time: Instant, text: string)

  datatype Config = Config(capacity: nat, batchSize: nat, threshold: nat, failClose: bool)

  /** The defaults a configuration is given make all three positive. */
  ghost predicate Proper(c: Config) {
    c.capacity >= 1 && c.batchSize >= 1 && c.threshold >= 1
  }

  /** How an append ended: written and acknowledged, not written, or written although
      the error said otherwise. */
  datatype Outcome = Landed | Refused | Unacknowledged

  datatype Window = Window(from: Instant, to: Instant)

  datatype ChainRow = Batch(events: seq<Event>) | Gap(count: nat, window: Option<Window>)

  /** Where the flusher is: what it took from under the lock and has not accounted
      for yet. */
  datatype Flight = Idle | Marking(batch: seq<Event>, lost: nat, window: Option<Window>) | Writing(rest: seq<Event>)

  /** The mutex-guarded fields, then the flusher, then the chain and the history of
      what was offered. */
  datatype State = State(
    queue: seq<Event>, enqueued: nat, dropped: nat, flushed: nat, gaps: nat, alerting: bool, pendingLost: nat, window: Option<Window>,
    flight: Flight, chain: seq<ChainRow>, offered: seq<Event>)

  const START := State([], 0, 0, 0, 0, false, 0, None, Idle, [], [])

  predicate FailClosed(s: State, c: Config) {
    c.failClose && s.alerting
  }

  // ---- the critical sections ----

  function Widened(w: Option<Window>, v: Window): Window {
    if w.None? then v else Window(Min(w.value.from, v.from), Max(w.value.to, v.to))
  }

  /** dropLocked. */
  function Drop(s: State, at: Instant, n: nat, c: Config): State {
    s.(dropped := s.dropped + n, pendingLost := s.pendingLost + n, window := Some(Widened(s.window, Window(at, at))),
       alerting := s.alerting || s.dropped + n >= c.threshold)
  }

  function Record(s: State, e: Event, c: Config): State {
    var t := s.(offered := s.offered + [e]);
    if |s.queue| >= c.capacity then Drop(t, e.time, 1, c) else t.(queue := s.queue + [e], enqueued := s.enqueued + 1)
  }

  /** The start of a flush: the queue and the unmarked loss are taken. */
  function Begin(s: State): State
    requires s.flight.Idle?
  {
    s.(queue := [], pendingLost := 0, window := None,
       flight := if s.pendingLost > 0 then Marking(s.queue, s.pendingLost, s.window) else Writing(s.queue))
  }

  /** After the gap marker: a marker that was not acknowledged is put back. */
  function Marked(s: State, o: Outcome): State
    requires s.flight.Marking?
  {
    var f := s.flight;
    var chain := if o == Refused then s.chain else s.chain + [Gap(f.lost, f.window)];
    var t := s.(chain := chain, flight := Writing(f.batch));
    if o == Landed then t.(gaps := s.gaps + 1)
    else t.(pendingLost := s.pendingLost + f.lost, window := if f.window.Some? then Some(Widened(s.window, f.window.value)) else s.window)
  }

  function Chunk(rest: seq<Event>, c: Config): seq<Event> {
    rest[..Min(c.batchSize, |rest|)]
  }

  /** After one chunk: a batch that was not acknowledged is a loss like any other. */
  function Written(s: State, o: Outcome, c: Config): State
    requires s.flight.Writing? && s.flight.rest != [] && Proper(c)
  {
    var chunk := Chunk(s.flight.rest, c);
    var chain := if o == Refused then s.chain else s.chain + [Batch(chunk)];
    var t := s.(chain := chain, flight := Writing(s.flight.rest[|chunk|..]));
    if o == Landed then t.(flushed := s.flushed + |chunk|) else Drop(t, chunk[|chunk| - 1].time, |chunk|, c)
  }

  /** The end of a flush: the alert clears only with the loss marked and the pressure
      gone. */
  function Finish(s: State, c: Config): State
    requires s.flight == Writing([])
  {
    s.(flight := Idle, alerting := s.alerting && !(s.pendingLost == 0 && |s.queue| <= c.capacity / 2))
  }

  datatype Step = Records(event: Event) | Begins | Marks(outcome: Outcome) | Writes(outcome: Outcome) | Finishes

  /** One critical section, when the flusher is at it. */
  function Take(s: State, st: Step, c: Config): State
    requires Proper(c)
  {
    match st
    case Records(e) => Record(s, e, c)
    case Begins => if s.flight.Idle? then Begin(s) else s
    case Marks(o) => if s.flight.Marking? then Marked(s, o) else s
    case Writes(o) => if s.flight.Writing? && s.flight.rest != [] then Written(s, o, c) else s
    case Finishes => if s.flight == Writing([]) then Finish(s, c) else s
  }

  function Run(s: State, steps: seq<Step>, c: Config): State
    requires Proper(c)
    decreases |steps|
  {
    if steps == [] then s else Take(Run(s, steps[..|steps| - 1], c), steps[|steps| - 1], c)
  }

  // ---- what the chain says ----

  function Leaves(chain: seq<ChainRow>): seq<Event> {
    if chain == [] then []
    else
      var n := |chain| - 1;
      Leaves(chain[..n]) + if chain[n].Batch? then chain[n].events else []
  }

  function GapSum(chain: seq<ChainRow>): nat {
    if chain == [] then 0
    else
      var n := |chain| - 1;
      GapSum(chain[..n]) + if chain[n].Gap? then chain[n].count else 0
  }

  function InFlight(f: Flight): seq<Event> {
    match f case Idle => [] case Marking(batch, _, _) => batch case Writing(rest) => rest
  }

  function LossInFlight(f: Flight): nat {
    if f.Marking? then f.lost else 0
  }

  // ---- subsequences ----

  ghost predicate Subsequence<T(!new)>(a: seq<T>, b: seq<T>)
    decreases |b|
  {
    a == [] || (b != [] &&
      var m, n := |a| - 1, |b| - 1;
      (a[m] == b[n] && Subsequence(a[..m], b[..n])) || Subsequence(a, b[..n]))
  }

  lemma {:induction false} DropMiddle<T(!new)>(a: seq<T>, m: seq<T>, z: seq<T>, b: seq<T>)
    requires Subsequence(a + m + z, b)
    ensures Subsequence(a + z, b)
    decreases |b|
  {
    var whole := a + m + z;
    if whole == [] || m == [] {
      assert a + z == whole;
    } else {
      var k, n := |whole| - 1, |b| - 1;
      if Subsequence(whole, b[..n]) {
        DropMiddle(a, m, z, b[..n]);
      } else if z != [] {
        var y := z[..|z| - 1];
        assert whole[..k] == a + m + y && (a + z)[..|a + z| - 1] == a + y;
        DropMiddle(a, m, y, b[..n]);
      } else {
        var l := m[..|m| - 1];
        assert whole[..k] == a + l + z && a + z == a;
        DropMiddle(a, l, z, b[..n]);
      }
    }
  }

  lemma GrowsBoth<T(!new)>(a: seq<T>, b: seq<T>, x: T)
    requires Subsequence(a, b)
    ensures Subsequence(a + [x], b + [x]) && Subsequence(a, b + [x])
  {
    assert (a + [x])[..|a|] == a && (b + [x])[..|b|] == b;
  }

  // ---- the invariant ----

  /** Every event offered is accounted for once, every loss is marked, about to be, or
      pending, and the chain may say more than was acknowledged but never less. */
  ghost predicate Conserved(s: State, c: Config) {
    && |s.queue| <= c.capacity
    && |s.offered| == s.flushed + s.dropped + |s.queue| + |InFlight(s.flight)|
    && s.flushed <= |Leaves(s.chain)|
    && s.dropped <= GapSum(s.chain) + s.pendingLost + LossInFlight(s.flight)
  }

  /** Every event still standing, oldest first: chained, in flight, queued. */
  function Trail(s: State): seq<Event> {
    Leaves(s.chain) + InFlight(s.flight) + s.queue
  }

  ghost predicate InOrder(s: State) {
    Subsequence(Trail(s), s.offered)
  }

  /** A loss past the threshold that no gap row has marked keeps the alert up. */
  ghost predicate Alarmed(s: State, c: Config) {
    s.dropped >= c.threshold && s.pendingLost + LossInFlight(s.flight) > 0 ==> s.alerting
  }

  /** The books balance exactly as long as no erroring append ever landed. */
  ghost predicate Exact(s: State) {
    s.flushed == |Leaves(s.chain)| && s.dropped == GapSum(s.chain) + s.pendingLost + LossInFlight(s.flight)
  }

  lemma OneMoreGap(chain: seq<ChainRow>, count: nat, window: Option<Window>)
    ensures Leaves(chain + [Gap(count, window)]) == Leaves(chain)
    ensures GapSum(chain + [Gap(count, window)]) == GapSum(chain) + count
  {
    assert (chain + [Gap(count, window)])[..|chain|] == chain;
  }

  lemma OneMoreBatch(chain: seq<ChainRow>, events: seq<Event>)
    ensures Leaves(chain + [Batch(events)]) == Leaves(chain) + events
    ensures GapSum(chain + [Batch(events)]) == GapSum(chain)
  {
    assert (chain + [Batch(events)])[..|chain|] == chain;
  }

  ghost predicate Sound(s: State, c: Config) {
    Conserved(s, c) && Alarmed(s, c)
  }

  lemma MarkConserves(s: State, o: Outcome, c: Config)
    requires Sound(s, c) && s.flight.Marking?
    ensures Sound(Marked(s, o), c) && (Exact(s) && o != Unacknowledged ==> Exact(Marked(s, o)))
  {
    OneMoreGap(s.chain, s.flight.lost, s.flight.window);
  }

  lemma WriteConserves(s: State, o: Outcome, c: Config)
    requires Proper(c) && Sound(s, c) && s.flight.Writing? && s.flight.rest != []
    ensures Sound(Written(s, o, c), c) && (Exact(s) && o != Unacknowledged ==> Exact(Written(s, o, c)))
  {
    OneMoreBatch(s.chain, Chunk(s.flight.rest, c));
  }

  lemma TakeConserves(s: State, st: Step, c: Config)
    requires Proper(c) && Sound(s, c)
    ensures Sound(Take(s, st, c), c)
    ensures Exact(s) && st != Marks(Unacknowledged) && st != Writes(Unacknowledged) ==> Exact(Take(s, st, c))
  {
    match st
    case Records(_) =>
    case Begins =>
    case Finishes =>
    case Marks(o) => if s.flight.Marking? { MarkConserves(s, o, c); }
    case Writes(o) => if s.flight.Writing? && s.flight.rest != [] { WriteConserves(s, o, c); }
  }

  /** The events before, in, and after a chunk, however they are grouped. */
  lemma Regroups<T>(a: seq<T>, m: seq<T>, z: seq<T>, q: seq<T>)
    ensures a + (m + z) + q == a + m + (z + q) == a + m + z + q
    ensures a + (z + q) == a + z + q
  {
  }

  lemma WriteKeepsTrail(s: State, o: Outcome, c: Config)
    requires Proper(c) && s.flight.Writing? && s.flight.rest != []
    ensures var chunk := Chunk(s.flight.rest, c);
            && Trail(s) == Leaves(s.chain) + chunk + (s.flight.rest[|chunk|..] + s.queue)
            && Trail(Written(s, o, c)) == (if o == Refused then Leaves(s.chain) + (s.flight.rest[|chunk|..] + s.queue) else Trail(s))
            && Written(s, o, c).offered == s.offered
  {
    var leaves, chunk := Leaves(s.chain), Chunk(s.flight.rest, c);
    var rest := s.flight.rest[|chunk|..];
    assert s.flight.rest == chunk + rest;
    Regroups(leaves, chunk, rest, s.queue);
    OneMoreBatch(s.chain, chunk);
  }

  lemma WriteKeepsOrder(s: State, o: Outcome, c: Config)
    requires Proper(c) && s.flight.Writing? && s.flight.rest != [] && InOrder(s)
    ensures InOrder(Written(s, o, c))
  {
    WriteKeepsTrail(s, o, c);
    var chunk := Chunk(s.flight.rest, c);
    if o == Refused { DropMiddle(Leaves(s.chain), chunk, s.flight.rest[|chunk|..] + s.queue, s.offered); }
  }

  lemma RecordKeepsOrder(s: State, e: Event, c: Config)
    requires InOrder(s)
    ensures InOrder(Record(s, e, c))
  {
    GrowsBoth(Trail(s), s.offered, e);
    RecordExtendsTrail(s, e, c);
  }

  lemma RecordExtendsTrail(s: State, e: Event, c: Config)
    ensures Trail(Record(s, e, c)) == Trail(s) || Trail(Record(s, e, c)) == Trail(s) + [e]
    ensures Record(s, e, c).offered == s.offered + [e]
  {
    var before := Leaves(s.chain) + InFlight(s.flight);
    assert before + s.queue + [e] == before + (s.queue + [e]);
  }

  lemma MarkKeepsTrail(s: State, o: Outcome)
    requires s.flight.Marking?
    ensures Trail(Marked(s, o)) == Trail(s) && Marked(s, o).offered == s.offered
  {
    OneMoreGap(s.chain, s.flight.lost, s.flight.window);
  }

  lemma BeginKeepsTrail(s: State)
    requires s.flight.Idle?
    ensures Trail(Begin(s)) == Trail(s) && Begin(s).offered == s.offered
  {
    assert Leaves(s.chain) + [] + s.queue == Leaves(s.chain) + s.queue + [];
  }

  lemma TakeKeepsOrder(s: State, st: Step, c: Config)
    requires Proper(c) && InOrder(s)
    ensures InOrder(Take(s, st, c))
  {
    match st
    case Records(e) => RecordKeepsOrder(s, e, c);
    case Begins => if s.flight.Idle? { BeginKeepsTrail(s); }
    case Marks(o) => if s.flight.Marking? { MarkKeepsTrail(s, o); }
    case Writes(o) => if s.flight.Writing? && s.flight.rest != [] { WriteKeepsOrder(s, o, c); }
    case Finishes =>
  }

  /** Over every interleaving of records with a flush's unlocked writes: the events
      offered are those flushed, dropped, queued and in flight; the queue is within
      its capacity; the leaves of the chain are an in-order part of what was offered;
      the chain never says less than was lost; and while a loss past the threshold is
      unmarked, a surface asked to fail closed does. */
  lemma {:induction false} NothingIsLostSilently(steps: seq<Step>, c: Config)
    requires Proper(c)
    ensures var s := Run(START, steps, c);
            && Conserved(s, c) && InOrder(s) && Alarmed(s, c)
            && (c.failClose && s.dropped >= c.threshold && s.pendingLost + LossInFlight(s.flight) > 0 ==> FailClosed(s, c))
    decreases |steps|
  {
    if steps != [] {
      var n := |steps| - 1;
      NothingIsLostSilently(steps[..n], c);
      TakeConserves(Run(START, steps[..n], c), steps[n], c);
      TakeKeepsOrder(Run(START, steps[..n], c), steps[n], c);
    }
  }

  /** Where no erroring append lands, the chain's own count is exact: its leaves are
      the events flushed, and its gap rows with what is pending are the events lost. */
  lemma {:induction false} BooksBalance(steps: seq<Step>, c: Config)
    requires Proper(c) && Marks(Unacknowledged) !in steps && Writes(Unacknowledged) !in steps
    ensures Exact(Run(START, steps, c))
    decreases |steps|
  {
    if steps != [] {
      var n := |steps| - 1;
      BooksBalance(steps[..n], c);
      NothingIsLostSilently(steps[..n], c);
      TakeConserves(Run(START, steps[..n], c), steps[n], c);
    }
  }

  /** The alert turns off only at the end of a flush, with nothing unmarked and the
      queue at most half full. */
  lemma AlertClearsOnlyAtRest(s: State, st: Step, c: Config)
    requires Proper(c) && s.alerting && !Take(s, st, c).alerting
    ensures st == Finishes && s.flight == Writing([]) && s.pendingLost == 0 && |s.queue| <= c.capacity / 2
  {
  }

  // ---- the buffer as it is ----

  class AuditBuffer {
    const config: Config
    var queue: seq<Event>
    var enqueued: nat
    var dropped: nat
    var flushed: nat
    var gaps: nat
    var alerting: bool
    var pendingLost: nat
    var window: Option<Window>
    ghost var flight: Flight
    ghost var chain: seq<ChainRow>
    ghost var offered: seq<Event>

    ghost function View(): State
      reads this
    {
      State(queue, enqueued, dropped, flushed, gaps, alerting, pendingLost, window, flight, chain, offered)
    }

    constructor (config: Config)
      requires Proper(config)
      ensures this.config == config && View() == START
    {
      this.config := config;
      queue, enqueued, dropped, flushed, gaps, alerting, pendingLost, window := [], 0, 0, 0, 0, false, 0, None;
      flight, chain, offered := Idle, [], [];
    }

    method DropLocked(at: Instant, n: nat)
      modifies this
      ensures View() == Drop(old(View()), at, n, config)
    {
      dropped := dropped + n;
      pendingLost := pendingLost + n;
      window := Some(Widened(window, Window(at, at)));
      if !alerting && dropped >= config.threshold { alerting := true; }
    }

    method Enqueue(e: Event)
      modifies this
      ensures View() == Record(old(View()), e, config)
    {
      offered := offered + [e];
      if |queue| >= config.capacity {
        DropLocked(e.time, 1);
        return;
      }
      queue := queue + [e];
      enqueued := enqueued + 1;
    }

    /** The first critical section of a flush. */
    method TakeQueue() returns (batch: seq<Event>, lost: nat, from: Option<Window>)
      requires flight == Idle
      modifies this
      ensures View() == Begin(old(View()))
      ensures batch == old(queue) && lost == old(pendingLost) && from == old(window)
    {
      batch, lost, from := queue, pendingLost, window;
      queue, pendingLost, window := [], 0, None;
      flight := if lost > 0 then Marking(batch, lost, from) else Writing(batch);
    }

    /** After AppendCheckGap. */
    method MarkGap(lost: nat, from: Option<Window>, o: Outcome)
      requires flight.Marking? && flight.lost == lost && flight.window == from
      modifies this
      ensures View() == Marked(old(View()), o)
    {
      if o != Refused { chain := chain + [Gap(lost, from)]; }
      flight := Writing(flight.batch);
      if o == Landed {
        gaps := gaps + 1;
      } else {
        pendingLost := pendingLost + lost;
        if from.Some? { window := Some(Widened(window, from.value)); }
      }
    }

    /** After AppendCheckBatch. */
    method CountChunk(chunk: seq<Event>, o: Outcome)
      requires Proper(config) && flight.Writing? && flight.rest != [] && chunk == Chunk(flight.rest, config)
      modifies this
      ensures View() == Written(old(View()), o, config)
    {
      if o != Refused { chain := chain + [Batch(chunk)]; }
      flight := Writing(flight.rest[|chunk|..]);
      if o == Landed { flushed := flushed + |chunk|; } else { DropLocked(chunk[|chunk| - 1].time, |chunk|); }
    }

    /** The last critical section. */
    method Settle()
      requires flight == Writing([])
      modifies this
      ensures View() == Finish(old(View()), config)
    {
      flight := Idle;
      if alerting && pendingLost == 0 && |queue| <= config.capacity / 2 { alerting := false; }
    }

    /** Flush, with `arrivals(i)` recorded while its i-th append is out: it ends, and
        what it did is a run of the critical sections. */
    method Flush(gap: Outcome, writes: nat -> Outcome, arrivals: nat -> seq<Event>) returns (ghost trace: seq<Step>)
      requires Proper(config) && flight == Idle
      modifies this
      ensures flight == Idle && View() == Run(old(View()), trace, config)
    {
      ghost var was := View();
      var batch, lost, from := TakeQueue();
      trace := [Begins];
      assert trace[..0] == [];
      if lost > 0 {
        trace := Meanwhile(was, trace, arrivals(0));
        MarkGap(lost, from, gap);
        OneMoreStep(was, trace, Marks(gap), config);
        trace := trace + [Marks(gap)];
      }
      trace := WriteChunks(was, trace, batch, writes, arrivals);
      Settle();
      OneMoreStep(was, trace, Finishes, config);
      trace := trace + [Finishes];
    }

    /** The chunk loop. */
    method WriteChunks(ghost was: State, ghost before: seq<Step>, batch: seq<Event>, writes: nat -> Outcome, arrivals: nat -> seq<Event>) returns (ghost trace: seq<Step>)
      requires Proper(config) && flight == Writing(batch) && View() == Run(was, before, config)
      modifies this
      ensures flight == Writing([]) && View() == Run(was, trace, config)
    {
      trace := before;
      var start := 0;
      while start < |batch|
        invariant start <= |batch| && flight == Writing(batch[start..]) && View() == Run(was, trace, config)
      {
        var end := Min(start + config.batchSize, |batch|);
        var chunk := batch[start..end];
        assert chunk == Chunk(batch[start..], config) && batch[start..][|chunk|..] == batch[end..];
        trace := Meanwhile(was, trace, arrivals(start + 1));
        CountChunk(chunk, writes(start));
        OneMoreStep(was, trace, Writes(writes(start)), config);
        trace := trace + [Writes(writes(start))];
        start := end;
      }
    }

    /** Records getting in, and the trace that says so. */
    method Meanwhile(ghost was: State, ghost before: seq<Step>, events: seq<Event>) returns (ghost trace: seq<Step>)
      requires Proper(config) && View() == Run(was, before, config)
      modifies this
      ensures View() == Run(was, trace, config) && flight == old(flight)
    {
      trace := before;
      for i := 0 to |events|
        invariant View() == Run(was, trace, config) && flight == old(flight)
      {
        Enqueue(events[i]);
        OneMoreStep(was, trace, Records(events[i]), config);
        trace := trace + [Records(events[i])];
      }
    }
  }

  lemma OneMoreStep(s: State, steps: seq<Step>, st: Step, c: Config)
    requires Proper(c)
    ensures Run(s, steps + [st], c) == Take(Run(s, steps, c), st, c)
  {
    assert (steps + [st])[..|steps|] == steps;
  }
}
