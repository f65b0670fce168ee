/** What one sweep does to the store, with other instances at work before each
    decision it takes up, and why a drain empties the due set. */
module Sweeping {
  import opened Basics
  import opened Challenges
  import opened Decisions
  import opened Soundness
  import opened Runs
  import opened Alone

  /** The sweep of one stale copy against the row as it now is: expiry is judged on the
      copy, the write is conditional on the row, and a timer goes through a pass. */
  function SweepCopy(w: World, copy: Decision, now: Instant): World {
    var id := copy.context.id;
    if id !in w.decisions then w
    else if IsExpired(copy, now) then Put(w, id, Close(w.decisions[id], Expire), now)
    else Pass(w, id, now)
  }

  /** A sweep of claimed copies; `others(i)` is what everybody else did before it
      took up the i-th of them. */
  function SweepAll(w: World, copies: seq<Decision>, now: Instant, others: nat -> seq<Event>): World {
    if copies == [] then w
    else
      var n := |copies| - 1;
      SweepCopy(Run(SweepAll(w, copies[..n], now, others), others(n)), copies[n], now)
  }

  /** The store as a sweep takes up one of its copies. */
  function TakenUp(w: World, copies: seq<Decision>, i: nat, now: Instant, others: nat -> seq<Event>): World
    requires i < |copies|
  {
    Run(SweepAll(w, copies[..i], now, others), others(i))
  }

  /** The pass of that copy's sweep ends in an error. */
  predicate HaltsAt(w: World, copy: Decision, now: Instant) {
    copy.context.id in w.decisions && !IsExpired(copy, now) && Halts(w.decisions[copy.context.id], now)
  }

  /** A claim taken from this store, or from an earlier form of it. */
  ghost predicate Stale(w: World, copies: seq<Decision>) {
    forall i :: 0 <= i < |copies| ==> Dated(w, copies[i])
  }

  lemma SettleIsFiled(d: Decision, done: set<nat>, now: Instant)
    requires Filed(d) && d.state == Open
    ensures Filed(Settle(d, done, now))
  {
  }

  lemma AdvanceShifts(d: Decision, now: Instant)
    requires Filed(d)
    ensures Shifts(d, Advance(d, now), now)
  {
    if d.state == Open { SettleIsFiled(d, Below(Halt(d.rows)), now); }
  }

  /** The invariant is about what the store holds. */
  lemma SameStoreTracks(w: World, v: World)
    requires Tracked(w) && SameStore(w, v)
    ensures Tracked(v)
  {
    forall n | 0 <= n < |v.log| ensures Logged(v, v.log[n]) { assert Logged(w, w.log[n]); }
    forall x | x in v.decisions && v.decisions[x].state != Open ensures HasEntry(v, x) { assert HasEntry(w, x); }
    forall c | c in v.claims ensures Dated(v, c.copy) { assert Dated(w, c.copy); }
    forall m | m in v.jobs ensures JobDated(v, v.jobs[m]) { assert JobDated(w, w.jobs[m]); }
  }

  lemma SweepCopyTracks(w: World, copy: Decision, now: Instant)
    requires Tracked(w) && Dated(w, copy)
    ensures Tracked(SweepCopy(w, copy, now)) && Extends(w, SweepCopy(w, copy, now))
  {
    var id := copy.context.id;
    var d := w.decisions[id];
    if IsExpired(copy, now) {
      CloseShifts(d, Expire, now);
      PutTracks(w, id, Close(d, Expire), now);
      PutExtends(w, id, Close(d, Expire), now);
    } else {
      AdvanceShifts(d, now);
      PutTracks(w, id, Advance(d, now), now);
      PutExtends(w, id, Advance(d, now), now);
      PassAloneIsAdvance(w, id, now);
      SameStoreTracks(Put(w, id, Advance(d, now), now), Pass(w, id, now));
    }
  }

  /** Late sweeps are harmless: whatever happened before each claimed decision was taken up,
      nothing resolved changes state, nothing is logged twice, and nothing is expired
      before its time. */
  lemma {:induction false} LateSweepTracks(w: World, copies: seq<Decision>, now: Instant, others: nat -> seq<Event>)
    requires Tracked(w) && Stale(w, copies)
    ensures Tracked(SweepAll(w, copies, now, others)) && Extends(w, SweepAll(w, copies, now, others))
  {
    if copies != [] {
      var n := |copies| - 1;
      LateSweepTracks(w, copies[..n], now, others);
      var u := SweepAll(w, copies[..n], now, others);
      RunTracks(u, others(n));
      var v := Run(u, others(n));
      ExtensionsChain(w, u, v);
      assert Dated(w, copies[n]);
      SweepCopyTracks(v, copies[n], now);
      ExtensionsChain(w, v, SweepCopy(v, copies[n], now));
    }
  }

  // ---- due decisions ----

  function Due(decisions: map<string, Decision>, now: Instant): set<string> {
    set id | id in decisions && IsDue(decisions[id], now)
  }

  /** Due means over, or holding a pending challenge whose timer has passed. */
  lemma DueExactly(d: Decision, now: Instant)
    requires Filed(d) && d.state == Open
    ensures IsDue(d, now) <==> IsExpired(d, now) || exists i :: 0 <= i < |d.rows| && d.rows[i].state == Pending && Passed(d.rows[i].deadline, now)
  {
    NextDeadlineIsEarliest(d.expiresAt, d.rows, now);
  }

  lemma SettledIsNotPast(row: Row, have: nat, now: Instant)
    requires !Stuck(row)
    ensures var r := Settled(row, have, now); r.state == Pending ==> !Passed(r.deadline, now)
  {
  }

  /** A pending challenge out of time, at or behind the first row a pass cannot read. */
  predicate Lapsed(d: Decision, now: Instant) {
    exists i :: Halt(d.rows) <= i < |d.rows| && d.rows[i].state == Pending && Passed(d.rows[i].deadline, now)
  }

  lemma SettledIsDueExactly(d: Decision, now: Instant)
    requires Filed(d) && d.state == Open && !IsExpired(d, now)
    ensures IsDue(Settle(d, Below(Halt(d.rows)), now), now) <==> Lapsed(d, now)
  {
    var n := Halt(d.rows);
    var e := Settle(d, Below(n), now);
    SettleIsFiled(d, Below(n), now);
    forall i | 0 <= i < |e.rows|
      ensures e.rows[i].state == Pending && Passed(e.rows[i].deadline, now) <==> n <= i && d.rows[i].state == Pending && Passed(d.rows[i].deadline, now)
    {
      if i < n { SettledIsNotPast(d.rows[i], Have(d, i), now); }
    }
    DueExactly(e, now);
  }

  /** What a sweep leaves of a decision claimed just now. */
  function Swept(d: Decision, now: Instant): Decision {
    if IsExpired(d, now) then Close(d, Expire) else Advance(d, now)
  }

  /** After its own sweep a decision is still due at that instant exactly when it is not
      over and has a challenge out of time that the pass did not get to. */
  lemma SweptIsDueExactly(d: Decision, now: Instant)
    requires Filed(d) && d.state == Open
    ensures IsDue(Swept(d, now), now) <==> !IsExpired(d, now) && Lapsed(d, now)
  {
    if !IsExpired(d, now) { SettledIsDueExactly(d, now); }
  }

  ghost predicate Current(w: World, copies: seq<Decision>) {
    && (forall i :: 0 <= i < |copies| ==> copies[i].context.id in w.decisions && w.decisions[copies[i].context.id] == copies[i] && copies[i].state == Open)
    && (forall i, j :: 0 <= i < j < |copies| ==> copies[i].context.id != copies[j].context.id)
  }

  function Ids(copies: seq<Decision>): set<string> {
    set i | 0 <= i < |copies| :: copies[i].context.id
  }

  /** The decisions named and no others have changed, and they are due no more. */
  ghost predicate Shrunk(w: World, v: World, ids: set<string>, now: Instant) {
    && v.decisions.Keys == w.decisions.Keys
    && (forall id :: id in w.decisions && id !in ids ==> v.decisions[id] == w.decisions[id])
    && Due(v.decisions, now) == Due(w.decisions, now) - ids
  }

  lemma ShrinksChain(u: World, v: World, w: World, a: set<string>, b: set<string>, now: Instant)
    requires Shrunk(u, v, a, now) && Shrunk(v, w, b, now)
    ensures Shrunk(u, w, a + b, now)
  {
  }

  lemma SweepCopyShrinks(w: World, copy: Decision, now: Instant)
    requires Tracked(w) && copy.context.id in w.decisions && w.decisions[copy.context.id] == copy && copy.state == Open && !Halts(copy, now)
    ensures Shrunk(w, SweepCopy(w, copy, now), {copy.context.id}, now)
  {
    SweptIsDueExactly(copy, now);
    SweepCopySweeps(w, copy, now);
  }

  lemma SweepCopySweeps(w: World, copy: Decision, now: Instant)
    requires copy.context.id in w.decisions && w.decisions[copy.context.id] == copy && Filed(copy)
    ensures SweepCopy(w, copy, now).decisions == w.decisions[copy.context.id := Swept(copy, now)]
  {
    if !IsExpired(copy, now) { PassAloneIsAdvance(w, copy.context.id, now); }
  }

  lemma LastId(copies: seq<Decision>)
    requires copies != [] && forall i, j :: 0 <= i < j < |copies| ==> copies[i].context.id != copies[j].context.id
    ensures var n := |copies| - 1; copies[n].context.id !in Ids(copies[..n]) && Ids(copies) == Ids(copies[..n]) + {copies[n].context.id}
  {
  }

  lemma OneMoreShrinks(w: World, u: World, ids: set<string>, copy: Decision, now: Instant)
    requires Tracked(u) && Shrunk(w, u, ids, now) && copy.state == Open && !Halts(copy, now)
    requires copy.context.id !in ids && copy.context.id in w.decisions && w.decisions[copy.context.id] == copy
    ensures Tracked(SweepCopy(u, copy, now)) && Shrunk(w, SweepCopy(u, copy, now), ids + {copy.context.id}, now)
  {
    SweepCopyTracks(u, copy, now);
    SweepCopyShrinks(u, copy, now);
    ShrinksChain(w, u, SweepCopy(u, copy, now), ids, {copy.context.id}, now);
  }

  lemma SweepAlone(w: World, copies: seq<Decision>, now: Instant, others: nat -> seq<Event>)
    requires copies != [] && others(|copies| - 1) == []
    ensures SweepAll(w, copies, now, others) == SweepCopy(SweepAll(w, copies[..|copies| - 1], now, others), copies[|copies| - 1], now)
  {
  }

  lemma CurrentPrefix(w: World, copies: seq<Decision>)
    requires Current(w, copies) && copies != []
    ensures var n := |copies| - 1;
            && Current(w, copies[..n]) && copies[n].state == Open
            && copies[n].context.id in w.decisions && w.decisions[copies[n].context.id] == copies[n]
            && copies[n].context.id !in Ids(copies[..n]) && Ids(copies) == Ids(copies[..n]) + {copies[n].context.id}
  {
    LastId(copies);
  }

  lemma NothingSwept(w: World, now: Instant, others: nat -> seq<Event>)
    ensures SweepAll(w, [], now, others) == w && Shrunk(w, w, Ids([]), now)
  {
    assert Ids([]) == {};
  }

  /** Alone at one instant, a sweep that meets no row it cannot read takes exactly its batch
      out of the due set. */
  lemma {:induction false} SweepShrinks(w: World, copies: seq<Decision>, now: Instant, others: nat -> seq<Event>)
    requires Tracked(w) && Current(w, copies) && (forall i: nat :: others(i) == []) && forall i :: 0 <= i < |copies| ==> !Halts(copies[i], now)
    ensures Tracked(SweepAll(w, copies, now, others)) && Shrunk(w, SweepAll(w, copies, now, others), Ids(copies), now)
  {
    if copies == [] {
      NothingSwept(w, now, others);
    } else {
      var n := |copies| - 1;
      CurrentPrefix(w, copies);
      SweepShrinks(w, copies[..n], now, others);
      SweepAlone(w, copies, now, others);
      OneMoreShrinks(w, SweepAll(w, copies[..n], now, others), Ids(copies[..n]), copies[n], now);
    }
  }
}
