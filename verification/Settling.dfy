/** The settle pass can be stopped after any of its writes and run again: it reaches
    the decision an uninterrupted pass reaches, in whatever order it wrote. */
module Settling {
  import opened Basics
  import opened Approvers
  import opened Challenges
  import opened Decisions

  /** Settling two sets of rows, one after the other, settles their union. */
  lemma SettlesUnite(d: Decision, a: set<nat>, b: set<nat>, now: Instant)
    ensures Settle(Settle(d, a, now), b, now) == Settle(d, a + b, now)
  {
    var once, twice, both := Settle(d, a, now), Settle(Settle(d, a, now), b, now), Settle(d, a + b, now);
    assert once.approvals == d.approvals;
    assert twice.rows == both.rows;
  }

  lemma OnlyRowsSettle(d: Decision, a: set<nat>, b: set<nat>, now: Instant)
    requires forall i: nat :: i < |d.rows| ==> (i in a <==> i in b)
    ensures Settle(d, a, now) == Settle(d, b, now)
  {
    assert Settle(d, a, now).rows == Settle(d, b, now).rows;
  }

  /** The rows written one at a time, in the order given, some perhaps twice. */
  function WriteRows(d: Decision, order: seq<nat>, now: Instant): Decision {
    if order == [] then d else Settle(WriteRows(d, order[..|order| - 1], now), {order[|order| - 1]}, now)
  }

  /** The rows written. */
  function Touched(order: seq<nat>): (r: set<nat>)
    ensures forall i :: i in r <==> i in order
  {
    if order == [] then {}
    else
      var n := |order| - 1;
      assert order == order[..n] + [order[n]];
      Touched(order[..n]) + {order[n]}
  }

  lemma {:induction false} OrderOfWrites(d: Decision, order: seq<nat>, now: Instant)
    ensures order != [] ==> WriteRows(d, order, now) == Settle(d, Touched(order), now)
  {
    if order != [] {
      var n := |order| - 1;
      OrderOfWrites(d, order[..n], now);
      if n == 0 {
        assert Touched(order[..n]) + {order[n]} == {order[n]};
      } else {
        SettlesUnite(d, Touched(order[..n]), {order[n]}, now);
      }
    }
  }

  /** Settling rows moves no row in or out of a handler's reach. */
  lemma HaltStays(d: Decision, done: set<nat>, now: Instant)
    ensures Halt(Settle(d, done, now).rows) == Halt(d.rows)
  {
    var e := Settle(d, done, now);
    assert forall i :: 0 <= i < |d.rows| ==> (Stuck(e.rows[i]) <==> Stuck(d.rows[i]));
  }

  /** Stopped after any of its writes, in any order, and run again at the same instant:
      the decision, its rows and its scheduler column are those of one full pass. */
  lemma RerunReachesTheSame(d: Decision, order: seq<nat>, now: Instant)
    requires d.state == Open && !IsExpired(d, now) && forall i :: i in order && i < |d.rows| ==> i < Halt(d.rows)
    ensures Advance(WriteRows(d, order, now), now) == Advance(d, now)
  {
    if order != [] {
      var done, all := Touched(order), Below(Halt(d.rows));
      OrderOfWrites(d, order, now);
      HaltStays(d, done, now);
      SettlesUnite(d, done, all, now);
      OnlyRowsSettle(d, done + all, all, now);
    }
  }

  /** A full pass is any order of writes that reaches every row before the first it cannot
      read, and then, if there is no such row, the verdict. */
  lemma AnyOrderIsFull(d: Decision, order: seq<nat>, now: Instant)
    requires d.state == Open && !IsExpired(d, now) && order != [] && forall i: nat :: i < |d.rows| ==> (i in order <==> i < Halt(d.rows))
    ensures Advance(d, now) == Ended(d, WriteRows(d, order, now))
  {
    OrderOfWrites(d, order, now);
    OnlyRowsSettle(d, Touched(order), Below(Halt(d.rows)), now);
  }

  /** What a pass decides, from the rows as they stand and no history: denied exactly
      when it could read them all and some challenge has failed by then, allowed exactly
      when all are met. */
  lemma PassDecidesExactly(d: Decision, now: Instant)
    requires d.state == Open && !IsExpired(d, now)
    ensures var e, n := Advance(d, now), Halt(d.rows);
            && |e.rows| == |d.rows| && (forall i :: 0 <= i < |d.rows| ==> e.rows[i] == if i < n then Settled(d.rows[i], Have(d, i), now) else d.rows[i])
            && (e.state == Denied <==> n == |d.rows| && exists i :: 0 <= i < |e.rows| && Failing(e.rows[i]))
            && (e.state == Allowed <==> forall i :: 0 <= i < |e.rows| ==> e.rows[i].state == Satisfied)
            && (e.state in {Open, Allowed, Denied})
  {
    var e := Settle(d, Below(Halt(d.rows)), now);
    assert |e.rows| == |d.rows| && forall i :: 0 <= i < |d.rows| ==> e.rows[i] == if i < Halt(d.rows) then Settled(d.rows[i], Have(d, i), now) else d.rows[i];
    EndsDecide(d, e);
  }

  lemma EndsDecide(d: Decision, e: Decision)
    requires e.state == Open && |e.rows| == |d.rows| && forall i :: Halt(d.rows) <= i < |d.rows| ==> e.rows[i] == d.rows[i]
    ensures var f := Ended(d, e);
            && f.rows == e.rows && f.state in {Open, Allowed, Denied}
            && (f.state == Denied <==> Halt(d.rows) == |d.rows| && exists i :: 0 <= i < |e.rows| && Failing(e.rows[i]))
            && (f.state == Allowed <==> forall i :: 0 <= i < |e.rows| ==> e.rows[i].state == Satisfied)
  {
    if Halt(d.rows) < |d.rows| { assert Stuck(e.rows[Halt(d.rows)]); }
    assert (exists i :: 0 <= i < |e.rows| && Failing(e.rows[i])) ==> !(forall i :: 0 <= i < |e.rows| ==> e.rows[i].state == Satisfied);
  }

  /** A completed pass is a fixpoint. */
  lemma PassIsFixpoint(d: Decision, now: Instant)
    ensures Advance(Advance(d, now), now) == Advance(d, now)
  {
    if d.state == Open && !IsExpired(d, now) && Advance(d, now).state == Open {
      var e := Advance(d, now);
      SettledStays(d, e, now);
    }
  }

  lemma SettledStays(d: Decision, e: Decision, now: Instant)
    requires d.state == Open && e == Settle(d, Below(Halt(d.rows)), now)
    ensures e.state == Open && e.expiresAt == d.expiresAt && Halt(e.rows) == Halt(d.rows) && |e.rows| == |d.rows|
    ensures Settle(e, Below(Halt(d.rows)), now) == e
  {
    var all := Below(Halt(d.rows));
    SettlesUnite(d, all, all, now);
    HaltStays(d, all, now);
    assert all + all == all;
  }

  /** The row a vote leaves, and the row it found, settle alike once the vote counts. */
  lemma VotedRowSettlesAlike(row: Row, have: nat, at: Instant)
    requires row.state == Pending && row.detail.QuorumDetail? && !Foreign(row)
    ensures Settled(row.(state := if have >= row.detail.threshold then Satisfied else Pending), have, at) == Settled(row, have, at)
  {
  }

  /** A quorum submission stopped after its approval row is finished by the next pass as
      if it had not been stopped, exactly when that pass gets as far as its row or the
      vote was not the last one needed. */
  lemma StoppedVoteIsFinished(d: Decision, i: nat, dep: Deployment, s: Subject, p: Payload, now: Instant, at: Instant)
    requires Submit(d, i, dep, s, p, now, false).Ok? && d.rows[i].detail.QuorumDetail? && !IsExpired(d, at)
    ensures Submit(d, i, dep, s, p, now, true).Ok?
    ensures var stopped := Submit(d, i, dep, s, p, now, true).value;
            Advance(stopped, at) == Advance(Submit(d, i, dep, s, p, now, false).value, at)
            <==> i < Halt(d.rows) || Have(stopped, i) < d.rows[i].detail.threshold
  {
    var vote := Approve(d.rows[i].detail, d.context, s, p).value;
    var voted := RecordApproval(d, i, vote.0, vote.1);
    var row := d.rows[i].(state := if Have(voted, i) >= d.rows[i].detail.threshold then Satisfied else Pending);
    VotedRowSettlesAlike(d.rows[i], Have(voted, i), at);
    RowReplacedSettlesAlike(voted, i, row, at);
  }

  lemma RowReplacedSettlesAlike(d: Decision, i: nat, row: Row, at: Instant)
    requires d.state == Open && !IsExpired(d, at) && i < |d.rows| && Settled(row, Have(d, i), at) == Settled(d.rows[i], Have(d, i), at)
    requires !Stuck(row) && !Stuck(d.rows[i])
    ensures Advance(SetRow(d, i, row), at) == Advance(d, at) <==> i < Halt(d.rows) || row == d.rows[i]
  {
    var n := Halt(d.rows);
    RowReplacedHalts(d, i, row);
    RowReplacedSettles(d, SetRow(d, i, row), i, row, n, at);
    if n <= i {
      assert Advance(SetRow(d, i, row), at).rows[i] == row && Advance(d, at).rows[i] == d.rows[i];
    }
  }

  lemma RowReplacedHalts(d: Decision, i: nat, row: Row)
    requires i < |d.rows| && !Stuck(row) && !Stuck(d.rows[i])
    ensures Halt(SetRow(d, i, row).rows) == Halt(d.rows)
  {
    var e := SetRow(d, i, row);
    assert forall k :: 0 <= k < |d.rows| ==> (Stuck(e.rows[k]) <==> Stuck(d.rows[k]));
  }

  lemma RowReplacedSettles(d: Decision, e: Decision, i: nat, row: Row, n: nat, at: Instant)
    requires d.state == Open && i < |d.rows| && e == SetRow(d, i, row) && Settled(row, Have(d, i), at) == Settled(d.rows[i], Have(d, i), at)
    ensures i < n || row == d.rows[i] ==> Settle(e, Below(n), at) == Settle(d, Below(n), at)
  {
    if i < n || row == d.rows[i] { assert Settle(e, Below(n), at).rows == Settle(d, Below(n), at).rows; }
  }

  // ---- the tally, and a pass row by row ----

  /** The tally of a pass. */
  function Met(rows: seq<Row>): nat {
    if rows == [] then 0 else Met(rows[..|rows| - 1]) + if rows[|rows| - 1].state == Satisfied then 1 else 0
  }

  function Lost(rows: seq<Row>): nat {
    if rows == [] then 0 else Lost(rows[..|rows| - 1]) + if Failing(rows[|rows| - 1]) then 1 else 0
  }

  lemma {:induction false} TallyIsVerdict(rows: seq<Row>)
    ensures Met(rows) <= |rows|
    ensures Verdict(rows) == if Lost(rows) > 0 then Some(Fail) else if Met(rows) == |rows| then Some(Satisfy) else None
  {
    if rows != [] {
      var n := |rows| - 1;
      TallyIsVerdict(rows[..n]);
      assert forall i :: 0 <= i < n ==> rows[..n][i] == rows[i];
    }
  }

  lemma TallyOneMore(rows: seq<Row>, i: nat)
    requires i < |rows|
    ensures Met(rows[..i + 1]) == Met(rows[..i]) + if rows[i].state == Satisfied then 1 else 0
    ensures Lost(rows[..i + 1]) == Lost(rows[..i]) + if Failing(rows[i]) then 1 else 0
  {
    assert rows[..i + 1][..i] == rows[..i];
  }

  lemma SettledNone(d: Decision, now: Instant)
    requires d.state == Open && d.next == Some(NextDeadline(d.expiresAt, d.rows))
    ensures Settle(d, Below(0), now) == d
  {
    assert Settle(d, Below(0), now).rows == d.rows;
  }

  lemma SettledOneMore(d: Decision, i: nat, now: Instant)
    requires i < |d.rows| && d.state == Open
    ensures var e, s := Settle(d, Below(i), now), Settled(d.rows[i], Have(d, i), now);
            && Settle(d, Below(i + 1), now) == SetRow(e, i, s)
            && (s == d.rows[i] ==> Settle(d, Below(i + 1), now) == e)
  {
    var e, f := Settle(d, Below(i), now), Settle(d, Below(i + 1), now);
    var s := Settled(d.rows[i], Have(d, i), now);
    assert f.rows == e.rows[i := s] by { SettledRows(d, i, now); }
    if s == d.rows[i] { assert f.rows == e.rows; }
  }

  lemma SettledRows(d: Decision, i: nat, now: Instant)
    requires i < |d.rows|
    ensures Settle(d, Below(i), now).rows[i] == d.rows[i]
    ensures Settle(d, Below(i + 1), now).rows == Settle(d, Below(i), now).rows[i := Settled(d.rows[i], Have(d, i), now)]
  {
  }
}
