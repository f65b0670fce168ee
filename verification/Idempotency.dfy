/** Decide attempts under idempotency keys, each split into its lookup, its gates, its
    issuing of challenges, its insert and its second lookup, interleaved at will. */
module Idempotency {
  import opened Basics

  /** The columns a decision row carries for this. An unkeyed row has both empty. */
  datatype Keyed = Keyed(caller: string, key: string, fingerprint: string)

  datatype Phase =
    | Arrived
    | Missed
    | Capped
    | Declined
    | Cleared
    | Issued(id: string)
    | Lost
    | Returned(id: string)
    | Reused
    | Faulted

  /** One attempt. `issued` is whether it opened challenges, `found` which row its key
      already named when it arrived. */
  datatype Attempt = Attempt(request: Keyed, phase: Phase, issued: bool, found: Option<string>)

  datatype Table = Table(rows: map<string, Keyed>, attempts: map<nat, Attempt>)

  const EMPTY := Table(map[], map[])

  // ---- lookup ----

  predicate Names(row: Keyed, caller: string, key: string) {
    row.caller == caller && row.key == key
  }

  /** DecisionByIdempotencyKey. The empty key names nothing. */
  ghost function Holder(rows: map<string, Keyed>, caller: string, key: string): (r: Option<string>)
    ensures r.Some? ==> key != "" && r.value in rows && Names(rows[r.value], caller, key)
    ensures r.None? && key != "" ==> forall id :: id in rows ==> !Names(rows[id], caller, key)
  {
    if key != "" && exists id :: id in rows && Names(rows[id], caller, key)
    then var id :| id in rows && Names(rows[id], caller, key); Some(id)
    else None
  }

  /** sameRequest, closed on a stored row without a fingerprint. */
  predicate SameRequest(stored: Keyed, fingerprint: string) {
    stored.fingerprint != "" && stored.fingerprint == fingerprint
  }

  ghost function Answer(rows: map<string, Keyed>, id: string, request: Keyed): Phase
    requires id in rows
  {
    if SameRequest(rows[id], request.fingerprint) then Returned(id) else Reused
  }

  // ---- steps ----

  /** `full` is the outstanding cap; `declined` a policy deny, an error or a shed
      issuance. */
  datatype Step =
    | Arrive(n: nat, caller: string, key: string, fingerprint: string)
    | Look(n: nat)
    | Gate(n: nat, full: bool, declined: bool)
    | Issue(n: nat, id: string, shed: bool)
    | Insert(n: nat)
    | LookAgain(n: nat)

  function Set(t: Table, n: nat, a: Attempt): Table {
    t.(attempts := t.attempts[n := a])
  }

  ghost function Take(t: Table, s: Step): Table {
    if s.Arrive? then
      if s.n in t.attempts || s.fingerprint == "" then t
      else Set(t, s.n, Attempt(Keyed(s.caller, s.key, s.fingerprint), Arrived, false, Holder(t.rows, s.caller, s.key)))
    else if s.n !in t.attempts then t
    else
      var a := t.attempts[s.n];
      match s
      case Look(n) =>
        if a.phase != Arrived then t
        else
          var holder := Holder(t.rows, a.request.caller, a.request.key);
          Set(t, n, a.(phase := if holder.Some? then Answer(t.rows, holder.value, a.request) else Missed))
      case Gate(n, full, declined) =>
        if a.phase != Missed then t else Set(t, n, a.(phase := if full then Capped else if declined then Declined else Cleared))
      case Issue(n, id, shed) =>
        if a.phase != Cleared then t else Set(t, n, a.(issued := true, phase := if shed then Declined else Issued(id)))
      case Insert(n) =>
        if !a.phase.Issued? then t
        else
          var row := if a.request.key == "" then a.request.(fingerprint := "") else a.request;
          if a.phase.id in t.rows || Holder(t.rows, row.caller, row.key).Some? then
            Set(t, n, a.(phase := if row.key == "" then Faulted else Lost))
          else Set(t.(rows := t.rows[a.phase.id := row]), n, a.(phase := Returned(a.phase.id)))
      case LookAgain(n) =>
        if a.phase != Lost then t
        else
          var holder := Holder(t.rows, a.request.caller, a.request.key);
          Set(t, n, a.(phase := if holder.Some? then Answer(t.rows, holder.value, a.request) else Faulted))
  }

  ghost function Run(t: Table, steps: seq<Step>): Table
    decreases |steps|
  {
    if steps == [] then t else Take(Run(t, steps[..|steps| - 1]), steps[|steps| - 1])
  }

  // ---- the invariant ----

  /** (caller, key) is unique among keyed rows, which all carry a fingerprint. */
  ghost predicate Unique(rows: map<string, Keyed>) {
    && (forall x, y :: x in rows && y in rows && rows[x].key != "" && Names(rows[y], rows[x].caller, rows[x].key) ==> x == y)
    && (forall x :: x in rows && rows[x].key != "" ==> rows[x].fingerprint != "")
  }

  /** An attempt returns a row of its own caller, key and fingerprint; one whose key
      was taken when it arrived never gets past the lookup. */
  ghost predicate Honest(rows: map<string, Keyed>, a: Attempt) {
    && a.request.fingerprint != ""
    && (a.phase.Returned? ==>
          && a.phase.id in rows && Names(rows[a.phase.id], a.request.caller, a.request.key)
          && (a.request.key != "" ==> rows[a.phase.id].fingerprint == a.request.fingerprint))
    && (a.found.Some? ==>
          && a.request.key != "" && a.found.value in rows && Names(rows[a.found.value], a.request.caller, a.request.key)
          && !a.issued && (a.phase == Arrived || a.phase == Answer(rows, a.found.value, a.request)))
  }

  ghost predicate Consistent(t: Table) {
    Unique(t.rows) && forall n :: n in t.attempts ==> Honest(t.rows, t.attempts[n])
  }

  ghost predicate Grows(a: map<string, Keyed>, b: map<string, Keyed>) {
    forall id :: id in a ==> id in b && b[id] == a[id]
  }

  lemma HolderIsUnique(rows: map<string, Keyed>, id: string, caller: string, key: string)
    requires Unique(rows) && id in rows && Names(rows[id], caller, key) && key != ""
    ensures Holder(rows, caller, key) == Some(id)
  {
  }

  lemma SetKeeps(t: Table, n: nat, a: Attempt)
    requires Consistent(t) && Honest(t.rows, a)
    ensures Consistent(Set(t, n, a))
  {
  }

  lemma InsertKeeps(t: Table, id: string, row: Keyed)
    requires Consistent(t) && id !in t.rows && (row.key != "" ==> row.fingerprint != "")
    requires Holder(t.rows, row.caller, row.key).None?
    ensures Consistent(t.(rows := t.rows[id := row])) && Grows(t.rows, t.rows[id := row])
  {
    var rows := t.rows[id := row];
    forall n | n in t.attempts ensures Honest(rows, t.attempts[n]) { assert Honest(t.rows, t.attempts[n]); }
  }

  lemma TakeKeeps(t: Table, s: Step)
    requires Consistent(t)
    ensures Consistent(Take(t, s)) && Grows(t.rows, Take(t, s).rows)
  {
    if s.Arrive? {
      if s.n !in t.attempts && s.fingerprint != "" {
        SetKeeps(t, s.n, Attempt(Keyed(s.caller, s.key, s.fingerprint), Arrived, false, Holder(t.rows, s.caller, s.key)));
      }
    } else if s.n in t.attempts {
      var a := t.attempts[s.n];
      assert Honest(t.rows, a);
      if s.Insert? && a.phase.Issued? {
        var row := if a.request.key == "" then a.request.(fingerprint := "") else a.request;
        if a.phase.id !in t.rows && Holder(t.rows, row.caller, row.key).None? {
          InsertKeeps(t, a.phase.id, row);
          SetKeeps(t.(rows := t.rows[a.phase.id := row]), s.n, a.(phase := Returned(a.phase.id)));
        } else {
          SetKeeps(t, s.n, a.(phase := if row.key == "" then Faulted else Lost));
        }
      } else {
        if a.found.Some? { HolderIsUnique(t.rows, a.found.value, a.request.caller, a.request.key); }
        assert Honest(t.rows, Take(t, s).attempts[s.n]);
        SetKeeps(t, s.n, Take(t, s).attempts[s.n]);
      }
    }
  }

  lemma {:induction false} RunKeeps(t: Table, steps: seq<Step>)
    requires Consistent(t)
    ensures Consistent(Run(t, steps)) && Grows(t.rows, Run(t, steps).rows)
    decreases |steps|
  {
    if steps != [] {
      RunKeeps(t, steps[..|steps| - 1]);
      TakeKeeps(Run(t, steps[..|steps| - 1]), steps[|steps| - 1]);
    }
  }

  // ---- the results ----

  /** However attempts interleave, a key names at most one decision of its caller, and
      every attempt that returns an identifier under it returns that one, for the
      request the key was first used for. */
  lemma KeyNamesOneDecision(steps: seq<Step>, m: nat, n: nat)
    requires m in Run(EMPTY, steps).attempts && n in Run(EMPTY, steps).attempts
    requires var t := Run(EMPTY, steps);
             && t.attempts[m].phase.Returned? && t.attempts[n].phase.Returned?
             && t.attempts[m].request.key == t.attempts[n].request.key != "" && t.attempts[m].request.caller == t.attempts[n].request.caller
    ensures var t := Run(EMPTY, steps);
            && t.attempts[m].phase.id == t.attempts[n].phase.id && t.attempts[m].phase.id in t.rows
            && t.attempts[m].request.fingerprint == t.attempts[n].request.fingerprint == t.rows[t.attempts[m].phase.id].fingerprint
            && forall id :: id in t.rows && Names(t.rows[id], t.attempts[m].request.caller, t.attempts[m].request.key) ==> id == t.attempts[m].phase.id
  {
    RunKeeps(EMPTY, steps);
    var t := Run(EMPTY, steps);
    assert Honest(t.rows, t.attempts[m]) && Honest(t.rows, t.attempts[n]);
  }

  /** No attempt with another fingerprint is ever handed a keyed decision, by the
      lookup or by losing the insert. */
  lemma NoSubstitution(steps: seq<Step>, n: nat, id: string)
    requires n in Run(EMPTY, steps).attempts && id in Run(EMPTY, steps).rows && Run(EMPTY, steps).rows[id].key != ""
    requires Run(EMPTY, steps).attempts[n].request.fingerprint != Run(EMPTY, steps).rows[id].fingerprint
    ensures Run(EMPTY, steps).attempts[n].phase != Returned(id)
  {
    RunKeeps(EMPTY, steps);
    assert Honest(Run(EMPTY, steps).rows, Run(EMPTY, steps).attempts[n]);
  }

  /** An attempt that arrives after its key's row exists opens no challenge and is not
      refused by the cap, whatever runs beside it: it has answered with that row, has
      been told the key is spent, or has yet to look. */
  lemma RetryOpensNothing(before: seq<Step>, after: seq<Step>, n: nat, caller: string, key: string, fingerprint: string, id: string)
    requires key != "" && fingerprint != "" && n !in Run(EMPTY, before).attempts
    requires id in Run(EMPTY, before).rows && Names(Run(EMPTY, before).rows[id], caller, key)
    ensures var t := Run(Take(Run(EMPTY, before), Arrive(n, caller, key, fingerprint)), after);
            && n in t.attempts && !t.attempts[n].issued
            && (t.attempts[n].phase == Arrived || t.attempts[n].phase == if Run(EMPTY, before).rows[id].fingerprint == fingerprint then Returned(id) else Reused)
  {
    RunKeeps(EMPTY, before);
    var t := Run(EMPTY, before);
    HolderIsUnique(t.rows, id, caller, key);
    TakeKeeps(t, Arrive(n, caller, key, fingerprint));
    var u := Take(t, Arrive(n, caller, key, fingerprint));
    RunKeeps(u, after);
    AttemptStays(u, after, n);
    assert Honest(Run(u, after).rows, Run(u, after).attempts[n]);
  }

  /** What an attempt asked for, and what it found, it keeps. */
  lemma {:induction false} AttemptStays(t: Table, steps: seq<Step>, n: nat)
    requires n in t.attempts
    ensures var v := Run(t, steps); n in v.attempts && v.attempts[n].request == t.attempts[n].request && v.attempts[n].found == t.attempts[n].found
    decreases |steps|
  {
    if steps != [] { AttemptStays(t, steps[..|steps| - 1], n); }
  }
}
