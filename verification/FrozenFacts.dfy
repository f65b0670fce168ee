/** Re-judging an open decision: the revised policy set sees the request and the
    facts the decision froze, and asks the live sources only for calls the frozen
    snapshot does not hold. */
module FrozenFacts {
  import opened Basics
  import opened Text
  import opened Policy
  import opened CallKeys
  import opened Engine
  import opened Freezing

  // ---- the snapshot an evaluation leaves behind ----

  /** newFactSnapshot: the answered calls, each under its readable name. */
  function Snapshot(calls: seq<Call>, table: Table, lib: Library): map<string, Json> {
    if calls == [] then map[]
    else
      var n := |calls| - 1;
      var c, before := calls[n], Snapshot(calls[..n], table, lib);
      if Key(c, lib) in table then before[Name(c, lib) := Freeze(table[Key(c, lib)], lib)] else before
  }

  ghost predicate Named(calls: seq<Call>) {
    forall c :: c in calls ==> Over(c.name, NameChar)
  }

  /** A snapshot answers each call with that call's own value and no other's. */
  lemma {:induction false} SnapshotAnswers(calls: seq<Call>, table: Table, lib: Library, c: Call)
    requires Faithful(lib) && Named(calls) && Over(c.name, NameChar)
    ensures Name(c, lib) in Snapshot(calls, table, lib) <==> c in calls && Key(c, lib) in table
    ensures Name(c, lib) in Snapshot(calls, table, lib) ==> Snapshot(calls, table, lib)[Name(c, lib)] == Freeze(table[Key(c, lib)], lib)
  {
    if calls != [] {
      var n := |calls| - 1;
      assert calls == calls[..n] + [calls[n]];
      SnapshotAnswers(calls[..n], table, lib, c);
      NameIsInjective(c, calls[n], lib);
    }
  }

  lemma {:induction false} SnapshotNames(calls: seq<Call>, table: Table, lib: Library, name: string)
    requires name in Snapshot(calls, table, lib)
    ensures exists c :: c in calls && Name(c, lib) == name
  {
    var n := |calls| - 1;
    if name != Name(calls[n], lib) { SnapshotNames(calls[..n], table, lib, name); }
  }

  // ---- answering from it ----

  function Missing(calls: seq<Call>, facts: map<string, Json>, lib: Library): (r: seq<Call>)
    ensures forall c :: c in r <==> c in calls && Name(c, lib) !in facts
  {
    if calls == [] then []
    else
      var n := |calls| - 1;
      assert calls == calls[..n] + [calls[n]];
      Missing(calls[..n], facts, lib) + if Name(calls[n], lib) in facts then [] else [calls[n]]
  }

  /** One call's frozen value, by the type the revised schema declares. */
  function Held(c: Call, facts: map<string, Json>, schema: Schema, lib: Library): Result<Value>
    requires Name(c, lib) in facts
  {
    if c.name !in schema.sources then Err(Fault.Broken) else Restore(schema.sources[c.name], facts[Name(c, lib)], lib)
  }

  /** The calls the snapshot holds. */
  function Recall(calls: seq<Call>, facts: map<string, Json>, schema: Schema, lib: Library): Result<Table> {
    if calls == [] then Ok(map[])
    else
      var n := |calls| - 1;
      var before :- Recall(calls[..n], facts, schema, lib);
      if Name(calls[n], lib) !in facts then Ok(before)
      else
        var v :- Held(calls[n], facts, schema, lib);
        Ok(before[Key(calls[n], lib) := v])
  }

  /** The calls it does not, every one of which must have been answered. */
  function Gain(held: Table, missing: seq<Call>, live: Table, lib: Library): Result<Table> {
    if missing == [] then Ok(held)
    else
      var n := |missing| - 1;
      var before :- Gain(held, missing[..n], live, lib);
      var key := Key(missing[n], lib);
      if key in live then Ok(before[key := live[key]]) else Err(UnresolvedFact)
  }

  /** frozenFacts.ResolveSources. `live` is what the live sources made of the missing
      calls, None when there are none or they failed. */
  function Resolve(calls: seq<Call>, facts: map<string, Json>, schema: Schema, lib: Library, live: Option<Table>): Result<Table> {
    var held :- Recall(calls, facts, schema, lib);
    var missing := Missing(calls, facts, lib);
    if missing == [] then Ok(held) else if live.None? then Err(UnresolvedFact) else Gain(held, missing, live.value, lib)
  }

  /** The plane a revised evaluation reads its facts through. */
  class FrozenPlane {
    const schema: Schema
    const lib: Library
    const values: map<string, Json>
    var fetched: map<string, Json>

    constructor (schema: Schema, lib: Library, values: map<string, Json>)
      ensures this.schema == schema && this.lib == lib && this.values == values && fetched == map[]
    {
      this.schema, this.lib, this.values, fetched := schema, lib, values, map[];
    }

    method ResolveSources(calls: seq<Call>, live: Option<Table>) returns (r: Result<Table>)
      requires fetched == map[]
      modifies this`fetched
      ensures r == Resolve(calls, values, schema, lib, live)
      ensures r.Ok? ==> fetched == Snapshot(Missing(calls, values, lib), if live.Some? then live.value else map[], lib)
    {
      var held, missing := Sort(calls);
      if held.Err? { return held; }
      if missing == [] { return held; }
      if live.None? { return Err(UnresolvedFact); }
      r := Fetch(held.value, missing, live.value);
    }

    /** The first loop: restore what is held, set aside what is not. */
    method Sort(calls: seq<Call>) returns (held: Result<Table>, missing: seq<Call>)
      ensures held == Recall(calls, values, schema, lib)
      ensures held.Ok? ==> missing == Missing(calls, values, lib)
    {
      var facts: Table := map[];
      missing := [];
      for i := 0 to |calls|
        invariant Recall(calls[..i], values, schema, lib) == Ok(facts) && missing == Missing(calls[..i], values, lib)
      {
        assert calls[..i + 1][..i] == calls[..i];
        if Name(calls[i], lib) in values {
          var v := Held(calls[i], values, schema, lib);
          if v.Err? {
            RecallStops(calls, i + 1, values, schema, lib);
            return Err(v.fault), missing;
          }
          facts := facts[Key(calls[i], lib) := v.value];
        } else {
          missing := missing + [calls[i]];
        }
      }
      assert calls[..|calls|] == calls;
      held := Ok(facts);
    }

    /** The second loop: take every missing call from the live answer. */
    method Fetch(held: Table, missing: seq<Call>, live: Table) returns (r: Result<Table>)
      requires fetched == map[]
      modifies this`fetched
      ensures r == Gain(held, missing, live, lib)
      ensures r.Ok? ==> fetched == Snapshot(missing, live, lib)
    {
      var facts := held;
      for i := 0 to |missing|
        invariant Gain(held, missing[..i], live, lib) == Ok(facts) && fetched == Snapshot(missing[..i], live, lib)
      {
        assert missing[..i + 1][..i] == missing[..i];
        var key := Key(missing[i], lib);
        if key !in live {
          GainStops(held, missing, i + 1, live, lib);
          return Err(UnresolvedFact);
        }
        facts := facts[key := live[key]];
        fetched := fetched[Name(missing[i], lib) := Freeze(live[key], lib)];
      }
      assert missing[..|missing|] == missing;
      r := Ok(facts);
    }
  }

  lemma {:induction false} RecallStops(calls: seq<Call>, n: nat, facts: map<string, Json>, schema: Schema, lib: Library)
    requires n <= |calls| && Recall(calls[..n], facts, schema, lib).Err?
    ensures Recall(calls, facts, schema, lib) == Recall(calls[..n], facts, schema, lib)
  {
    if n == |calls| {
      assert calls[..n] == calls;
    } else {
      var m := |calls| - 1;
      assert calls[..m][..n] == calls[..n];
      RecallStops(calls[..m], n, facts, schema, lib);
    }
  }

  lemma {:induction false} GainStops(held: Table, missing: seq<Call>, n: nat, live: Table, lib: Library)
    requires n <= |missing| && Gain(held, missing[..n], live, lib).Err?
    ensures Gain(held, missing, live, lib) == Gain(held, missing[..n], live, lib)
  {
    if n == |missing| {
      assert missing[..n] == missing;
    } else {
      var m := |missing| - 1;
      assert missing[..m][..n] == missing[..n];
      GainStops(held, missing[..m], n, live, lib);
    }
  }

  lemma {:induction false} RecallAnswers(calls: seq<Call>, facts: map<string, Json>, schema: Schema, lib: Library, c: Call)
    requires Faithful(lib) && Named(calls) && Over(c.name, NameChar)
    requires Recall(calls, facts, schema, lib).Ok?
    ensures var t := Recall(calls, facts, schema, lib).value;
            && (Key(c, lib) in t <==> c in calls && Name(c, lib) in facts)
            && (Key(c, lib) in t ==> Held(c, facts, schema, lib) == Ok(t[Key(c, lib)]))
  {
    if calls != [] {
      var n := |calls| - 1;
      assert calls == calls[..n] + [calls[n]];
      RecallAnswers(calls[..n], facts, schema, lib, c);
      KeyIsInjective(c, calls[n], lib);
    }
  }

  lemma {:induction false} GainAnswers(held: Table, missing: seq<Call>, live: Table, lib: Library, c: Call)
    requires Faithful(lib) && Named(missing) && Over(c.name, NameChar) && Gain(held, missing, live, lib).Ok?
    ensures var t := Gain(held, missing, live, lib).value;
            if c in missing then Key(c, lib) in t && Key(c, lib) in live && t[Key(c, lib)] == live[Key(c, lib)]
            else (Key(c, lib) in t <==> Key(c, lib) in held) && (Key(c, lib) in t ==> t[Key(c, lib)] == held[Key(c, lib)])
  {
    if missing != [] {
      var n := |missing| - 1;
      assert missing == missing[..n] + [missing[n]];
      GainAnswers(held, missing[..n], live, lib, c);
      KeyIsInjective(c, missing[n], lib);
    }
  }

  /** A frozen call is answered with its frozen value whatever the live sources say
      now; only a call the snapshot lacks takes a live one. */
  lemma ResolveAnswers(calls: seq<Call>, facts: map<string, Json>, schema: Schema, lib: Library, live: Option<Table>, c: Call)
    requires Faithful(lib) && Named(calls) && c in calls
    requires Resolve(calls, facts, schema, lib, live).Ok?
    ensures var t := Resolve(calls, facts, schema, lib, live).value;
            && Key(c, lib) in t
            && if Name(c, lib) in facts then Held(c, facts, schema, lib) == Ok(t[Key(c, lib)])
               else live.Some? && Key(c, lib) in live.value && t[Key(c, lib)] == live.value[Key(c, lib)]
  {
    RecallAnswers(calls, facts, schema, lib, c);
    var missing := Missing(calls, facts, lib);
    if missing != [] { GainAnswers(Recall(calls, facts, schema, lib).value, missing, live.value, lib, c); }
  }
}
