/** The bounded TTL cache in front of every fact source, and the unbounded map of last
    puts that it refines. */
module FactCache {
  import opened Basics
  import Policy

  type Fact = Policy.Value

  datatype Entry = Entry(value: Fact, expires: Instant)

  type Entries = map<string, Entry>

  predicate IsLive(e: Entry, now: Instant) {
    now < e.expires
  }

  // ---- what a cache may do ----

  datatype Op =
    | Get(key: string, now: Instant, hit: Option<Fact>)
    | Put(key: string, value: Fact, ttl: int, now: Instant)

  ghost predicate Within(a: Entries, b: Entries) {
    forall k :: k in a ==> k in b && a[k] == b[k]
  }

  function Live(a: Entries, now: Instant): Entries {
    map k | k in a && IsLive(a[k], now) :: a[k]
  }

  ghost predicate IsSoonest(a: Entries, key: string) {
    key in a && forall k :: k in a ==> a[key].expires <= a[k].expires
  }

  /** evictLocked: expired entries first, and failing that one closest to expiring. */
  ghost predicate Evicts(a: Entries, b: Entries, now: Instant, max: nat) {
    var live := Live(a, now);
    if |live| < max then b == live else exists victim :: IsSoonest(live, victim) && b == live - {victim}
  }

  /** One operation on the bounded cache. */
  ghost predicate Next(a: Entries, op: Op, b: Entries, max: nat) {
    match op
    case Get(key, now, hit) =>
      if key in a && IsLive(a[key], now) then hit == Some(a[key].value) && b == a
      else hit == None && b == a - {key}
    case Put(key, value, ttl, now) =>
      if ttl <= 0 then b == a
      else if key in a || |a| < max then b == a[key := Entry(value, now + ttl)]
      else exists kept :: Evicts(a, kept, now, max) && b == kept[key := Entry(value, now + ttl)]
  }

  /** A run of the cache from empty. */
  ghost predicate Runs(states: seq<Entries>, ops: seq<Op>, max: nat) {
    && |states| == |ops| + 1 && states[0] == map[]
    && forall i :: 0 <= i < |ops| ==> Next(states[i], ops[i], states[i + 1], max)
  }

  // ---- the reference ----

  /** The unbounded map of last puts with a positive ttl. */
  function LastPuts(ops: seq<Op>): Entries {
    if ops == [] then map[]
    else
      var n := |ops| - 1;
      var before, op := LastPuts(ops[..n]), ops[n];
      if op.Put? && op.ttl > 0 then before[op.key := Entry(op.value, op.now + op.ttl)] else before
  }

  ghost predicate PutsLive(op: Op, key: string) {
    op.Put? && op.key == key && op.ttl > 0
  }

  /** What the map holds under a key is the latest positive-ttl put under it. */
  lemma {:induction false} LastPutIsLatest(ops: seq<Op>, key: string)
    ensures key in LastPuts(ops) ==>
              exists j :: 0 <= j < |ops| && PutsLive(ops[j], key) && LastPuts(ops)[key] == Entry(ops[j].value, ops[j].now + ops[j].ttl)
                          && forall l :: j < l < |ops| ==> !PutsLive(ops[l], key)
    ensures key !in LastPuts(ops) ==> forall l :: 0 <= l < |ops| ==> !PutsLive(ops[l], key)
  {
    if ops != [] {
      var n := |ops| - 1;
      LastPutIsLatest(ops[..n], key);
      if !PutsLive(ops[n], key) && key in LastPuts(ops) {
        var j :| 0 <= j < n && PutsLive(ops[..n][j], key) && LastPuts(ops[..n])[key] == Entry(ops[..n][j].value, ops[..n][j].now + ops[..n][j].ttl)
                 && forall l :: j < l < n ==> !PutsLive(ops[..n][l], key);
        assert ops[..n][j] == ops[j] && forall l :: j < l < n ==> ops[..n][l] == ops[l];
        assert forall l :: j < l < |ops| ==> !PutsLive(ops[l], key);
        assert PutsLive(ops[j], key);
      } else if key !in LastPuts(ops) {
        assert forall l :: 0 <= l < n ==> ops[..n][l] == ops[l];
      } else {
        assert PutsLive(ops[n], key);
      }
    }
  }

  // ---- refinement ----

  /** A put after room was made, or where there was room. */
  lemma StoreRefines(kept: Entries, key: string, e: Entry, max: nat, ref: Entries)
    requires Within(kept, ref) && (key in kept || |kept| < max) && |kept| <= max
    ensures Within(kept[key := e], ref[key := e]) && |kept[key := e]| <= max
  {
    SizeAfter(kept, key, e);
  }

  lemma WithinChains(a: Entries, b: Entries, c: Entries)
    requires Within(a, b) && Within(b, c)
    ensures Within(a, c)
  {
  }

  lemma LiveIsSmaller(a: Entries, now: Instant)
    ensures Within(Live(a, now), a) && |Live(a, now)| <= |a|
  {
    assert Live(a, now).Keys <= a.Keys;
    SubsetIsSmaller(Live(a, now).Keys, a.Keys);
  }

  lemma SizeWithout(m: Entries, k: string)
    requires k in m
    ensures |m - {k}| == |m| - 1
  {
    assert (m - {k}).Keys == m.Keys - {k};
  }

  /** Eviction makes room and adds nothing. */
  lemma EvictionMakesRoom(a: Entries, b: Entries, now: Instant, max: nat)
    requires Evicts(a, b, now, max) && |a| <= max && max >= 1
    ensures Within(b, a) && |b| < max
  {
    LiveIsSmaller(a, now);
    var live := Live(a, now);
    if |live| >= max {
      var victim :| IsSoonest(live, victim) && b == live - {victim};
      SizeWithout(live, victim);
    }
  }

  lemma PutRefines(a: Entries, key: string, value: Fact, ttl: int, now: Instant, b: Entries, max: nat, ref: Entries)
    requires Next(a, Put(key, value, ttl, now), b, max) && max >= 1 && Within(a, ref) && |a| <= max && ttl > 0
    ensures Within(b, ref[key := Entry(value, now + ttl)]) && |b| <= max
  {
    var e := Entry(value, now + ttl);
    if key in a || |a| < max {
      StoreRefines(a, key, e, max, ref);
    } else {
      var kept :| Evicts(a, kept, now, max) && b == kept[key := e];
      EvictionMakesRoom(a, kept, now, max);
      WithinChains(kept, a, ref);
      StoreRefines(kept, key, e, max, ref);
    }
  }

  lemma GetRefines(a: Entries, key: string, now: Instant, hit: Option<Fact>, b: Entries, max: nat, ref: Entries)
    requires Next(a, Get(key, now, hit), b, max) && Within(a, ref) && |a| <= max
    ensures Within(b, ref) && |b| <= max
    ensures hit.Some? ==> key in ref && IsLive(ref[key], now) && hit.value == ref[key].value
  {
    if key in a {
      assert (a - {key}).Keys == a.Keys - {key};
    } else {
      assert a - {key} == a;
    }
  }

  lemma NextRefines(a: Entries, op: Op, b: Entries, max: nat, ref: Entries)
    requires Next(a, op, b, max) && max >= 1 && Within(a, ref) && |a| <= max
    ensures Within(b, if op.Put? && op.ttl > 0 then ref[op.key := Entry(op.value, op.now + op.ttl)] else ref)
    ensures |b| <= max
    ensures op.Get? && op.hit.Some? ==> op.key in ref && IsLive(ref[op.key], op.now) && op.hit.value == ref[op.key].value
  {
    match op
    case Get(key, now, hit) => GetRefines(a, key, now, hit, b, max, ref);
    case Put(key, value, ttl, now) => if ttl > 0 { PutRefines(a, key, value, ttl, now, b, max, ref); }
  }

  lemma SizeAfter(m: Entries, k: string, e: Entry)
    ensures |m[k := e]| == |m| + if k in m then 0 else 1
  {
    assert m[k := e].Keys == m.Keys + {k};
  }

  lemma {:induction false} RunRefines(states: seq<Entries>, ops: seq<Op>, max: nat, n: nat)
    requires Runs(states, ops, max) && max >= 1 && n <= |ops|
    ensures Within(states[n], LastPuts(ops[..n])) && |states[n]| <= max
  {
    if n > 0 {
      RunRefines(states, ops, max, n - 1);
      assert ops[..n][..n - 1] == ops[..n - 1];
      NextRefines(states[n - 1], ops[n - 1], states[n], max, LastPuts(ops[..n - 1]));
    }
  }

  /** In any run every hit is the latest value put under its key with a positive ttl,
      put less than that ttl ago. */
  lemma HitsAreLatestPuts(states: seq<Entries>, ops: seq<Op>, max: nat, i: nat)
    requires Runs(states, ops, max) && max >= 1 && i < |ops| && ops[i].Get? && ops[i].hit.Some?
    ensures exists j :: 0 <= j < i && PutsLive(ops[j], ops[i].key) && ops[i].hit.value == ops[j].value && ops[i].now < ops[j].now + ops[j].ttl
                        && forall l :: j < l < i ==> !PutsLive(ops[l], ops[i].key)
  {
    RunRefines(states, ops, max, i);
    NextRefines(states[i], ops[i], states[i + 1], max, LastPuts(ops[..i]));
    LastPutIsLatest(ops[..i], ops[i].key);
    var key, before := ops[i].key, ops[..i];
    var j :| 0 <= j < i && PutsLive(before[j], key) && LastPuts(before)[key] == Entry(before[j].value, before[j].now + before[j].ttl)
             && forall l :: j < l < i ==> !PutsLive(before[l], key);
    assert before[j] == ops[j] && forall l :: j < l < i ==> before[l] == ops[l];
  }

  /** And the bound holds after every operation. */
  lemma BoundHolds(states: seq<Entries>, ops: seq<Op>, max: nat, i: nat)
    requires Runs(states, ops, max) && max >= 1 && i <= |ops|
    ensures |states[i]| <= max
  {
    RunRefines(states, ops, max, i);
  }

  /** A clock that does not run back, and no put that had to make room. */
  ghost predicate Roomy(states: seq<Entries>, ops: seq<Op>, max: nat)
    requires |states| == |ops| + 1
  {
    && (forall i, j :: 0 <= i < j < |ops| ==> ops[i].now <= ops[j].now)
    && (forall i :: 0 <= i < |ops| && ops[i].Put? ==> ops[i].key in states[i] || |states[i]| < max)
  }

  lemma {:induction false} RoomyKeepsLive(states: seq<Entries>, ops: seq<Op>, max: nat, n: nat, key: string)
    requires Runs(states, ops, max) && Roomy(states, ops, max) && n <= |ops|
    ensures key in LastPuts(ops[..n]) && key !in states[n] ==> n > 0 && LastPuts(ops[..n])[key].expires <= ops[n - 1].now
    ensures key in states[n] ==> key in LastPuts(ops[..n]) && states[n][key] == LastPuts(ops[..n])[key]
  {
    if n > 0 {
      RoomyKeepsLive(states, ops, max, n - 1, key);
      assert ops[..n][..n - 1] == ops[..n - 1];
      var op := ops[n - 1];
      assert Next(states[n - 1], op, states[n], max);
    }
  }

  /** Only eviction costs a hit: where no put had to make room, the cache hits exactly
      when the unbounded map does. */
  lemma RoomyCacheIsExact(states: seq<Entries>, ops: seq<Op>, max: nat, i: nat)
    requires Runs(states, ops, max) && Roomy(states, ops, max) && i < |ops| && ops[i].Get?
    ensures var ref, op := LastPuts(ops[..i]), ops[i];
            op.hit == if op.key in ref && IsLive(ref[op.key], op.now) then Some(ref[op.key].value) else None
  {
    RoomyKeepsLive(states, ops, max, i, ops[i].key);
    assert Next(states[i], ops[i], states[i + 1], max);
  }

  // ---- the cache as it is ----

  class Cache {
    const max: nat
    var entries: Entries

    constructor (max: nat)
      ensures this.max == max && entries == map[]
    {
      this.max := max;
      entries := map[];
    }

    method Get(key: string, now: Instant) returns (hit: Option<Fact>)
      modifies `entries
      ensures Next(old(entries), Op.Get(key, now, hit), entries, max)
    {
      if key !in entries {
        assert entries - {key} == entries;
        return None;
      }
      if !IsLive(entries[key], now) {
        entries := entries - {key};
        return None;
      }
      hit := Some(entries[key].value);
    }

    method Put(key: string, value: Fact, ttl: int, now: Instant)
      requires |entries| <= max && max >= 1
      modifies `entries
      ensures Next(old(entries), Op.Put(key, value, ttl, now), entries, max) && |entries| <= max
      ensures ttl > 0 ==> key in entries && entries[key] == Entry(value, now + ttl)
    {
      if ttl <= 0 { return; }
      if key !in entries && |entries| >= max {
        Evict(now);
        EvictionMakesRoom(old(entries), entries, now, max);
      }
      SizeAfter(entries, key, Entry(value, now + ttl));
      entries := entries[key := Entry(value, now + ttl)];
    }

    /** Make room for one entry. */
    method Evict(now: Instant)
      requires |entries| == max >= 1
      modifies `entries
      ensures Evicts(old(entries), entries, now, max)
    {
      DropExpired(now);
      if |entries| < max { return; }
      var soonest := Soonest();
      entries := entries - {soonest};
    }

    method DropExpired(now: Instant)
      modifies `entries
      ensures entries == Live(old(entries), now)
    {
      var keys := entries.Keys;
      while keys != {}
        invariant keys <= old(entries).Keys && Within(entries, old(entries))
        invariant forall k :: k in old(entries) ==> (k in entries <==> k in keys || IsLive(old(entries)[k], now))
        decreases keys
      {
        var k :| k in keys;
        keys := keys - {k};
        if !IsLive(entries[k], now) { entries := entries - {k}; }
      }
    }

    method Soonest() returns (key: string)
      requires |entries| >= 1
      ensures IsSoonest(entries, key)
    {
      assert entries.Keys != {};
      key :| key in entries;
      var keys := entries.Keys - {key};
      while keys != {}
        invariant keys <= entries.Keys && key in entries
        invariant forall k :: k in entries && k !in keys ==> entries[key].expires <= entries[k].expires
        decreases keys
      {
        var k :| k in keys;
        keys := keys - {k};
        if entries[k].expires < entries[key].expires { key := k; }
      }
    }

    /** Registry.Lookup past its argument check: a live entry, or what the source
        answered now. A failed fetch is a failure, never a stale entry. */
    method Lookup(key: string, ttl: int, now: Instant, later: Instant, fetched: Result<Fact>) returns (r: Result<Fact>)
      requires |entries| <= max && max >= 1
      modifies `entries
      ensures |entries| <= max
      ensures if key in old(entries) && IsLive(old(entries)[key], now) then r == Ok(old(entries)[key].value) && entries == old(entries) else r == fetched
      ensures r.Err? ==> entries == old(entries) - {key}
      ensures !(key in old(entries) && IsLive(old(entries)[key], now)) && fetched.Ok? ==>
                && Next(old(entries) - {key}, Op.Put(key, fetched.value, ttl, later), entries, max)
                && (ttl > 0 ==> key in entries && entries[key] == Entry(fetched.value, later + ttl))
    {
      var hit := Get(key, now);
      if hit.Some? { return Ok(hit.value); }
      if key in old(entries) { assert entries.Keys == old(entries).Keys - {key}; }
      if fetched.Ok? && ttl > 0 { Put(key, fetched.value, ttl, later); }
      r := fetched;
    }
  }
}
