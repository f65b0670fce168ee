/** What an unknown key ID can cost an issuer: a token bucket in front of refetches and
    a bounded cache of keys the issuer is known not to serve. Tokens are exact reals. */
module KeyGuard {
  import opened Basics

  /** `rate` is tokens per nanosecond, the reciprocal of the refetch interval. */
  datatype Config = Config(burst: nat, rate: real, negTTL: int, negMax: nat)

  /** The defaults make all of these positive. */
  ghost predicate Proper(c: Config) {
    c.burst >= 1 && c.rate > 0.0 && c.negMax >= 1
  }

  type Negative = map<string, Instant>

  datatype State = State(served: set<string>, negative: Negative, tokens: real, last: Option<Instant>, fetches: nat)

  function Start(c: Config): State {
    State({}, map[], c.burst as real, None, 0)
  }

  // ---- the bucket ----

  function Earned(elapsed: int, c: Config): real {
    elapsed as real * c.rate
  }

  function Capped(tokens: real, burst: real): real {
    if tokens < burst then tokens else burst
  }

  /** The balance at an instant; the first reading of the clock earns nothing. */
  function TokensAt(s: State, now: Instant, c: Config): real {
    if s.last.None? then s.tokens else Capped(s.tokens + Earned(now - s.last.value, c), c.burst as real)
  }

  function Refill(s: State, now: Instant, c: Config): State {
    s.(tokens := TokensAt(s, now, c), last := Some(now))
  }

  // ---- operations ----

  datatype Admission = Admitted | UnknownKey | Throttled

  datatype Op =
    | Admit(kid: string, now: Instant, answer: Admission)
    | Spend(now: Instant, granted: bool)
    | ObserveFailure(kid: string, now: Instant)
    | RecordKeySet(kids: seq<string>, now: Instant)

  function Unexpired(n: Negative, now: Instant): Negative {
    map k | k in n && now < n[k] :: n[k]
  }

  /** evictLocked: nothing while there is room, then the expired, then any. */
  ghost predicate Evicts(a: Negative, b: Negative, now: Instant, max: nat) {
    if |a| < max then b == a
    else if |Unexpired(a, now)| < max then b == Unexpired(a, now)
    else b.Keys <= Unexpired(a, now).Keys && (forall k :: k in b ==> b[k] == a[k]) && |b| + 1 == max
  }

  /** A key remembered as unknown, after making room for it. */
  ghost predicate Notes(a: Negative, kid: string, now: Instant, b: Negative, c: Config) {
    exists kept :: Evicts(a, kept, now, c.negMax) && b == kept[kid := now + c.negTTL]
  }

  ghost predicate Next(s: State, op: Op, t: State, c: Config) {
    match op
    case Admit(kid, now, answer) =>
      if kid in s.served then answer == Admitted && t == s
      else if kid in s.negative && now < s.negative[kid] then answer == UnknownKey && t == s
      else t == Refill(s.(negative := s.negative - {kid}), now, c) && answer == if t.tokens < 1.0 then Throttled else Admitted
    case Spend(now, granted) =>
      var r := Refill(s, now, c);
      if r.tokens < 1.0 then !granted && t == r
      else granted && t == r.(tokens := r.tokens - 1.0, fetches := s.fetches + 1)
    case ObserveFailure(kid, now) =>
      if kid in s.served then t == s
      else Notes(s.negative, kid, now, t.negative, c) && t == s.(negative := t.negative)
    case RecordKeySet(kids, _) =>
      var served := set k | k in kids;
      t == s.(served := served, negative := s.negative - served)
  }

  /** A run under a clock that does not run back. */
  ghost predicate Runs(states: seq<State>, ops: seq<Op>, c: Config) {
    && |states| == |ops| + 1 && states[0] == Start(c)
    && (forall i :: 0 <= i < |ops| ==> Next(states[i], ops[i], states[i + 1], c))
    && (forall i, j :: 0 <= i < j < |ops| ==> ops[i].now <= ops[j].now)
  }

  // ---- the invariant ----

  ghost predicate Valid(s: State, c: Config) {
    && 0.0 <= s.tokens <= c.burst as real
    && (forall k :: k in s.negative ==> k !in s.served)
    && |s.negative| <= c.negMax
  }

  lemma EvictionMakesRoom(a: Negative, b: Negative, now: Instant, max: nat)
    requires Evicts(a, b, now, max) && max >= 1
    ensures b.Keys <= a.Keys && |b| < max
  {
    assert Unexpired(a, now).Keys <= a.Keys;
  }

  // Scalars: the only products are here.

  lemma EarnedGrows(elapsed: int, c: Config)
    requires Proper(c) && elapsed >= 0
    ensures Earned(elapsed, c) >= 0.0
  {
  }

  lemma EarnedBetween(x: int, y: int, c: Config)
    ensures Earned(y - x, c) == Earned(y, c) - Earned(x, c)
  {
    assert (y - x) as real == y as real - x as real;
  }

  lemma EarnedAtOnce(x: int, c: Config)
    ensures Earned(x - x, c) == 0.0
  {
    EarnedBetween(x, x, c);
  }

  lemma BalanceIsBounded(s: State, now: Instant, c: Config)
    requires Proper(c) && Valid(s, c) && (s.last.Some? ==> s.last.value <= now)
    ensures 0.0 <= TokensAt(s, now, c) <= c.burst as real
  {
    if s.last.Some? { EarnedGrows(now - s.last.value, c); }
  }

  lemma NotesWithin(a: Negative, kid: string, now: Instant, b: Negative, c: Config)
    requires Proper(c) && Notes(a, kid, now, b, c)
    ensures b.Keys <= a.Keys + {kid} && |b| <= c.negMax
  {
    var kept :| Evicts(a, kept, now, c.negMax) && b == kept[kid := now + c.negTTL];
    EvictionMakesRoom(a, kept, now, c.negMax);
    assert b.Keys == kept.Keys + {kid};
  }

  lemma RemovalKeeps(n: Negative, gone: set<string>)
    ensures (n - gone).Keys <= n.Keys && |n - gone| <= |n|
  {
    assert (n - gone).Keys <= n.Keys;
    SubsetIsSmaller((n - gone).Keys, n.Keys);
  }

  /** Keys leave the memory, or one that is not served joins it. */
  lemma NegativeKeeps(s: State, op: Op, t: State, c: Config)
    requires Proper(c) && Valid(s, c) && Next(s, op, t, c)
    ensures (forall k :: k in t.negative ==> k !in t.served) && |t.negative| <= c.negMax
  {
    match op
    case Admit(kid, _, _) => RemovalKeeps(s.negative, {kid});
    case Spend(_, _) =>
    case ObserveFailure(kid, now) =>
      if kid !in s.served {
        NotesWithin(s.negative, kid, now, t.negative, c);
        assert forall k :: k in t.negative ==> k in s.negative || k == kid;
      }
    case RecordKeySet(kids, _) => RemovalKeeps(s.negative, (set k | k in kids));
  }

  lemma NextKeeps(s: State, op: Op, t: State, c: Config)
    requires Proper(c) && Valid(s, c) && Next(s, op, t, c) && (s.last.Some? ==> s.last.value <= op.now)
    ensures Valid(t, c) && (t.last == s.last || t.last == Some(op.now))
  {
    NegativeKeeps(s, op, t, c);
    BalanceIsBounded(s, op.now, c);
  }

  ghost predicate Behind(s: State, now: Instant) {
    s.last.Some? ==> s.last.value <= now
  }

  lemma {:induction false} RunKeeps(states: seq<State>, ops: seq<Op>, c: Config, n: nat)
    requires Proper(c) && Runs(states, ops, c) && n <= |ops|
    ensures Valid(states[n], c)
    ensures forall i :: n <= i < |ops| ==> Behind(states[n], ops[i].now)
    ensures n > 0 ==> Behind(states[n], ops[n - 1].now)
  {
    if n > 0 {
      RunKeeps(states, ops, c, n - 1);
      assert Behind(states[n - 1], ops[n - 1].now);
      NextKeeps(states[n - 1], ops[n - 1], states[n], c);
    }
  }

  // ---- the fetch bound ----

  /** A capped balance grows by no more than is paid in. */
  lemma CapsGrowLess(tokens: real, first: real, second: real, burst: real)
    requires second >= 0.0
    ensures Capped(tokens + (first + second), burst) <= Capped(tokens + first, burst) + second
  {
  }

  /** Waiting earns at most its share. */
  lemma WaitingEarns(s: State, t: Instant, u: Instant, c: Config)
    requires Proper(c) && Behind(s, t) && t <= u
    ensures TokensAt(s, u, c) <= TokensAt(s, t, c) + Earned(u - t, c)
  {
    EarnedGrows(u - t, c);
    if s.last.Some? {
      var x := s.last.value;
      EarnedBetween(x, u, c);
      EarnedBetween(x, t, c);
      EarnedBetween(t, u, c);
      CapsGrowLess(s.tokens, Earned(t - x, c), Earned(u - t, c), c.burst as real);
    }
  }

  /** Fetches made and the balance left. */
  function Account(s: State, now: Instant, c: Config): real {
    s.fetches as real + TokensAt(s, now, c)
  }

  /** The three things an operation may do to the account. */
  ghost predicate Settles(s: State, now: Instant, t: State, c: Config) {
    || (t.tokens == s.tokens && t.last == s.last && t.fetches == s.fetches)
    || (t.last == Some(now) && t.tokens == TokensAt(s, now, c) && t.fetches == s.fetches)
    || (t.last == Some(now) && t.tokens == TokensAt(s, now, c) - 1.0 && t.fetches == s.fetches + 1)
  }

  lemma NextSettles(s: State, op: Op, t: State, c: Config)
    requires Next(s, op, t, c)
    ensures Settles(s, op.now, t, c)
  {
  }

  lemma SettledIsCapped(t: State, now: Instant, c: Config)
    requires t.last == Some(now) && t.tokens <= c.burst as real
    ensures TokensAt(t, now, c) == t.tokens
  {
    EarnedAtOnce(now, c);
  }

  /** An operation pays for its fetch out of the balance at its instant. */
  lemma OperationsPay(s: State, op: Op, t: State, c: Config)
    requires Proper(c) && Valid(s, c) && Next(s, op, t, c) && Behind(s, op.now)
    ensures Account(t, op.now, c) <= Account(s, op.now, c)
  {
    NextSettles(s, op, t, c);
    SettlingPays(s, op.now, t, c);
  }

  lemma SettlingPays(s: State, now: Instant, t: State, c: Config)
    requires Proper(c) && Valid(s, c) && Settles(s, now, t, c) && Behind(s, now)
    ensures Account(t, now, c) <= Account(s, now, c)
  {
    BalanceIsBounded(s, now, c);
    if t.tokens != s.tokens || t.last != s.last || t.fetches != s.fetches { SettledIsCapped(t, now, c); }
  }

  lemma StepsInOrder(states: seq<State>, ops: seq<Op>, c: Config, j: nat)
    requires Proper(c) && Runs(states, ops, c) && j < |ops|
    ensures Valid(states[j], c) && Next(states[j], ops[j], states[j + 1], c) && Behind(states[j], ops[j].now)
    ensures j > 0 ==> Behind(states[j], ops[j - 1].now) && ops[j - 1].now <= ops[j].now
  {
    RunKeeps(states, ops, c, j);
  }

  /** The account before and after each operation, and what the clock stood for. */
  lemma StepPays(states: seq<State>, ops: seq<Op>, c: Config, k: nat)
    requires Proper(c) && Runs(states, ops, c) && k < |ops|
    ensures Account(states[k + 1], ops[k].now, c) <= Account(states[k], ops[k].now, c)
    ensures k > 0 ==> Account(states[k], ops[k].now, c) <= Account(states[k], ops[k - 1].now, c) + (Earned(ops[k].now, c) - Earned(ops[k - 1].now, c))
  {
    StepsInOrder(states, ops, c, k);
    OperationsPay(states[k], ops[k], states[k + 1], c);
    if k > 0 { TimePays(states[k], ops[k - 1].now, ops[k].now, c); }
  }

  lemma TimePays(s: State, t: Instant, u: Instant, c: Config)
    requires Proper(c) && Behind(s, t) && t <= u
    ensures Account(s, u, c) <= Account(s, t, c) + (Earned(u, c) - Earned(t, c))
  {
    WaitingEarns(s, t, u, c);
    EarnedBetween(t, u, c);
  }

  /** Accounts as bare numbers: each operation pays for itself, and between two only the
      clock pays in. */
  ghost predicate Flows(before: seq<real>, after: seq<real>, earned: seq<real>) {
    && |before| == |after| == |earned|
    && (forall k :: 0 <= k < |before| ==> after[k] <= before[k])
    && (forall k :: 0 < k < |before| ==> before[k] <= after[k - 1] + (earned[k] - earned[k - 1]))
  }

  lemma FlowsOn(before: seq<real>, after: seq<real>, earned: seq<real>, x: real, y: real, z: real)
    requires Flows(before, after, earned) && y <= x
    requires before != [] ==> x <= after[|after| - 1] + (z - earned[|earned| - 1])
    ensures Flows(before + [x], after + [y], earned + [z])
  {
  }

  lemma {:induction false} Telescopes(before: seq<real>, after: seq<real>, earned: seq<real>, i: nat, j: nat)
    requires Flows(before, after, earned) && i <= j < |before|
    ensures after[j] <= before[i] + (earned[j] - earned[i])
    decreases j - i
  {
    if i < j { Telescopes(before, after, earned, i, j - 1); }
  }

  /** They are those of a run. */
  ghost predicate Lists(states: seq<State>, ops: seq<Op>, c: Config, before: seq<real>, after: seq<real>, earned: seq<real>)
    requires |states| == |ops| + 1
  {
    && |before| == |after| == |earned| <= |ops|
    && forall k :: 0 <= k < |before| ==> Listed(states[k], ops[k].now, states[k + 1], c, before[k], after[k], earned[k])
  }

  ghost predicate Listed(s: State, now: Instant, t: State, c: Config, before: real, after: real, earned: real) {
    before == Account(s, now, c) && after == Account(t, now, c) && earned == Earned(now, c)
  }

  /** One operation more, in numbers. */
  lemma ListOne(states: seq<State>, ops: seq<Op>, c: Config, n: nat, last: real, clock: real) returns (x: real, y: real, z: real)
    requires Proper(c) && Runs(states, ops, c) && n < |ops|
    requires n > 0 ==> last == Account(states[n], ops[n - 1].now, c) && clock == Earned(ops[n - 1].now, c)
    ensures Listed(states[n], ops[n].now, states[n + 1], c, x, y, z)
    ensures y <= x && (n > 0 ==> x <= last + (z - clock))
  {
    StepPays(states, ops, c, n);
    x, y, z := Account(states[n], ops[n].now, c), Account(states[n + 1], ops[n].now, c), Earned(ops[n].now, c);
  }

  lemma {:induction false} Ledger(states: seq<State>, ops: seq<Op>, c: Config, n: nat)
    returns (before: seq<real>, after: seq<real>, earned: seq<real>)
    requires Proper(c) && Runs(states, ops, c) && n <= |ops|
    ensures Lists(states, ops, c, before, after, earned) && |before| == n && Flows(before, after, earned)
  {
    if n == 0 {
      before, after, earned := [], [], [];
    } else {
      before, after, earned := Ledger(states, ops, c, n - 1);
      if n > 1 { assert Listed(states[n - 2], ops[n - 2].now, states[n - 1], c, before[n - 2], after[n - 2], earned[n - 2]); }
      var x, y, z := ListOne(states, ops, c, n - 1, if n > 1 then after[n - 2] else 0.0, if n > 1 then earned[n - 2] else 0.0);
      FlowsOn(before, after, earned, x, y, z);
      before, after, earned := before + [x], after + [y], earned + [z];
    }
  }

  /** From the i-th operation on, fetches and balance together never exceed what there
      was at its instant and what time has earned since. */
  lemma BudgetHolds(states: seq<State>, ops: seq<Op>, c: Config, i: nat, j: nat)
    requires Proper(c) && Runs(states, ops, c) && i <= j < |ops|
    ensures Account(states[j + 1], ops[j].now, c) <= Account(states[i], ops[i].now, c) + Earned(ops[j].now - ops[i].now, c)
  {
    var before, after, earned := Ledger(states, ops, c, |ops|);
    Telescopes(before, after, earned, i, j);
    assert Listed(states[i], ops[i].now, states[i + 1], c, before[i], after[i], earned[i]);
    assert Listed(states[j], ops[j].now, states[j + 1], c, before[j], after[j], earned[j]);
    EarnedBetween(ops[i].now, ops[j].now, c);
  }

  lemma Difference(m: nat, n: nat, x: real, y: real, burst: real, earned: real)
    requires n as real + y <= m as real + x + earned && x <= burst && 0.0 <= y
    ensures (n - m) as real <= burst + earned
  {
    assert (n - m) as real == n as real - m as real;
  }

  /** Over any run and any stretch of it, the fetches granted are at most the burst and
      one per interval of the time it spans. */
  lemma FetchesAreBounded(states: seq<State>, ops: seq<Op>, c: Config, i: nat, j: nat)
    requires Proper(c) && Runs(states, ops, c) && i <= j < |ops|
    ensures (states[j + 1].fetches - states[i].fetches) as real <= c.burst as real + Earned(ops[j].now - ops[i].now, c)
  {
    BudgetHolds(states, ops, c, i, j);
    var x, y := TokensAt(states[i], ops[i].now, c), TokensAt(states[j + 1], ops[j].now, c);
    assert x <= c.burst as real && 0.0 <= y by { BalancesInOrder(states, ops, c, i, j); }
    Difference(states[i].fetches, states[j + 1].fetches, x, y, c.burst as real, Earned(ops[j].now - ops[i].now, c));
  }

  lemma BalancesInOrder(states: seq<State>, ops: seq<Op>, c: Config, i: nat, j: nat)
    requires Proper(c) && Runs(states, ops, c) && i <= j < |ops|
    ensures TokensAt(states[i], ops[i].now, c) <= c.burst as real && 0.0 <= TokensAt(states[j + 1], ops[j].now, c)
  {
    BalanceBefore(states, ops, c, i);
    BalanceAfter(states, ops, c, j);
  }

  lemma BalanceBefore(states: seq<State>, ops: seq<Op>, c: Config, i: nat)
    requires Proper(c) && Runs(states, ops, c) && i < |ops|
    ensures TokensAt(states[i], ops[i].now, c) <= c.burst as real
  {
    StepsInOrder(states, ops, c, i);
    BalanceIsBounded(states[i], ops[i].now, c);
  }

  lemma BalanceAfter(states: seq<State>, ops: seq<Op>, c: Config, j: nat)
    requires Proper(c) && Runs(states, ops, c) && j < |ops|
    ensures 0.0 <= TokensAt(states[j + 1], ops[j].now, c)
  {
    RunKeeps(states, ops, c, j + 1);
    BalanceIsBounded(states[j + 1], ops[j].now, c);
  }

  // ---- the two caches ----

  /** In every run no key is both served and remembered as unknown, the memory is
      within its bound, and so a served key is always admitted. */
  lemma ServedIsAdmitted(states: seq<State>, ops: seq<Op>, c: Config, n: nat)
    requires Proper(c) && Runs(states, ops, c) && n <= |ops|
    ensures forall k :: k in states[n].served ==> k !in states[n].negative
    ensures |states[n].negative| <= c.negMax
    ensures n < |ops| && ops[n].Admit? && ops[n].kid in states[n].served ==> ops[n].answer == Admitted
  {
    RunKeeps(states, ops, c, n);
    if n < |ops| { assert Next(states[n], ops[n], states[n + 1], c); }
  }

  // ---- the guard as it is ----

  class Guard {
    const config: Config
    var served: set<string>
    var negative: Negative
    var tokens: real
    var last: Option<Instant>
    var fetchCount: nat

    function View(): State
      reads this
    {
      State(served, negative, tokens, last, fetchCount)
    }

    constructor (config: Config)
      ensures this.config == config && View() == Start(config)
    {
      this.config := config;
      served, negative, tokens, last, fetchCount := {}, map[], config.burst as real, None, 0;
    }

    method RefillLocked(now: Instant)
      modifies `tokens, `last
      ensures View() == Refill(old(View()), now, config)
    {
      if last.Some? {
        tokens := tokens + Earned(now - last.value, config);
        if tokens >= config.burst as real { tokens := config.burst as real; }
      }
      last := Some(now);
    }

    method CheckAdmission(kid: string, now: Instant) returns (answer: Admission)
      modifies this
      ensures Next(old(View()), Admit(kid, now, answer), View(), config)
    {
      if kid in served { return Admitted; }
      if kid in negative {
        if now < negative[kid] { return UnknownKey; }
        negative := negative - {kid};
      } else {
        assert negative - {kid} == negative;
      }
      RefillLocked(now);
      answer := if tokens < 1.0 then Throttled else Admitted;
    }

    method TrySpend(now: Instant) returns (granted: bool)
      modifies this
      ensures Next(old(View()), Spend(now, granted), View(), config)
    {
      RefillLocked(now);
      if tokens < 1.0 { return false; }
      tokens := tokens - 1.0;
      fetchCount := fetchCount + 1;
      granted := true;
    }

    method NoteFailure(kid: string, now: Instant)
      requires Proper(config) && |negative| <= config.negMax
      modifies this
      ensures Next(old(View()), ObserveFailure(kid, now), View(), config)
    {
      if kid in served { return; }
      EvictLocked(now);
      negative := negative[kid := now + config.negTTL];
      assert Notes(old(negative), kid, now, negative, config);
    }

    method EvictLocked(now: Instant)
      requires Proper(config) && |negative| <= config.negMax
      modifies `negative
      ensures Evicts(old(negative), negative, now, config.negMax)
    {
      if |negative| < config.negMax { return; }
      DropExpired(now);
      ghost var live := negative;
      SubsetIsSmaller(live.Keys, old(negative).Keys);
      var keys := negative.Keys;
      while keys != {} && |negative| >= config.negMax
        invariant negative.Keys <= live.Keys && (forall k :: k in negative ==> negative[k] == live[k])
        invariant keys <= negative.Keys && (|negative| >= config.negMax ==> keys == negative.Keys)
        invariant if |live| < config.negMax then negative == live else config.negMax - 1 <= |negative| <= config.negMax
        decreases keys
      {
        var k :| k in keys;
        keys := keys - {k};
        assert (negative - {k}).Keys == negative.Keys - {k};
        negative := negative - {k};
      }
    }

    method DropExpired(now: Instant)
      modifies `negative
      ensures negative == Unexpired(old(negative), now)
    {
      var keys := negative.Keys;
      while keys != {}
        invariant keys <= old(negative).Keys && forall k :: k in negative ==> k in old(negative) && negative[k] == old(negative)[k]
        invariant forall k :: k in old(negative) ==> (k in negative <==> k in keys || now < old(negative)[k])
        decreases keys
      {
        var k :| k in keys;
        keys := keys - {k};
        if now >= negative[k] { negative := negative - {k}; }
      }
    }

    method TakeKeySet(kids: seq<string>, now: Instant)
      modifies `served, `negative
      ensures Next(old(View()), RecordKeySet(kids, now), View(), config)
    {
      served := {};
      assert negative == old(negative) - {};
      for i := 0 to |kids|
        invariant served == (set k | k in kids[..i]) && negative == old(negative) - served
      {
        served := served + {kids[i]};
        negative := negative - {kids[i]};
        assert kids[..i + 1] == kids[..i] + [kids[i]];
      }
      assert kids[..|kids|] == kids;
    }
  }
}
