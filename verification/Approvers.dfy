/** Approver sets: how a declared set is resolved and frozen, and who is in it.
    The quorum handler and the delay's cancellation authority share this rule. */
module Approvers {
  import opened Basics

  // ---- member lists ----

  /** The characters strings.TrimSpace removes. */
  predicate IsSpace(c: char) {
    || '\t' <= c <= '\r' || c == ' ' || c == '\U{0085}' || c == '\U{00A0}' || c == '\U{1680}'
    || '\U{2000}' <= c <= '\U{200A}' || c == '\U{2028}' || c == '\U{2029}'
    || c == '\U{202F}' || c == '\U{205F}' || c == '\U{3000}'
  }

  function TrimLeft(s: string): string {
    if s != "" && IsSpace(s[0]) then TrimLeft(s[1..]) else s
  }

  function TrimRight(s: string): string {
    if s != "" && IsSpace(s[|s| - 1]) then TrimRight(s[..|s| - 1]) else s
  }

  function TrimSpace(s: string): string {
    TrimRight(TrimLeft(s))
  }

  /** The order slices.Sort puts strings in. */
  predicate Less(a: string, b: string) {
    b != "" && (a == "" || a[0] < b[0] || (a[0] == b[0] && Less(a[1..], b[1..])))
  }

  lemma {:induction false} LessIsTotal(a: string, b: string)
    ensures a == b || Less(a, b) || Less(b, a)
  {
    if a != "" && b != "" && a[0] == b[0] {
      LessIsTotal(a[1..], b[1..]);
      assert a[1..] == b[1..] ==> a == [a[0]] + b[1..] == b;
    }
  }

  lemma {:induction false} LessIsTransitive(a: string, b: string, c: string)
    requires Less(a, b) && Less(b, c)
    ensures Less(a, c)
  {
    if a != "" && a[0] == b[0] == c[0] {
      LessIsTransitive(a[1..], b[1..], c[1..]);
    }
  }

  lemma {:induction false} LessIsIrreflexive(a: string)
    ensures !Less(a, a)
  {
    if a != "" { LessIsIrreflexive(a[1..]); }
  }

  ghost predicate Ascending(s: seq<string>) {
    forall i, j :: 0 <= i < j < |s| ==> Less(s[i], s[j])
  }

  /** The set a member list names: blanks dropped, spelling trimmed. */
  ghost function Named(members: seq<string>): set<string> {
    set m | m in members && TrimSpace(m) != "" :: TrimSpace(m)
  }

  ghost function Elements(s: seq<string>): set<string> {
    set m | m in s
  }

  function Insert(m: string, s: seq<string>): (r: seq<string>) {
    if s == [] then [m]
    else if m == s[0] then s
    else if Less(m, s[0]) then [m] + s
    else [s[0]] + Insert(m, s[1..])
  }

  lemma PrependKeepsOrder(m: string, s: seq<string>)
    requires Ascending(s) && forall x :: x in s ==> Less(m, x)
    ensures Ascending([m] + s) && Elements([m] + s) == {m} + Elements(s)
  {
  }

  lemma {:induction false} InsertKeepsOrder(m: string, s: seq<string>)
    requires Ascending(s)
    ensures Ascending(Insert(m, s))
    ensures Elements(Insert(m, s)) == Elements(s) + {m}
  {
    if s != [] && m != s[0] {
      if Less(m, s[0]) {
        forall x | x in s ensures Less(m, x) { if x != s[0] { LessIsTransitive(m, s[0], x); } }
        PrependKeepsOrder(m, s);
      } else {
        LessIsTotal(m, s[0]);
        InsertKeepsOrder(m, s[1..]);
        var r := Insert(m, s[1..]);
        forall x | x in r ensures Less(s[0], x) {
          assert x in Elements(r);
          assert x == m || x in s[1..];
        }
        PrependKeepsOrder(s[0], r);
        PrependKeepsOrder(s[0], s[1..]);
        assert s == [s[0]] + s[1..];
      }
    }
  }

  /** normalizeMembers: trim, drop blanks, sort, drop repeats. */
  function NormalizeMembers(members: seq<string>): (r: seq<string>) {
    if members == [] then []
    else
      var rest := NormalizeMembers(members[1..]);
      var m := TrimSpace(members[0]);
      if m == "" then rest else Insert(m, rest)
  }

  lemma {:induction false} NormalizedMembers(members: seq<string>)
    ensures Ascending(NormalizeMembers(members))
    ensures Elements(NormalizeMembers(members)) == Named(members)
  {
    if members != [] {
      NormalizedMembers(members[1..]);
      assert members == [members[0]] + members[1..];
      var m := TrimSpace(members[0]);
      assert Named(members) == Named(members[1..]) + (if m == "" then {} else {m});
      if m != "" { InsertKeepsOrder(m, NormalizeMembers(members[1..])); }
    }
  }

  lemma {:induction false} AscendingIsUnique(s: seq<string>, t: seq<string>)
    requires Ascending(s) && Ascending(t) && Elements(s) == Elements(t)
    ensures s == t
  {
    if s == [] {
      assert forall i :: 0 <= i < |t| ==> t[i] in Elements(t);
    } else {
      assert s[0] in Elements(s);
      assert s[0] in t;
      assert t[0] in Elements(t);
      assert t[0] in s;
      if s[0] != t[0] {
        LessIsTransitive(s[0], t[0], s[0]);
        LessIsIrreflexive(s[0]);
      }
      LessIsIrreflexive(s[0]);
      assert Elements(s[1..]) == Elements(s) - {s[0]} by { assert s == [s[0]] + s[1..]; }
      assert Elements(t[1..]) == Elements(t) - {t[0]} by { assert t == [t[0]] + t[1..]; }
      AscendingIsUnique(s[1..], t[1..]);
      assert s == [s[0]] + s[1..] && t == [t[0]] + t[1..];
    }
  }

  lemma {:induction false} TrimmedEnds(s: string)
    ensures TrimRight(s) <= s
    ensures var t := TrimRight(s); t != "" ==> !IsSpace(t[|t| - 1])
    ensures var t := TrimLeft(s); t != "" ==> !IsSpace(t[0])
  {
    if s != "" && IsSpace(s[|s| - 1]) { TrimmedEnds(s[..|s| - 1]); }
    if s != "" && IsSpace(s[0]) { TrimmedEnds(s[1..]); }
  }

  lemma TrimSpaceIsIdempotent(s: string)
    ensures TrimSpace(TrimSpace(s)) == TrimSpace(s)
  {
    TrimmedEnds(s);
    TrimmedEnds(TrimLeft(s));
  }

  /** A frozen list is its own normal form. */
  lemma NormalizeIsIdempotent(members: seq<string>)
    ensures NormalizeMembers(NormalizeMembers(members)) == NormalizeMembers(members)
  {
    var once := NormalizeMembers(members);
    NormalizedMembers(members);
    NormalizedMembers(once);
    forall m | m in once ensures m != "" && TrimSpace(m) == m {
      assert m in Elements(once);
      var raw :| raw in members && TrimSpace(raw) == m && m != "";
      TrimSpaceIsIdempotent(raw);
    }
    assert Named(once) == Elements(once);
    AscendingIsUnique(NormalizeMembers(once), once);
  }

  /** Two member lists are one frozen list exactly when they name the same people:
      order, repeats, blanks and surrounding space are not terms. */
  lemma NormalizationIsBySet(a: seq<string>, b: seq<string>)
    ensures NormalizeMembers(a) == NormalizeMembers(b) <==> Named(a) == Named(b)
  {
    NormalizedMembers(a);
    NormalizedMembers(b);
    if Named(a) == Named(b) { AscendingIsUnique(NormalizeMembers(a), NormalizeMembers(b)); }
  }

  // ---- identities ----

  datatype SubjectKind = User | Workload

  datatype ClaimValue = NullClaim | BoolClaim(b: bool) | TextClaim(s: string) | NumberClaim(n: real) | ListClaim(len: nat) | ObjectClaim(size: nat)

  /** An authenticated caller. `claims` is None for a certificate credential. */
  datatype Subject = Subject(kind: SubjectKind, issuer: string, id: string, claims: Option<map<string, ClaimValue>>)

  function KindText(k: SubjectKind): string {
    match k case User => "user" case Workload => "workload"
  }

  function CallerId(s: Subject): string {
    KindText(s.kind) + ":" + s.issuer + "#" + s.id
  }

  /** A person, as opposed to a workload or a blank credential. */
  predicate CanApprove(s: Subject) {
    s.kind == User && TrimSpace(s.id) != ""
  }

  predicate AssertsClaim(s: Subject, name: string) {
    name != "" && s.claims.Some? && name in s.claims.value &&
    match s.claims.value[name]
    case NullClaim => false
    case BoolClaim(b) => b
    case TextClaim(t) => TrimSpace(t) != ""
    case NumberClaim(n) => n != 0.0
    case ListClaim(len) => len > 0
    case ObjectClaim(size) => size > 0
  }

  // ---- declared and frozen sets ----

  datatype ApproverSet = ApproverSet(members: seq<string>, claim: string, source: Option<string>)

  datatype ApproverTerms =
    | MemberTerms(issuer: string, members: seq<string>)
    | ClaimTerms(issuer: string, claim: string)
    | GroupTerms(issuer: string, source: string, members: seq<string>)

  datatype Group = Group(issuer: string, members: seq<string>)

  /** What a deployment configures and what its directories answered. */
  datatype Directory = Directory(approverIssuer: string, hasGroups: bool, groups: map<string, Group>)

  /** Which of the three resolutions a declared set takes, and its frozen form. */
  function Resolve(dir: Directory, declared: ApproverSet): (r: Result<ApproverTerms>)
    ensures r.Ok? ==> Hashed(r.value) == r.value
    ensures r.Ok? && declared.source.Some? ==> r.value.GroupTerms? && r.value.source == declared.source.value
  {
    if declared.source.Some? then
      if !dir.hasGroups then Err(GroupSourceUnsupported)
      else if declared.source.value !in dir.groups then Err(Broken)
      else
        var g := dir.groups[declared.source.value];
        NormalizeIsIdempotent(g.members);
        Ok(GroupTerms(TrimSpace(g.issuer), declared.source.value, NormalizeMembers(g.members)))
    else if declared.claim != "" then Ok(ClaimTerms(TrimSpace(dir.approverIssuer), declared.claim))
    else
      NormalizeIsIdempotent(declared.members);
      Ok(MemberTerms(TrimSpace(dir.approverIssuer), NormalizeMembers(declared.members)))
  }

  /** Quorum.resolve: the set must be reachable and qualified by an issuer. */
  function ResolveQuorum(dir: Directory, threshold: int, declared: ApproverSet): (r: Result<ApproverTerms>)
    ensures r.Ok? ==> threshold >= 1 && r.value.issuer != "" && Hashed(r.value) == r.value
    ensures r.Ok? && !r.value.ClaimTerms? ==> |r.value.members| >= threshold
  {
    if threshold < 1 then Err(UnsupportedSpec)
    else
      var terms :- Resolve(dir, declared);
      if terms.issuer == "" then Err(ApproverIssuerUndesignated)
      else if !terms.ClaimTerms? && |terms.members| < threshold then Err(UnsupportedSpec)
      else Ok(terms)
  }

  /** Delay.resolveAuthority: an explicit list must name somebody. */
  function ResolveAuthority(dir: Directory, declared: ApproverSet): (r: Result<ApproverTerms>)
    ensures r.Ok? ==> r.value.issuer != ""
    ensures r.Ok? && r.value.MemberTerms? ==> r.value.members != []
  {
    var terms :- Resolve(dir, declared);
    if terms.MemberTerms? && terms.members == [] then Err(UnsupportedSpec)
    else if terms.issuer == "" then Err(ApproverIssuerUndesignated)
    else Ok(terms)
  }

  /** isTarget: the issuer is fixed before the set is read, in every mode. */
  predicate IsTarget(terms: ApproverTerms, s: Subject) {
    && CanApprove(s)
    && terms.issuer != "" && s.issuer == terms.issuer
    && match terms
       case MemberTerms(_, members) => s.id in members
       case GroupTerms(_, _, members) => s.id in members
       case ClaimTerms(_, claim) => AssertsClaim(s, claim)
  }

  /** The terms as the binding hash reads them. */
  function Hashed(terms: ApproverTerms): ApproverTerms {
    match terms
    case MemberTerms(issuer, members) => MemberTerms(issuer, NormalizeMembers(members))
    case GroupTerms(issuer, source, members) => GroupTerms(issuer, source, NormalizeMembers(members))
    case ClaimTerms(_, _) => terms
  }
}
