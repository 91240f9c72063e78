/** Durable lifecycle fences: offboarding tombstones, scoped break-glass revocation markers, and the
    receipt timestamps compared with them (src/core/consent.ts). */
module Fences {
  import opened Base

  /** The one tombstone rule: equality blocks. */
  predicate Blocks(tombstone: Option<int>, minted: int) {
    tombstone.Some? && tombstone.value >= minted
  }

  // ---------------------------------------------------------------------------------------------
  // Offboarding scopes
  // ---------------------------------------------------------------------------------------------

  datatype OffboardScope = Global | Unscoped | Enterprise(id: EnterpriseId)

  /** The scope, besides global, under which an identity can be offboarded across teams. */
  function SpecificScope(enterprise: Option<EnterpriseId>): OffboardScope {
    match enterprise
    case None => Unscoped
    case Some(e) => Enterprise(e)
  }

  /** The scopes a cross-team offboarding writes. */
  function EverywhereScopes(enterprise: Option<EnterpriseId>): seq<OffboardScope> {
    match enterprise
    case None => [Global]
    case Some(e) => [Enterprise(e), Unscoped]
  }

  // ---------------------------------------------------------------------------------------------
  // Break-glass revocation scopes
  // ---------------------------------------------------------------------------------------------

  /** An operator's revocation filter. Absent fields match everything. */
  datatype Filter = Filter(provider: string, team: Option<string>, user: Option<string>, channel: Option<string>)

  predicate IdChar(c: char) {
    'A' <= c <= 'Z' || 'a' <= c <= 'z' || '0' <= c <= '9' || c == '.' || c == '_' || c == '-'
  }

  predicate ValidProvider(p: string) {
    && 1 <= |p| <= 63
    && IdChar(p[0]) && p[0] != '.' && p[0] != '_' && p[0] != '-'
    && forall i :: 0 <= i < |p| ==> IdChar(p[i])
  }

  predicate NonEmpty(o: Option<string>) {
    o.Some? ==> o.value != ""
  }

  /** What the source accepts; anything else throws before a marker is written. */
  predicate ValidFilter(f: Filter) {
    && ValidProvider(f.provider)
    && !(f.user.Some? && f.channel.Some?)
    && NonEmpty(f.team) && NonEmpty(f.user) && NonEmpty(f.channel)
  }

  /** A digest of a list of strings (SHA-256 over its JSON text in the source). */
  type Digest = seq<string> -> string

  ghost predicate Injective(h: Digest) {
    forall a, b :: h(a) == h(b) ==> a == b
  }

  /** The preimage of the single scope that a filter names. */
  function FilterScope(f: Filter): seq<string> {
    if f.user.Some? then
      if f.team.None? then ["user", f.user.value] else ["team-user", f.team.value, f.user.value]
    else if f.channel.Some? then
      if f.team.None? then ["channel", f.channel.value] else ["team-channel", f.team.value, f.channel.value]
    else if f.team.None? then ["global"] else ["team", f.team.value]
  }

  /** The preimages of the four scopes that can revoke one credential owner. */
  function OwnerScopes(o: Owner): seq<seq<string>> {
    [["global"], ["team", o.team]] +
    if o.kind == UserOwned
    then [["user", o.id], ["team-user", o.team, o.id]]
    else [["channel", o.id], ["team-channel", o.team, o.id]]
  }

  function OwnerScopeKeys(h: Digest, o: Owner): (keys: seq<string>)
    ensures |keys| == 4
  {
    var p := OwnerScopes(o);
    [h(p[0]), h(p[1]), h(p[2]), h(p[3])]
  }

  /** Independent meaning of a filter: every field it gives must describe the owner. */
  predicate FilterMatches(f: Filter, o: Owner) {
    && (f.team.Some? ==> o.team == f.team.value)
    && (f.user.Some? ==> o.kind == UserOwned && o.id == f.user.value)
    && (f.channel.Some? ==> o.kind == ChannelOwned && o.id == f.channel.value)
  }

  lemma ScopeNamesDiffer()
    ensures "global" != "team" && "user" != "channel" && "team-user" != "team-channel"
    ensures "team" != "user" && "team" != "channel" && "global" != "user" && "global" != "channel"
    ensures "global" != "team-user" && "global" != "team-channel"
    ensures "team" != "team-user" && "team" != "team-channel"
    ensures "user" != "team-user" && "channel" != "team-channel" && "user" != "team-channel" && "channel" != "team-user"
  {
    assert |"team-user"| != |"team-channel"| && |"user"| != |"channel"|;
    assert "team"[0] == 't' && "user"[0] == 'u' && "global"[0] == 'g';
    assert |"global"| == 6 && |"team-user"| == 9 && |"team-channel"| == 12 && |"channel"| == 7;
  }

  lemma OneScope(f: Filter, o: Owner)
    requires ValidFilter(f)
    ensures FilterScope(f) in OwnerScopes(o) <==> FilterMatches(f, o)
  {
    ScopeNamesDiffer();
    var s := FilterScope(f);
    var p := OwnerScopes(o);
    assert s in p <==> s == p[0] || s == p[1] || s == p[2] || s == p[3];
    var q := p[2];
    assert |s| == 1 ==> (s == p[0] <==> s[0] == "global");
    assert |s| == 2 ==> (s == p[1] <==> s[0] == "team" && s[1] == o.team);
    assert |s| == 2 ==> (s == p[2] <==> s[0] == p[2][0] && s[1] == o.id);
    assert |s| == 3 ==> (s == p[3] <==> s[0] == p[3][0] && s[1] == o.team && s[2] == o.id);
  }

  /** Scopes are exact: the key a filter persists is one of an owner's four keys iff the filter
      describes that owner. */
  lemma ScopeKeyIffMatches(h: Digest, f: Filter, o: Owner)
    requires Injective(h) && ValidFilter(f)
    ensures h(FilterScope(f)) in OwnerScopeKeys(h, o) <==> FilterMatches(f, o)
  {
    OneScope(f, o);
    var p, keys, s := OwnerScopes(o), OwnerScopeKeys(h, o), FilterScope(f);
    if h(s) in keys {
      var i :| 0 <= i < 4 && keys[i] == h(s);
      assert keys[i] == h(p[i]);
      assert s == p[i];
    }
    if s in p {
      var i :| 0 <= i < |p| && p[i] == s;
      assert keys[i] == h(s);
    }
  }

  // ---------------------------------------------------------------------------------------------
  // The fence tables as values
  // ---------------------------------------------------------------------------------------------

  /** `offboard_tombstone`, `user_offboard_scope_tombstone`, `provisioning_revocation_tombstone`. */
  datatype Tombstones = Tombstones(
    team: map<(string, string), int>,
    scoped: map<(OffboardScope, string), int>,
    revoked: map<(string, string), int>)

  const NO_TOMBSTONES := Tombstones(map[], map[], map[])

  /** Newest team, enterprise or unscoped, or global tombstone applicable to this identity. */
  function LatestOffboard(ts: Tombstones, i: Identity): Option<int> {
    Newest(Lookup(ts.team, (i.team, i.user)),
      Newest(Lookup(ts.scoped, (Global, i.user)),
        Lookup(ts.scoped, (SpecificScope(i.enterprise), i.user))))
  }

  /** Newest break-glass marker in any scope of this owner for this provider. */
  function LatestRevocation(h: Digest, ts: Tombstones, o: Owner, provider: string): Option<int> {
    var k := OwnerScopeKeys(h, o);
    Newest(Newest(Lookup(ts.revoked, (provider, k[0])), Lookup(ts.revoked, (provider, k[1]))),
      Newest(Lookup(ts.revoked, (provider, k[2])), Lookup(ts.revoked, (provider, k[3]))))
  }

  predicate Current(ts: Tombstones, i: Identity, issuedAt: int) {
    !Blocks(LatestOffboard(ts, i), issuedAt)
  }

  /** An identity is current exactly when each of its three tombstones, if there is one, is strictly older. */
  lemma CurrentExact(ts: Tombstones, i: Identity, issuedAt: int)
    ensures Current(ts, i, issuedAt) <==>
      && ((i.team, i.user) in ts.team ==> ts.team[(i.team, i.user)] < issuedAt)
      && ((Global, i.user) in ts.scoped ==> ts.scoped[(Global, i.user)] < issuedAt)
      && (i.enterprise.None? && (Unscoped, i.user) in ts.scoped ==> ts.scoped[(Unscoped, i.user)] < issuedAt)
      && (i.enterprise.Some? && (Enterprise(i.enterprise.value), i.user) in ts.scoped ==>
           ts.scoped[(Enterprise(i.enterprise.value), i.user)] < issuedAt)
  {
  }

  /** An owner is revoked exactly when the marker of one of its four scopes is not older. */
  lemma RevokedExact(h: Digest, ts: Tombstones, o: Owner, provider: string, issuedAt: int)
    ensures Blocks(LatestRevocation(h, ts, o, provider), issuedAt) <==>
      exists i :: 0 <= i < 4 && (provider, h(OwnerScopes(o)[i])) in ts.revoked && ts.revoked[(provider, h(OwnerScopes(o)[i]))] >= issuedAt
  {
    hide OwnerScopes;
    var p := OwnerScopes(o);
    assert |p| == 4 by {
      FourScopes(o);
    }
    var blocked := Blocks(LatestRevocation(h, ts, o, provider), issuedAt);
    assert blocked <==>
      || (Blocks(Lookup(ts.revoked, (provider, h(p[0]))), issuedAt) || Blocks(Lookup(ts.revoked, (provider, h(p[1]))), issuedAt))
      || (Blocks(Lookup(ts.revoked, (provider, h(p[2]))), issuedAt) || Blocks(Lookup(ts.revoked, (provider, h(p[3]))), issuedAt));
  }

  lemma FourScopes(o: Owner)
    ensures |OwnerScopes(o)| == 4
  {
  }

  /** One transaction that writes fences. The actor forms first compare the actor's receipt. */
  datatype FenceOp =
    | MarkTeam(target: Identity)
    | MarkEverywhere(enterprise: Option<EnterpriseId>, user: string)
    | TeamByActor(actor: Identity, issuedAt: int, user: string)
    | EverywhereByActor(actor: Identity, issuedAt: int, user: string)
    | Revoke(filter: Filter)

  function RaiseScopes(m: map<(OffboardScope, string), int>, scopes: seq<OffboardScope>, user: string, t: int)
    : map<(OffboardScope, string), int>
  {
    if scopes == [] then m
    else Raise(RaiseScopes(m, scopes[..|scopes| - 1], user, t), (scopes[|scopes| - 1], user), t)
  }

  function FenceStep(h: Digest, ts: Tombstones, now: int, op: FenceOp): (Tombstones, bool) {
    match op
    case MarkTeam(i) => (ts.(team := Raise(ts.team, (i.team, i.user), now)), true)
    case MarkEverywhere(e, u) => (ts.(scoped := RaiseScopes(ts.scoped, EverywhereScopes(e), u, now)), true)
    case TeamByActor(a, issuedAt, u) =>
      if Blocks(LatestOffboard(ts, a), issuedAt) then (ts, false)
      else (ts.(team := Raise(ts.team, (a.team, u), now)), true)
    case EverywhereByActor(a, issuedAt, u) =>
      if a.enterprise.None? || Blocks(LatestOffboard(ts, a), issuedAt) then (ts, false)
      else (ts.(scoped := RaiseScopes(ts.scoped, EverywhereScopes(a.enterprise), u, now)), true)
    case Revoke(f) =>
      if !ValidFilter(f) then (ts, false)
      else (ts.(revoked := Raise(ts.revoked, (f.provider, h(FilterScope(f))), now)), true)
  }

  /** The identities that a committed offboarding covers, stated without the tables. */
  predicate Removes(op: FenceOp, i: Identity) {
    match op
    case MarkTeam(t) => i.team == t.team && i.user == t.user
    case MarkEverywhere(e, u) => i.user == u && (e.None? || i.enterprise == e || i.enterprise.None?)
    case TeamByActor(a, _, u) => i.team == a.team && i.user == u
    case EverywhereByActor(a, _, u) => i.user == u && (i.enterprise == a.enterprise || i.enterprise.None?)
    case Revoke(_) => false
  }

  // ---------------------------------------------------------------------------------------------
  // What one fence transaction does
  // ---------------------------------------------------------------------------------------------

  ghost predicate AtLeast(a: Option<int>, t: int) {
    a.Some? && a.value >= t
  }

  ghost predicate NotBefore(a: Option<int>, b: Option<int>) {
    a.Some? ==> AtLeast(b, a.value)
  }

  /** No fence ever moves back. */
  ghost predicate Advances(a: Tombstones, b: Tombstones) {
    && (forall k :: k in a.team ==> k in b.team && a.team[k] <= b.team[k])
    && (forall k :: k in a.scoped ==> k in b.scoped && a.scoped[k] <= b.scoped[k])
    && (forall k :: k in a.revoked ==> k in b.revoked && a.revoked[k] <= b.revoked[k])
  }

  lemma {:induction false} RaiseScopesSpec(m: map<(OffboardScope, string), int>, scopes: seq<OffboardScope>, user: string, t: int)
    ensures var r := RaiseScopes(m, scopes, user, t);
      && (forall k :: k in m ==> k in r && m[k] <= r[k])
      && (forall s :: s in scopes ==> (s, user) in r && r[(s, user)] >= t)
      && (forall k :: k in r && !(k.1 == user && k.0 in scopes) ==> k in m && r[k] == m[k])
  {
    if scopes != [] {
      RaiseScopesSpec(m, scopes[..|scopes| - 1], user, t);
      assert scopes == scopes[..|scopes| - 1] + [scopes[|scopes| - 1]];
    }
  }

  lemma FenceStepAdvances(h: Digest, ts: Tombstones, now: int, op: FenceOp)
    ensures Advances(ts, FenceStep(h, ts, now, op).0)
  {
    match op
    case MarkEverywhere(e, u) => RaiseScopesSpec(ts.scoped, EverywhereScopes(e), u, now);
    case EverywhereByActor(a, _, u) => RaiseScopesSpec(ts.scoped, EverywhereScopes(a.enterprise), u, now);
    case _ =>
  }

  lemma LatestOffboardMonotone(a: Tombstones, b: Tombstones, i: Identity)
    requires Advances(a, b)
    ensures NotBefore(LatestOffboard(a, i), LatestOffboard(b, i))
  {
  }

  lemma LatestRevocationMonotone(h: Digest, a: Tombstones, b: Tombstones, o: Owner, p: string)
    requires Advances(a, b)
    ensures NotBefore(LatestRevocation(h, a, o, p), LatestRevocation(h, b, o, p))
  {
  }

  /** Which transactions commit: the plain forms always, an actor's form exactly while every tombstone of the actor
      is older than the receipt (and, across teams, inside an enterprise), a marker exactly when its filter
      is well formed. */
  ghost predicate MayCommit(ts: Tombstones, op: FenceOp) {
    match op
    case MarkTeam(_) => true
    case MarkEverywhere(_, _) => true
    case TeamByActor(a, issuedAt, _) => Current(ts, a, issuedAt)
    case EverywhereByActor(a, issuedAt, _) => a.enterprise.Some? && Current(ts, a, issuedAt)
    case Revoke(f) => ValidFilter(f)
  }

  lemma CommitsExactly(h: Digest, ts: Tombstones, now: int, op: FenceOp)
    ensures FenceStep(h, ts, now, op).1 <==> MayCommit(ts, op)
  {
  }

  /** A refused transaction leaves every tombstone as it was. */
  lemma RefusedChangesNothing(h: Digest, ts: Tombstones, now: int, op: FenceOp)
    requires !FenceStep(h, ts, now, op).1
    ensures FenceStep(h, ts, now, op).0 == ts
  {
  }

  /** The rows that a committed transaction names, in each of the three tables. */
  ghost predicate NamesTeam(op: FenceOp, team: string, user: string) {
    match op
    case MarkTeam(t) => t.team == team && t.user == user
    case TeamByActor(a, _, u) => a.team == team && u == user
    case _ => false
  }

  ghost predicate NamesScope(op: FenceOp, scope: OffboardScope, user: string) {
    match op
    case MarkEverywhere(e, u) => u == user && if e.None? then scope == Global else scope == Enterprise(e.value) || scope == Unscoped
    case EverywhereByActor(a, _, u) =>
      u == user && if a.enterprise.None? then scope == Global else scope == Enterprise(a.enterprise.value) || scope == Unscoped
    case _ => false
  }

  ghost predicate NamesMarker(h: Digest, op: FenceOp, provider: string, key: string) {
    op.Revoke? && op.filter.provider == provider && key == h(FilterScope(op.filter))
  }

  /** The newer of what was there and the sample. */
  ghost predicate RaisedTo(a: Option<int>, b: Option<int>, t: int) {
    b == Some(if a.Some? && a.value > t then a.value else t)
  }

  /** A committed transaction raises exactly the rows it names, to its own clock sample, and no others. */
  lemma FencesExactly(h: Digest, ts: Tombstones, now: int, op: FenceOp)
    requires FenceStep(h, ts, now, op).1
    ensures var ts' := FenceStep(h, ts, now, op).0;
      && (forall k: (string, string) :: if NamesTeam(op, k.0, k.1) then RaisedTo(Lookup(ts.team, k), Lookup(ts'.team, k), now)
                      else Lookup(ts'.team, k) == Lookup(ts.team, k))
      && (forall k: (OffboardScope, string) :: if NamesScope(op, k.0, k.1) then RaisedTo(Lookup(ts.scoped, k), Lookup(ts'.scoped, k), now)
                      else Lookup(ts'.scoped, k) == Lookup(ts.scoped, k))
      && (forall k: (string, string) :: if NamesMarker(h, op, k.0, k.1) then RaisedTo(Lookup(ts.revoked, k), Lookup(ts'.revoked, k), now)
                      else Lookup(ts'.revoked, k) == Lookup(ts.revoked, k))
  {
    hide FilterScope, ValidFilter, Current, LatestOffboard;
    match op
    case MarkEverywhere(e, u) => ScopesRaised(ts.scoped, e, u, now);
    case EverywhereByActor(a, _, u) => ScopesRaised(ts.scoped, a.enterprise, u, now);
    case _ =>
  }

  lemma ScopesRaised(m: map<(OffboardScope, string), int>, e: Option<EnterpriseId>, user: string, t: int)
    ensures var r := RaiseScopes(m, EverywhereScopes(e), user, t);
      forall k: (OffboardScope, string) :: if k.1 == user && (if e.None? then k.0 == Global else k.0 == Enterprise(e.value) || k.0 == Unscoped)
                  then RaisedTo(Lookup(m, k), Lookup(r, k), t) else Lookup(r, k) == Lookup(m, k)
  {
    var scopes := EverywhereScopes(e);
    assert e.None? ==> scopes[..0] == [];
    assert e.Some? ==> scopes[..1] == [Enterprise(e.value)] && scopes[..1][..0] == [];
    if e.Some? {
      assert RaiseScopes(m, scopes[..1], user, t) == Raise(m, (Enterprise(e.value), user), t);
    }
  }

  /** A committed offboarding fences every identity it covers at its own commit time. */
  lemma RemovalFences(h: Digest, ts: Tombstones, now: int, op: FenceOp, i: Identity)
    requires FenceStep(h, ts, now, op).1 && Removes(op, i)
    ensures AtLeast(LatestOffboard(FenceStep(h, ts, now, op).0, i), now)
  {
    hide RaiseScopes, EverywhereScopes, SpecificScope, FilterScope, ValidFilter;
    match op
    case MarkEverywhere(e, u) => EverywhereFences(ts, now, e, u, i);
    case EverywhereByActor(a, _, u) => EverywhereFences(ts, now, a.enterprise, u, i);
    case _ =>
  }

  lemma EverywhereFences(ts: Tombstones, now: int, e: Option<EnterpriseId>, user: string, i: Identity)
    requires i.user == user && (e.None? || i.enterprise == e || i.enterprise.None?)
    ensures AtLeast(LatestOffboard(ts.(scoped := RaiseScopes(ts.scoped, EverywhereScopes(e), user, now)), i), now)
  {
    RaiseScopesSpec(ts.scoped, EverywhereScopes(e), user, now);
    assert e.None? ==> EverywhereScopes(e)[0] == Global;
    assert e.Some? ==> EverywhereScopes(e)[0] == Enterprise(e.value) && EverywhereScopes(e)[1] == Unscoped;
  }

  /** A fence transaction that does not cover an identity leaves it exactly as current as before. */
  lemma OthersUnfenced(h: Digest, ts: Tombstones, now: int, op: FenceOp, i: Identity)
    requires !Removes(op, i)
    ensures LatestOffboard(FenceStep(h, ts, now, op).0, i) == LatestOffboard(ts, i)
  {
    match op
    case MarkEverywhere(e, u) =>
      ScopedLookup(ts, EverywhereScopes(e), u, now, i);
    case EverywhereByActor(a, _, u) =>
      if a.enterprise.Some? {
        ScopedLookup(ts, EverywhereScopes(a.enterprise), u, now, i);
      }
    case _ =>
  }

  lemma ScopedLookup(ts: Tombstones, scopes: seq<OffboardScope>, user: string, t: int, i: Identity)
    requires i.user != user || (Global !in scopes && SpecificScope(i.enterprise) !in scopes)
    ensures LatestOffboard(ts.(scoped := RaiseScopes(ts.scoped, scopes, user, t)), i) == LatestOffboard(ts, i)
  {
    RaiseScopesSpec(ts.scoped, scopes, user, t);
    var r := RaiseScopes(ts.scoped, scopes, user, t);
    assert Lookup(r, (Global, i.user)) == Lookup(ts.scoped, (Global, i.user));
    assert Lookup(r, (SpecificScope(i.enterprise), i.user)) == Lookup(ts.scoped, (SpecificScope(i.enterprise), i.user));
  }

  /** A committed marker blocks every later issuance at or before it, for exactly the owners that the
      filter describes. */
  lemma MarkerFencesMatching(h: Digest, ts: Tombstones, now: int, f: Filter, o: Owner)
    requires Injective(h) && ValidFilter(f)
    ensures var ts' := FenceStep(h, ts, now, Revoke(f)).0;
      if FilterMatches(f, o) then AtLeast(LatestRevocation(h, ts', o, f.provider), now)
      else LatestRevocation(h, ts', o, f.provider) == LatestRevocation(h, ts, o, f.provider)
  {
    hide OwnerScopes, OwnerScopeKeys, FilterMatches, FilterScope, ValidFilter, Injective;
    ScopeKeyIffMatches(h, f, o);
    var k := OwnerScopeKeys(h, o);
    var key := h(FilterScope(f));
    assert key in k <==> key == k[0] || key == k[1] || key == k[2] || key == k[3];
  }

  // ---------------------------------------------------------------------------------------------
  // Runs of fence transactions
  // ---------------------------------------------------------------------------------------------

  datatype FenceRun = FenceRun(states: seq<Tombstones>, times: seq<int>, ops: seq<FenceOp>)

  ghost predicate ValidFenceRun(h: Digest, r: FenceRun) {
    && |r.states| == |r.ops| + 1 && |r.times| == |r.ops|
    && (forall i, j :: 0 <= i <= j < |r.times| ==> r.times[i] <= r.times[j])
    && (forall i {:trigger r.ops[i]} :: 0 <= i < |r.ops| ==>
         r.states[i + 1] == FenceStep(h, r.states[i], r.times[i], r.ops[i]).0)
  }

  ghost predicate Committed(h: Digest, r: FenceRun, i: int)
    requires ValidFenceRun(h, r) && 0 <= i < |r.ops|
  {
    FenceStep(h, r.states[i], r.times[i], r.ops[i]).1
  }

  lemma {:induction false} RunAdvances(h: Digest, r: FenceRun, i: nat, j: nat)
    requires ValidFenceRun(h, r) && i <= j <= |r.ops|
    ensures Advances(r.states[i], r.states[j])
    decreases j - i
  {
    if i < j {
      RunAdvances(h, r, i, j - 1);
      FenceStepAdvances(h, r.states[j - 1], r.times[j - 1], r.ops[j - 1]);
      assert r.ops[j - 1] == r.ops[j - 1];
    }
  }

  /** A step that left a tombstone different, or answered that it committed, had its actor's receipt accepted. */
  ghost predicate Effective(h: Digest, r: FenceRun, i: int)
    requires ValidFenceRun(h, r) && 0 <= i < |r.ops|
  {
    Committed(h, r, i) || r.states[i + 1] != r.states[i]
  }

  lemma EffectiveCommits(h: Digest, r: FenceRun, i: nat)
    requires ValidFenceRun(h, r) && i < |r.ops|
    ensures Effective(h, r, i) <==> Committed(h, r, i)
  {
    hide FenceStep;
    assert r.ops[i] == r.ops[i];
    if !Committed(h, r, i) {
      RefusedChangesNothing(h, r.states[i], r.times[i], r.ops[i]);
    }
  }

  /** Once removed, an administrator's earlier receipts never commit another removal and never move a tombstone,
      whatever else runs in between. */
  lemma RemovedActorCannotAct(h: Digest, r: FenceRun, i: nat, j: nat, actor: Identity, issuedAt: int)
    requires ValidFenceRun(h, r) && i < j < |r.ops|
    requires Effective(h, r, i) && Removes(r.ops[i], actor) && issuedAt <= r.times[i]
    requires (r.ops[j].TeamByActor? || r.ops[j].EverywhereByActor?)
    requires r.ops[j].actor == actor && r.ops[j].issuedAt == issuedAt
    ensures !Committed(h, r, j) && r.states[j + 1] == r.states[j]
  {
    EffectiveCommits(h, r, i);
    RemovalFences(h, r.states[i], r.times[i], r.ops[i], actor);
    assert r.states[i + 1] == FenceStep(h, r.states[i], r.times[i], r.ops[i]).0;
    RunAdvances(h, r, i + 1, j);
    LatestOffboardMonotone(r.states[i + 1], r.states[j], actor);
    CommitsExactly(h, r.states[j], r.times[j], r.ops[j]);
    EffectiveCommits(h, r, j);
  }

  ghost predicate ByActor(op: FenceOp) {
    op.TeamByActor? || op.EverywhereByActor?
  }

  /** `c` lists distinct steps of the run, each an actor removal with any effect, whose target acts in the next one. */
  ghost predicate RemovalCycle(h: Digest, r: FenceRun, c: seq<nat>)
    requires ValidFenceRun(h, r)
  {
    && |c| >= 2
    && (forall k :: 0 <= k < |c| ==> c[k] < |r.ops| && ByActor(r.ops[c[k]]) && Effective(h, r, c[k]))
    && (forall k, l :: 0 <= k < l < |c| ==> c[k] != c[l])
    && (forall k {:trigger c[k]} :: 0 <= k < |c| ==>
         Removes(r.ops[c[k]], r.ops[c[if k + 1 < |c| then k + 1 else 0]].actor))
  }

  lemma {:induction false} EarliestIndex(c: seq<nat>) returns (m: nat)
    requires |c| >= 1
    ensures m < |c| && forall k :: 0 <= k < |c| ==> c[m] <= c[k]
  {
    if |c| == 1 {
      m := 0;
    } else {
      var l := EarliestIndex(c[..|c| - 1]);
      m := if c[l] <= c[|c| - 1] then l else |c| - 1;
    }
  }

  /** Administrators cannot remove each other in a circle: a cycle of removals that commit or move any
      tombstone, each by the person removed in the one before, needs some receipt later than one of them. */
  lemma NoRemovalCycle(h: Digest, r: FenceRun, c: seq<nat>)
    requires ValidFenceRun(h, r) && RemovalCycle(h, r, c)
    ensures exists k, l :: 0 <= k < |c| && 0 <= l < |c| && r.ops[c[k]].issuedAt > r.times[c[l]]
  {
    var m := EarliestIndex(c);
    var n := if m + 1 < |c| then m + 1 else 0;
    assert c[m] < c[n];
    if r.ops[c[n]].issuedAt <= r.times[c[m]] {
      RemovedActorCannotAct(h, r, c[m], c[n], r.ops[c[n]].actor, r.ops[c[n]].issuedAt);
      assert false;
    }
  }

  // ---------------------------------------------------------------------------------------------
  // Receipt instants in the database clock domain (src/adapters/bolt.ts)
  // ---------------------------------------------------------------------------------------------

  /** The issuance computed from one database sample and two monotonic reads in nanoseconds; a clock
      that ran backwards is refused. */
  function IssuedAtFromReceipt(pgNow: int, receivedNs: int, readNs: int): Option<int> {
    if readNs < receivedNs then None
    else Some(pgNow - (readNs - receivedNs + 999) / 1000)
  }

  /** Conservative: if the database clock advanced, from the receipt to its sample, by no more than
      the two monotonic reads bracket, then the issuance is never after the receipt. */
  lemma ReceiptConservative(dbReceiptNs: int, dbSampleNs: int, receivedNs: int, readNs: int)
    requires 0 <= dbSampleNs - dbReceiptNs <= readNs - receivedNs
    ensures var issued := IssuedAtFromReceipt(dbSampleNs / 1000, receivedNs, readNs);
      && issued.Some?
      && issued.value <= dbReceiptNs / 1000
      && issued.value >= dbReceiptNs / 1000 - (readNs - receivedNs + 999) / 1000
  {
  }

  /** A receipt is refused exactly when the monotonic clock ran backwards, and never lies after the sample. */
  lemma ReceiptNeverLater(pgNow: int, receivedNs: int, readNs: int)
    ensures var issued := IssuedAtFromReceipt(pgNow, receivedNs, readNs);
      && (issued.None? <==> readNs < receivedNs)
      && (issued.Some? ==> issued.value <= pgNow && (issued.value == pgNow <==> readNs == receivedNs))
  {
  }

  /** Hence a fence stamped at or after the receipt blocks the interaction, ties included. */
  lemma FencedInteractionIsBlocked(ts: Tombstones, i: Identity, dbReceiptNs: int, dbSampleNs: int,
                                   receivedNs: int, readNs: int, fence: int)
    requires 0 <= dbSampleNs - dbReceiptNs <= readNs - receivedNs
    requires AtLeast(LatestOffboard(ts, i), fence) && dbReceiptNs / 1000 <= fence
    ensures !Current(ts, i, IssuedAtFromReceipt(dbSampleNs / 1000, receivedNs, readNs).value)
  {
    ReceiptConservative(dbReceiptNs, dbSampleNs, receivedNs, readNs);
  }
}
