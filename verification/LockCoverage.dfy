/** The locks are enough: a transaction that reads a fence, a marker or a credential shares a key with every transaction
    that writes it, so the two never hold their full batches together. */
module LockCoverage {
  import opened Base
  import opened Fences
  import opened Locks
  import opened LockPaths

  // ---------------------------------------------------------------------------------------------
  // What each path reads and writes
  // ---------------------------------------------------------------------------------------------

  /** The path compares this person's tombstones with a receipt. */
  ghost predicate FencesPerson(p: Path, who: Identity) {
    match p
    case BeginConsent(i, _) => who == i
    case WriteUserCredential(i, _) => who == i
    case ConfigureChannel(i, _, _) => who == i
    case IssueChannelSetup(i, _, _) => who == i
    case IssueUserSetup(i, _) => who == i
    case SetChannelIdentity(i, _, _) => who == i
    case DisconnectChannel(i, _, _) => who == i
    case ConfigureTools(i, _, _) => who == i
    case RequestApproval(_, _, _, requester) => who == requester
    case ConsumeApproval(_, _, _, requester, member) => who == requester || member == Some(who)
    case DecideApproval(_, _, actor, requester) => who == actor || who == requester
    case UseHandle(_, _, actor) => who == actor
    case PrepareDisconnect(i, _) => who == i
    case ClaimDisconnect(i, _) => who == i
    case OffboardByActor(actor, _) => who == actor
    case OffboardEverywhereByActor(actor, _) => who == actor
    case _ => false
  }

  /** The path commits this fence transaction. */
  ghost predicate Writes(p: Path, op: FenceOp) {
    match p
    case MarkOffboarded(i) => op == MarkTeam(i)
    case OffboardByActor(actor, user) => op.TeamByActor? && op.actor == actor && op.user == user
    case OffboardEverywhere(e, user) => op == MarkEverywhere(e, user)
    case OffboardEverywhereByActor(actor, user) => op.EverywhereByActor? && op.actor == actor && op.user == user
    case MarkRevoked(f) => op == Revoke(f)
    case PrepareDisconnect(i, provider) => op == Revoke(Filter(provider, Some(i.team), Some(i.user), None))
    case _ => false
  }

  /** The path compares the markers of this owner and provider with an issuance. */
  ghost predicate FencesOwner(p: Path, o: Owner, provider: string) {
    match p
    case BeginConsent(i, pr) => o == Owner(i.team, UserOwned, i.user) && provider == pr
    case WriteUserCredential(i, pr) => o == Owner(i.team, UserOwned, i.user) && provider == pr
    case WriteChannelCredential(i, c, pr) => o == Owner(i.team, ChannelOwned, c) && provider == pr
    case ConfigureChannel(i, c, pr) => o == Owner(i.team, ChannelOwned, c) && provider == pr
    case IssueChannelSetup(i, c, pr) => o == Owner(i.team, ChannelOwned, c) && provider == pr
    case IssueUserSetup(i, pr) => o == Owner(i.team, UserOwned, i.user) && provider == pr
    case DisconnectChannel(i, c, pr) => o == Owner(i.team, ChannelOwned, c) && provider == pr
    case PrepareDisconnect(i, pr) => o == Owner(i.team, UserOwned, i.user) && provider == pr
    case _ => false
  }

  /** The path reads or writes the credential, or the authority that hangs on it. */
  ghost predicate Touches(p: Path, o: Owner, provider: string) {
    match p
    case WriteUserCredential(i, pr) => o == Owner(i.team, UserOwned, i.user) && provider == pr
    case WriteChannelCredential(i, c, pr) => o == Owner(i.team, ChannelOwned, c) && provider == pr
    case ConfigureChannel(i, c, pr) => o == Owner(i.team, ChannelOwned, c) && provider == pr
    case IssueChannelSetup(i, c, pr) => o == Owner(i.team, ChannelOwned, c) && provider == pr
    case IssueUserSetup(i, pr) => o == Owner(i.team, UserOwned, i.user) && provider == pr
    case SetChannelIdentity(i, c, pr) => o == Owner(i.team, ChannelOwned, c) && provider == pr
    case DisconnectChannel(i, c, pr) => o == Owner(i.team, ChannelOwned, c) && provider == pr
    case ConfigureTools(i, c, providers) => o == Owner(i.team, ChannelOwned, c) && provider in providers
    case RequestApproval(owner, place, pr, _) => AtApproval(owner, place, o) && provider == pr
    case ConsumeApproval(owner, place, pr, _, _) => AtApproval(owner, place, o) && provider == pr
    case DecideApproval(owners, pr, _, _) => o in owners && provider == pr
    case UseHandle(owners, pr, _) => o in owners && provider == pr
    case TouchCredential(owner, pr) => o == owner && provider == pr
    case PurgePending(owners, pr) => o in owners && provider == pr
    case ClaimDisconnect(i, pr) => o == Owner(i.team, UserOwned, i.user) && provider == pr
    case _ => false
  }

  /** An approval depends on its owner's credential and on its channel's. */
  ghost predicate AtApproval(owner: Owner, place: Option<string>, o: Owner) {
    o == owner || (place.Some? && o == Owner(owner.team, ChannelOwned, place.value))
  }

  ghost predicate Takes(digest: Digest, p: Path, k: string) {
    k in Acquired(Batches(digest, p))
  }

  ghost predicate Share(digest: Digest, p: Path, q: Path) {
    exists k :: Takes(digest, p, k) && Takes(digest, q, k)
  }

  // ---------------------------------------------------------------------------------------------
  // Keys of a path
  // ---------------------------------------------------------------------------------------------

  lemma {:induction false} AcquiredHas(batches: seq<seq<string>>, k: string)
    ensures k in Acquired(batches) <==> exists b :: b in batches && k in b
  {
    if batches != [] {
      var n := |batches| - 1;
      AcquiredHas(batches[..n], k);
      CanonicalExact(batches[n]);
      assert batches == batches[..n] + [batches[n]];
    }
  }

  lemma TakesFrom(digest: Digest, p: Path, n: nat, k: string)
    requires n < |Batches(digest, p)| && k in Batches(digest, p)[n]
    ensures Takes(digest, p, k)
  {
    hide Batches;
    AcquiredHas(Batches(digest, p), k);
  }

  // ---------------------------------------------------------------------------------------------
  // Offboarding
  // ---------------------------------------------------------------------------------------------

  /** Whoever compares a person's tombstones holds all three of the person's locks. */
  lemma FencingTakes(digest: Digest, p: Path, who: Identity)
    requires FencesPerson(p, who)
    ensures Takes(digest, p, "offboard:" + who.team + ":" + who.user)
    ensures Takes(digest, p, "offboard-scope:global::" + who.user)
    ensures who.enterprise.None? ==> Takes(digest, p, "offboard-scope:unscoped::" + who.user)
    ensures who.enterprise.Some? ==> Takes(digest, p, "offboard-scope:enterprise:" + who.enterprise.value + ":" + who.user)
  {
    hide Takes, Acquired, Canonical, OwnerScopeKeys;
    var keys := OffboardKeys(who);
    forall k | k in keys ensures Takes(digest, p, k) {
      var n := FenceBatch(digest, p, who);
      TakesFrom(digest, p, n, k);
    }
    assert keys[0] == "offboard:" + who.team + ":" + who.user;
    assert keys[1] == "offboard-scope:global::" + who.user;
    assert who.enterprise.None? ==> keys[2] == "offboard-scope:unscoped::" + who.user;
    assert who.enterprise.Some? ==> keys[2] == "offboard-scope:enterprise:" + who.enterprise.value + ":" + who.user;
  }

  lemma FenceBatch(digest: Digest, p: Path, who: Identity) returns (n: nat)
    requires FencesPerson(p, who)
    ensures n < |Batches(digest, p)| && forall k :: k in OffboardKeys(who) ==> k in Batches(digest, p)[n]
  {
    hide OffboardKeys, RevokeKeys, CredentialKey, EverywhereKeys, ApprovalScopes, CredentialKeys, ToolKeys, OffboardKey;
    var full := p.WriteUserCredential? || p.ConfigureChannel? || p.IssueChannelSetup? || p.IssueUserSetup? || p.DisconnectChannel?;
    n := if full then 2 else if p.OffboardByActor? || p.OffboardEverywhereByActor? then 0 else 1;
  }

  /** Whoever removes a person holds the lock of each tombstone it writes. */
  lemma RemovingTakes(digest: Digest, p: Path, op: FenceOp, who: Identity) returns (k: string)
    requires Writes(p, op) && Removes(op, who)
    ensures Takes(digest, p, k) && k in OffboardKeys(who)
  {
    hide Takes, Acquired, Canonical;
    k := match op
      case MarkTeam(i) => OffboardKey(i.team, i.user)
      case TeamByActor(actor, _, user) => OffboardKey(actor.team, user)
      case MarkEverywhere(e, _) => EverywhereLock(e, who)
      case EverywhereByActor(actor, _, _) => EverywhereLock(actor.enterprise, who)
      case Revoke(_) => "";
    TakesFrom(digest, p, 0, k);
  }

  ghost function EverywhereLock(e: Option<EnterpriseId>, who: Identity): string {
    if e.None? then ScopeLockKey(Global, who.user) else ScopeLockKey(SpecificScope(who.enterprise), who.user)
  }

  /** A removal and any transaction that compares the removed person's tombstones have a lock in common. */
  lemma RemovalMeetsFence(digest: Digest, p: Path, q: Path, op: FenceOp, who: Identity)
    requires Writes(p, op) && Removes(op, who) && FencesPerson(q, who)
    ensures Share(digest, p, q)
  {
    hide Takes, OffboardKeys, Writes, FencesPerson, Removes;
    var k := RemovingTakes(digest, p, op, who);
    var n := FenceBatch(digest, q, who);
    TakesFrom(digest, q, n, k);
  }

  // ---------------------------------------------------------------------------------------------
  // Markers
  // ---------------------------------------------------------------------------------------------

  ghost predicate NoColon(s: string) {
    forall i :: 0 <= i < |s| ==> s[i] != ':'
  }

  lemma ProviderHasNoColon(provider: string)
    requires ValidProvider(provider)
    ensures NoColon(provider)
  {
    assert !IdChar(':');
  }

  /** A prefix without the separator can be told from what follows it. */
  lemma {:induction false} SplitAtColon(a: string, b: string, s: string, t: string)
    requires NoColon(a) && NoColon(b) && a + ":" + s == b + ":" + t
    ensures a == b && s == t
  {
    var x, y := a + ":" + s, b + ":" + t;
    assert x[|a|] == ':' && y[|b|] == ':';
    assert x[..|a|] == a && y[..|b|] == b;
    assert x[|a| + 1..] == s && y[|b| + 1..] == t;
  }

  lemma RevokeKeyInjective(p: string, q: string, s: string, t: string)
    requires NoColon(p) && NoColon(q) && RevokeKey(p, s) == RevokeKey(q, t)
    ensures p == q && s == t
  {
    var prefix := "provisioning-revoke:";
    assert RevokeKey(p, s) == prefix + (p + ":" + s) && RevokeKey(q, t) == prefix + (q + ":" + t);
    assert RevokeKey(p, s)[|prefix|..] == p + ":" + s && RevokeKey(q, t)[|prefix|..] == q + ":" + t;
    SplitAtColon(p, q, s, t);
  }

  /** The keys of the middle tier that such a path takes are exactly the four scopes of its owner. */
  lemma OwnerScopesTaken(digest: Digest, q: Path, o: Owner, provider: string, k: string)
    requires SlackPath(q) && FencesOwner(q, o, provider) && Tier(k) == 1
    ensures Takes(digest, q, k) <==> k in RevokeKeys(digest, o, provider)
  {
    hide Acquired, Tier, CredentialKey, RevokeKeys, OffboardKeys, OwnerScopeKeys, RevokeKey;
    AcquiredHas(Batches(digest, q), k);
    OffboardKeysTier(q, k);
    if q.PrepareDisconnect? {
      DisconnectReenters(digest, q.i, q.provider);
    } else if !q.BeginConsent? {
      CredentialTier(o, provider);
    }
    var n := if q.BeginConsent? || q.PrepareDisconnect? then 0 else 1;
    assert Batches(digest, q)[n] == RevokeKeys(digest, o, provider);
    assert Batches(digest, q)[n] in Batches(digest, q);
  }

  lemma OffboardKeysTier(q: Path, k: string)
    requires Tier(k) == 1
    ensures forall i :: k !in OffboardKeys(i)
  {
    OffboardTier();
  }

  /** A break-glass marker and a transaction over one owner have a lock in common exactly when the filter describes that
      owner, for its provider: no narrower, and no wider. */
  lemma MarkerMeetsOwner(digest: Digest, f: Filter, q: Path, o: Owner, provider: string)
    requires Injective(digest) && ValidFilter(f) && ValidProvider(provider) && SlackPath(q) && FencesOwner(q, o, provider)
    ensures Share(digest, MarkRevoked(f), q) <==> f.provider == provider && FilterMatches(f, o)
  {
    hide Injective, ValidFilter, ValidProvider, SlackPath, FencesOwner, Acquired, Batches, FilterMatches, OwnerScopeKeys, FilterScope, Tier, Takes;
    var key := RevokeKey(f.provider, digest(FilterScope(f)));
    MarkTakes(digest, f);
    RevokeTier(digest, o, provider);
    OwnerScopesTaken(digest, q, o, provider, key);
    MarkedKey(digest, f, o, provider);
    assert Share(digest, MarkRevoked(f), q) <==> Takes(digest, q, key);
  }

  lemma MarkTakes(digest: Digest, f: Filter)
    ensures Tier(RevokeKey(f.provider, digest(FilterScope(f)))) == 1
    ensures forall k :: Takes(digest, MarkRevoked(f), k) <==> k == RevokeKey(f.provider, digest(FilterScope(f)))
  {
    hide Acquired, FilterScope, Tier, RevokeKey;
    RevokeTier(digest, Owner("", UserOwned, ""), f.provider);
    forall k ensures Takes(digest, MarkRevoked(f), k) <==> k == RevokeKey(f.provider, digest(FilterScope(f))) {
      AcquiredHas(Batches(digest, MarkRevoked(f)), k);
      assert Batches(digest, MarkRevoked(f))[0] in Batches(digest, MarkRevoked(f));
    }
  }

  lemma MarkedKey(digest: Digest, f: Filter, o: Owner, provider: string)
    requires Injective(digest) && ValidFilter(f) && ValidProvider(provider)
    ensures RevokeKey(f.provider, digest(FilterScope(f))) in RevokeKeys(digest, o, provider) <==> f.provider == provider && FilterMatches(f, o)
  {
    ScopeKeyIffMatches(digest, f, o);
    ProviderHasNoColon(provider);
    ProviderHasNoColon(f.provider);
    hide Injective, ValidProvider, FilterMatches, OwnerScopeKeys, FilterScope, RevokeKey;
    var keys := OwnerScopeKeys(digest, o);
    var s := digest(FilterScope(f));
    forall i | 0 <= i < 4 ensures RevokeKey(f.provider, s) == RevokeKey(provider, keys[i]) <==> f.provider == provider && s == keys[i] {
      if RevokeKey(f.provider, s) == RevokeKey(provider, keys[i]) {
        RevokeKeyInjective(f.provider, provider, s, keys[i]);
      }
    }
  }

  /** Whoever writes a marker, a member's own disconnect included, meets every transaction over an owner it describes. */
  lemma RevocationMeetsOwner(digest: Digest, p: Path, q: Path, f: Filter, o: Owner)
    requires Injective(digest) && ValidFilter(f) && SlackPath(q) && FencesOwner(q, o, f.provider)
    requires Writes(p, Revoke(f)) && FilterMatches(f, o)
    ensures Share(digest, p, q)
  {
    hide Injective, SlackPath, FencesOwner, Acquired, OwnerScopeKeys, FilterScope, Tier, Takes, FilterMatches;
    assert ValidProvider(f.provider);
    hide ValidFilter, ValidProvider;
    var key := RevokeKey(f.provider, digest(FilterScope(f)));
    MarkTakes(digest, f);
    OwnerScopesTaken(digest, q, o, f.provider, key);
    MarkedKey(digest, f, o, f.provider);
    TakesFrom(digest, p, if p.MarkRevoked? then 0 else 2, key);
  }

  // ---------------------------------------------------------------------------------------------
  // Credentials
  // ---------------------------------------------------------------------------------------------

  /** Every transaction that touches a credential holds its one key. */
  lemma TouchingTakes(digest: Digest, p: Path, o: Owner, provider: string)
    requires Touches(p, o, provider)
    ensures Takes(digest, p, o.team + (if o.kind == UserOwned then ":user:" else ":channel:") + o.id + ":" + provider)
  {
    hide Takes, Acquired, OwnerScopeKeys, OffboardKeys, RevokeKeys;
    OwnersListed(p, o, provider);
    TakesFrom(digest, p, 0, CredentialKey(o, provider));
  }

  lemma OwnersListed(p: Path, o: Owner, provider: string)
    ensures p.DecideApproval? && o in p.owners ==> CredentialKey(o, p.provider) in CredentialKeys(p.owners, p.provider)
    ensures p.UseHandle? && o in p.owners ==> CredentialKey(o, p.provider) in CredentialKeys(p.owners, p.provider)
    ensures p.PurgePending? && o in p.owners ==> CredentialKey(o, p.provider) in CredentialKeys(p.owners, p.provider)
    ensures p.ConfigureTools? && provider in p.providers ==>
      CredentialKey(ChannelOwner(p.i.team, p.channel), provider) in ToolKeys(p.i.team, p.channel, p.providers)
  {
    if p.DecideApproval? || p.UseHandle? || p.PurgePending? {
      KeyListed(p.owners, p.provider, o);
    }
    if p.ConfigureTools? {
      ToolListed(p.i.team, p.channel, p.providers, provider);
    }
  }

  lemma {:induction false} KeyListed(owners: seq<Owner>, provider: string, o: Owner)
    ensures o in owners ==> CredentialKey(o, provider) in CredentialKeys(owners, provider)
  {
    if owners != [] && owners[0] != o {
      KeyListed(owners[1..], provider, o);
    }
  }

  lemma {:induction false} ToolListed(team: string, channel: string, providers: seq<string>, provider: string)
    ensures provider in providers ==> CredentialKey(ChannelOwner(team, channel), provider) in ToolKeys(team, channel, providers)
  {
    if providers != [] && providers[0] != provider {
      ToolListed(team, channel, providers[1..], provider);
    }
  }

  lemma TouchesMeet(digest: Digest, p: Path, q: Path, o: Owner, provider: string)
    requires Touches(p, o, provider) && Touches(q, o, provider)
    ensures Share(digest, p, q)
  {
    hide Takes, Touches;
    TouchingTakes(digest, p, o, provider);
    TouchingTakes(digest, q, o, provider);
  }

  // ---------------------------------------------------------------------------------------------
  // Exclusion
  // ---------------------------------------------------------------------------------------------

  ghost predicate Exclusive(h: Hash, s: System) {
    forall a, b, x, y :: a in s && b in s && a != b && x in s[a].held && y in s[b].held ==> h(x) != h(y)
  }

  lemma StepExcludes(h: Hash, digest: Digest, paths: Plans, s: System, step: Step)
    requires Exclusive(h, s) && PathStep(h, digest, paths, s, step)
    ensures Exclusive(h, Exec(s, step))
  {
    hide Plan;
    var s' := Exec(s, step);
    forall a, b, x, y | a in s' && b in s' && a != b && x in s'[a].held && y in s'[b].held ensures h(x) != h(y) {
      if step.Grant? {
        assert a != step.id ==> x in s[a].held && a in s;
        assert b != step.id ==> y in s[b].held && b in s;
      }
    }
  }

  lemma {:induction false} RunExcludes(h: Hash, digest: Digest, paths: Plans, r: Run, i: nat)
    requires PathRun(h, digest, paths, r) && i <= |r.steps|
    ensures Exclusive(h, r.states[i])
  {
    hide Exec, Exclusive, PathStep;
    if i == 0 {
      NobodyExcludes(h, r.states[0]);
    } else {
      RunExcludes(h, digest, paths, r, i - 1);
      StepExcludes(h, digest, paths, r.states[i - 1], r.steps[i - 1]);
    }
  }

  lemma NobodyExcludes(h: Hash, s: System)
    requires s == map[]
    ensures Exclusive(h, s)
  {
  }

  /** The transaction holds every batch of its path. */
  ghost predicate HoldsAll(digest: Digest, paths: Plans, s: System, a: nat) {
    a in s && s[a].held == Plan(digest, paths, a)
  }

  /** Two transactions with a common key never hold their full batches at one instant, under any hash. */
  lemma SharersExclude(h: Hash, digest: Digest, paths: Plans, r: Run, i: nat, a: nat, b: nat)
    requires PathRun(h, digest, paths, r) && i <= |r.steps| && a != b && Share(digest, paths(a), paths(b))
    ensures !(HoldsAll(digest, paths, r.states[i], a) && HoldsAll(digest, paths, r.states[i], b))
  {
    assert i < |r.states|;
    hide PathRun, Acquired, Batches, Exclusive;
    RunExcludes(h, digest, paths, r, i);
    var k :| Takes(digest, paths(a), k) && Takes(digest, paths(b), k);
    NoKeyTwice(h, r.states[i], a, b, k);
  }

  lemma NoKeyTwice(h: Hash, s: System, a: nat, b: nat, k: string)
    requires Exclusive(h, s) && a != b
    ensures !(a in s && b in s && k in s[a].held && k in s[b].held)
  {
    assert a in s && k in s[a].held ==> HoldsSlot(h, s[a], h(k));
    assert b in s && k in s[b].held ==> HoldsSlot(h, s[b], h(k));
  }

  /** So in no interleaving does a removal run beside a transaction that compares the removed person's tombstones, a marker
      beside one that compares the markers of an owner it describes, or one use of a credential beside
      another: each such pair is one after the other. */
  lemma WritersExcludeReaders(h: Hash, digest: Digest, paths: Plans, r: Run, i: nat, a: nat, b: nat)
    requires PathRun(h, digest, paths, r) && i <= |r.steps| && a != b && Conflict(digest, paths(a), paths(b))
    ensures !(HoldsAll(digest, paths, r.states[i], a) && HoldsAll(digest, paths, r.states[i], b))
  {
    hide PathRun, Writes, FencesPerson, FencesOwner, Touches, Removes, FilterMatches, ValidFilter, Share, HoldsAll, SlackPath, Injective;
    var p, q := paths(a), paths(b);
    if op, who :| Writes(p, op) && Removes(op, who) && FencesPerson(q, who) {
      RemovalMeetsFence(digest, p, q, op, who);
    } else if f, o :| ValidFilter(f) && Writes(p, Revoke(f)) && FilterMatches(f, o) && FencesOwner(q, o, f.provider) && SlackPath(q) && Injective(digest) {
      RevocationMeetsOwner(digest, p, q, f, o);
    } else {
      var o, provider :| Touches(p, o, provider) && Touches(q, o, provider);
      TouchesMeet(digest, p, q, o, provider);
    }
    SharersExclude(h, digest, paths, r, i, a, b);
  }

  /** One path writes what the other compares, or both touch one credential. */
  ghost predicate Conflict(digest: Digest, p: Path, q: Path) {
    || (exists op, who :: Writes(p, op) && Removes(op, who) && FencesPerson(q, who))
    || (exists f, o :: ValidFilter(f) && Writes(p, Revoke(f)) && FilterMatches(f, o) && FencesOwner(q, o, f.provider) && SlackPath(q) && Injective(digest))
    || (exists o, provider :: Touches(p, o, provider) && Touches(q, o, provider))
  }
}
