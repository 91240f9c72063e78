/** The lock batches of the lifecycle transactions, in the order each takes them, all within the
    discipline of the lock machine. */
module LockPaths {
  import opened Base
  import opened Fences
  import opened Locks

  // ---------------------------------------------------------------------------------------------
  // Keys
  // ---------------------------------------------------------------------------------------------

  function CredentialKey(o: Owner, provider: string): string {
    o.team + (if o.kind == UserOwned then ":user:" else ":channel:") + o.id + ":" + provider
  }

  function RevokeKey(provider: string, scopeKey: string): string {
    "provisioning-revoke:" + provider + ":" + scopeKey
  }

  function RevokeKeys(digest: Digest, o: Owner, provider: string): seq<string> {
    var k := OwnerScopeKeys(digest, o);
    [RevokeKey(provider, k[0]), RevokeKey(provider, k[1]), RevokeKey(provider, k[2]), RevokeKey(provider, k[3])]
  }

  function ScopeLockKey(scope: OffboardScope, user: string): string {
    match scope
    case Global => "offboard-scope:global::" + user
    case Unscoped => "offboard-scope:unscoped::" + user
    case Enterprise(e) => "offboard-scope:enterprise:" + e + ":" + user
  }

  function OffboardKey(team: string, user: string): string {
    "offboard:" + team + ":" + user
  }

  function OffboardKeys(i: Identity): seq<string> {
    [OffboardKey(i.team, i.user), ScopeLockKey(Global, i.user), ScopeLockKey(SpecificScope(i.enterprise), i.user)]
  }

  function EverywhereKeys(enterprise: Option<EnterpriseId>, user: string): seq<string> {
    match enterprise
    case None => [ScopeLockKey(Global, user)]
    case Some(e) => [ScopeLockKey(Enterprise(e), user), ScopeLockKey(Unscoped, user)]
  }

  // ---------------------------------------------------------------------------------------------
  // Code paths
  // ---------------------------------------------------------------------------------------------

  /** Every transaction of the source that takes an advisory lock. */
  datatype Path =
    | BeginConsent(i: Identity, provider: string)
    | WriteUserCredential(i: Identity, provider: string)
    | WriteChannelCredential(i: Identity, channel: string, provider: string)
    | ConfigureChannel(i: Identity, channel: string, provider: string)
    | IssueChannelSetup(i: Identity, channel: string, provider: string)
    | IssueUserSetup(i: Identity, provider: string)
    | SetChannelIdentity(i: Identity, channel: string, provider: string)
    | DisconnectChannel(i: Identity, channel: string, provider: string)
    | ConfigureTools(i: Identity, channel: string, providers: seq<string>)
    | RequestApproval(owner: Owner, place: Option<string>, provider: string, requester: Identity)
    | ConsumeApproval(owner: Owner, place: Option<string>, provider: string, requester: Identity, member: Option<Identity>)
    | DecideApproval(owners: seq<Owner>, provider: string, actor: Identity, requester: Identity)
    | UseHandle(owners: seq<Owner>, provider: string, actor: Identity)
    | TouchCredential(owner: Owner, provider: string)          // refresh, expiry, delete, setup delivery
    | PurgePending(owners: seq<Owner>, provider: string)
    | PrepareDisconnect(i: Identity, provider: string)
    | ClaimDisconnect(i: Identity, provider: string)
    | MigrateSchema(schemaName: string)
    | MarkRevoked(filter: Filter)
    | MarkOffboarded(i: Identity)
    | OffboardByActor(actor: Identity, user: string)
    | OffboardEverywhere(enterprise: Option<EnterpriseId>, user: string)
    | OffboardEverywhereByActor(actor: Identity, user: string)

  function ApprovalScopes(owner: Owner, channel: Option<string>, provider: string): seq<string> {
    [CredentialKey(owner, provider)] +
    if channel.Some? then [CredentialKey(ChannelOwner(owner.team, channel.value), provider)] else []
  }

  function CredentialKeys(owners: seq<Owner>, provider: string): (keys: seq<string>) {
    if owners == [] then [] else [CredentialKey(owners[0], provider)] + CredentialKeys(owners[1..], provider)
  }

  function ToolKeys(team: string, channel: string, providers: seq<string>): (keys: seq<string>) {
    if providers == [] then []
    else [CredentialKey(ChannelOwner(team, channel), providers[0])] + ToolKeys(team, channel, providers[1..])
  }

  function MemberKeys(member: Option<Identity>): seq<string> {
    if member.Some? then OffboardKeys(member.value) else []
  }

  /** The batches of each path, outermost first. A nested batch on a held key re-enters it: an identity change
      deletes under the key it holds, a spend validates under the requester's fence, and a disconnect
      writes its marker under its own scope lock. */
  function Batches(digest: Digest, p: Path): seq<seq<string>> {
    match p
    case BeginConsent(i, provider) => [RevokeKeys(digest, UserOwner(i), provider), OffboardKeys(i)]
    case WriteUserCredential(i, provider) => FullBatches(digest, UserOwner(i), i, provider)
    case WriteChannelCredential(i, c, provider) =>
      var o := ChannelOwner(i.team, c);
      [[CredentialKey(o, provider)], RevokeKeys(digest, o, provider)]
    case ConfigureChannel(i, c, provider) => FullBatches(digest, ChannelOwner(i.team, c), i, provider)
    case IssueChannelSetup(i, c, provider) => FullBatches(digest, ChannelOwner(i.team, c), i, provider)
    case IssueUserSetup(i, provider) => FullBatches(digest, UserOwner(i), i, provider)
    case SetChannelIdentity(i, c, provider) =>
      var o := ChannelOwner(i.team, c);
      [[CredentialKey(o, provider)], OffboardKeys(i), [CredentialKey(o, provider)]]
    case DisconnectChannel(i, c, provider) => FullBatches(digest, ChannelOwner(i.team, c), i, provider)
    case ConfigureTools(i, c, providers) => [ToolKeys(i.team, c, providers), OffboardKeys(i)]
    case RequestApproval(o, c, provider, requester) => [ApprovalScopes(o, c, provider), OffboardKeys(requester)]
    case ConsumeApproval(o, c, provider, requester, member) =>
      [ApprovalScopes(o, c, provider), OffboardKeys(requester) + MemberKeys(member), OffboardKeys(requester)]
    case DecideApproval(owners, provider, actor, requester) =>
      [CredentialKeys(owners, provider), OffboardKeys(actor) + OffboardKeys(requester)]
    case UseHandle(owners, provider, actor) => [CredentialKeys(owners, provider), OffboardKeys(actor)]
    case TouchCredential(o, provider) => [[CredentialKey(o, provider)]]
    case PurgePending(owners, provider) => [CredentialKeys(owners, provider)]
    case PrepareDisconnect(i, provider) =>
      [RevokeKeys(digest, UserOwner(i), provider), OffboardKeys(i),
       [RevokeKey(provider, digest(FilterScope(Filter(provider, Some(i.team), Some(i.user), None))))]]
    case ClaimDisconnect(i, provider) => [[CredentialKey(UserOwner(i), provider)], OffboardKeys(i)]
    case MigrateSchema(name) => [[name]]
    case MarkRevoked(f) => [[RevokeKey(f.provider, digest(FilterScope(f)))]]
    case MarkOffboarded(i) => [[OffboardKey(i.team, i.user)]]
    case OffboardByActor(actor, user) => [OffboardKeys(actor) + [OffboardKey(actor.team, user)]]
    case OffboardEverywhere(e, user) => [EverywhereKeys(e, user)]
    case OffboardEverywhereByActor(actor, user) => [OffboardKeys(actor) + EverywhereKeys(actor.enterprise, user)]
  }

  /** Credential, then every revocation scope of its owner, then the actor's offboarding scopes. */
  function FullBatches(digest: Digest, o: Owner, i: Identity, provider: string): seq<seq<string>> {
    [[CredentialKey(o, provider)], RevokeKeys(digest, o, provider), OffboardKeys(i)]
  }

  /** Slack team ids begin with an upper-case letter. */
  predicate SlackTeam(team: string) {
    team != "" && 'A' <= team[0] <= 'Z'
  }

  predicate SlackPath(p: Path) {
    match p
    case RequestApproval(o, _, _, _) => SlackTeam(o.team)
    case ConsumeApproval(o, _, _, _, _) => SlackTeam(o.team)
    case DecideApproval(owners, _, _, _) => forall o :: o in owners ==> SlackTeam(o.team)
    case UseHandle(owners, _, _) => forall o :: o in owners ==> SlackTeam(o.team)
    case TouchCredential(o, _) => SlackTeam(o.team)
    case PurgePending(owners, _) => forall o :: o in owners ==> SlackTeam(o.team)
    case MigrateSchema(_) => true
    case MarkRevoked(_) => true
    case OffboardByActor(_, _) => true
    case OffboardEverywhere(_, _) => true
    case OffboardEverywhereByActor(_, _) => true
    case _ => SlackTeam(p.i.team)
  }

  // ---------------------------------------------------------------------------------------------
  // Discipline
  // ---------------------------------------------------------------------------------------------

  /** Every key in turn follows the ones before it: the requests the lock machine admits. */
  ghost predicate Disciplined(keys: seq<string>) {
    forall i :: 0 <= i < |keys| ==> Follows(keys[..i], keys[i])
  }

  /** What a transaction locks over its lifetime: each batch canonicalised, one after another. */
  function Acquired(batches: seq<seq<string>>): seq<string> {
    if batches == [] then []
    else Acquired(batches[..|batches| - 1]) + Canonical(batches[|batches| - 1])
  }

  predicate AllTier(keys: seq<string>, t: nat) {
    forall k :: k in keys ==> Tier(k) == t
  }

  predicate AllBelow(keys: seq<string>, t: nat) {
    forall k :: k in keys ==> Tier(k) < t
  }

  /** A batch of one tier above everything held, or of held keys only, keeps the discipline. */
  lemma BatchFollows(held: seq<string>, batch: seq<string>, t: nat)
    requires Disciplined(held)
    requires (AllTier(batch, t) && AllBelow(held, t)) || (forall k :: k in batch ==> k in held)
    ensures Disciplined(held + Canonical(batch))
  {
    hide LexLess, Tier;
    CanonicalExact(batch);
    hide Canonical;
    var b := Canonical(batch);
    var all := held + b;
    forall i | 0 <= i < |all| ensures Follows(all[..i], all[i]) {
      if i < |held| {
        assert all[..i] == held[..i];
      } else {
        assert all[i] == b[i - |held|] && all[i] in b;
        assert all[..i] == held + b[..i - |held|];
      }
    }
  }

  lemma OneBatch(a: seq<string>, t: nat)
    requires AllTier(a, t)
    ensures Disciplined(Acquired([a]))
    ensures forall k :: k in Acquired([a]) <==> k in a
  {
    CanonicalExact(a);
    BatchFollows([], a, t);
    hide Canonical;
    assert [a][..0] == [];
    assert [] + Canonical(a) == Canonical(a);
  }

  lemma TwoBatches(a: seq<string>, b: seq<string>, s: nat, t: nat)
    requires AllTier(a, s) && AllTier(b, t) && s < t
    ensures Disciplined(Acquired([a, b]))
    ensures forall k :: k in Acquired([a, b]) <==> k in a || k in b
  {
    hide Canonical, Tier;
    OneBatch(a, s);
    CanonicalExact(b);
    BatchFollows(Acquired([a]), b, t);
    assert [a, b][..1] == [a];
  }

  lemma ThreeBatches(a: seq<string>, b: seq<string>, c: seq<string>, s: nat, t: nat, u: nat)
    requires AllTier(a, s) && AllTier(b, t) && s < t
    requires (AllTier(c, u) && t < u) || (forall k :: k in c ==> k in a || k in b)
    ensures Disciplined(Acquired([a, b, c]))
  {
    hide Canonical, Tier;
    TwoBatches(a, b, s, t);
    BatchFollows(Acquired([a, b]), c, u);
    assert [a, b, c][..2] == [a, b];
  }

  lemma CredentialTier(o: Owner, provider: string)
    requires SlackTeam(o.team)
    ensures Tier(CredentialKey(o, provider)) == 0
  {
    assert CredentialKey(o, provider)[0] == o.team[0];
  }

  lemma {:induction false} CredentialKeysTier(owners: seq<Owner>, provider: string)
    requires forall o :: o in owners ==> SlackTeam(o.team)
    ensures AllTier(CredentialKeys(owners, provider), 0)
  {
    if owners != [] {
      CredentialTier(owners[0], provider);
      CredentialKeysTier(owners[1..], provider);
    }
  }

  lemma RevokeTier(digest: Digest, o: Owner, provider: string)
    ensures AllTier(RevokeKeys(digest, o, provider), 1)
    ensures forall s :: Tier(RevokeKey(provider, s)) == 1
  {
    forall s ensures Tier(RevokeKey(provider, s)) == 1 {
      assert RevokeKey(provider, s)[0] == 'p';
    }
  }

  lemma OffboardTier()
    ensures forall team, user :: Tier(OffboardKey(team, user)) == 2
    ensures forall scope, user :: Tier(ScopeLockKey(scope, user)) == 2
  {
    forall team, user ensures Tier(OffboardKey(team, user)) == 2 {
      assert OffboardKey(team, user)[0] == 'o';
    }
    forall scope, user ensures Tier(ScopeLockKey(scope, user)) == 2 {
      assert ScopeLockKey(scope, user)[0] == 'o';
    }
  }

  /** A member's own disconnect marker is one of the scope locks already held. */
  lemma DisconnectReenters(digest: Digest, i: Identity, provider: string)
    ensures RevokeKey(provider, digest(FilterScope(Filter(provider, Some(i.team), Some(i.user), None))))
      in RevokeKeys(digest, UserOwner(i), provider)
  {
    assert OwnerScopes(UserOwner(i))[3] == ["team-user", i.team, i.user];
  }

  /** Every one of these transactions keeps the lock discipline, nested re-entry included. */
  lemma EveryPathIsDisciplined(digest: Digest, p: Path)
    requires SlackPath(p)
    ensures Disciplined(Acquired(Batches(digest, p)))
  {
    hide Tier, CredentialKey, RevokeKey, ScopeLockKey, OffboardKey, Acquired, Disciplined, OwnerScopeKeys;
    match p
    case BeginConsent(_, _) => FencePaths(digest, p);
    case WriteUserCredential(i, provider) => FullStack(digest, UserOwner(i), i, provider);
    case IssueUserSetup(i, provider) => FullStack(digest, UserOwner(i), i, provider);
    case ConfigureChannel(i, c, provider) => FullStack(digest, ChannelOwner(i.team, c), i, provider);
    case IssueChannelSetup(i, c, provider) => FullStack(digest, ChannelOwner(i.team, c), i, provider);
    case DisconnectChannel(i, c, provider) => FullStack(digest, ChannelOwner(i.team, c), i, provider);
    case WriteChannelCredential(_, _, _) => CredentialPaths(digest, p);
    case SetChannelIdentity(_, _, _) => CredentialPaths(digest, p);
    case ConfigureTools(_, _, _) => CredentialPaths(digest, p);
    case TouchCredential(_, _) => CredentialPaths(digest, p);
    case PurgePending(_, _) => CredentialPaths(digest, p);
    case ClaimDisconnect(_, _) => CredentialPaths(digest, p);
    case RequestApproval(_, _, _, _) => ApprovalPaths(digest, p);
    case ConsumeApproval(_, _, _, _, _) => ApprovalPaths(digest, p);
    case DecideApproval(_, _, _, _) => ApprovalPaths(digest, p);
    case UseHandle(_, _, _) => ApprovalPaths(digest, p);
    case _ => FencePaths(digest, p);
  }

  lemma CredentialPaths(digest: Digest, p: Path)
    requires SlackPath(p)
    requires p.WriteChannelCredential? || p.SetChannelIdentity? || p.ConfigureTools? || p.TouchCredential? || p.PurgePending? || p.ClaimDisconnect?
    ensures Disciplined(Acquired(Batches(digest, p)))
  {
    hide Tier, CredentialKey, RevokeKey, ScopeLockKey, OffboardKey, Acquired, Disciplined, OwnerScopeKeys;
    OffboardTier();
    match p
    case WriteChannelCredential(i, c, provider) =>
      var o := ChannelOwner(i.team, c);
      CredentialTier(o, provider);
      RevokeTier(digest, o, provider);
      TwoBatches([CredentialKey(o, provider)], RevokeKeys(digest, o, provider), 0, 1);
    case SetChannelIdentity(i, c, provider) =>
      var o := ChannelOwner(i.team, c);
      CredentialTier(o, provider);
      ThreeBatches([CredentialKey(o, provider)], OffboardKeys(i), [CredentialKey(o, provider)], 0, 2, 2);
    case ConfigureTools(i, c, providers) =>
      ToolKeysTier(i.team, c, providers);
      TwoBatches(ToolKeys(i.team, c, providers), OffboardKeys(i), 0, 2);
    case TouchCredential(o, provider) =>
      CredentialTier(o, provider);
      OneBatch([CredentialKey(o, provider)], 0);
    case PurgePending(owners, provider) =>
      CredentialKeysTier(owners, provider);
      OneBatch(CredentialKeys(owners, provider), 0);
    case ClaimDisconnect(i, provider) =>
      CredentialTier(UserOwner(i), provider);
      TwoBatches([CredentialKey(UserOwner(i), provider)], OffboardKeys(i), 0, 2);
  }

  lemma ApprovalPaths(digest: Digest, p: Path)
    requires SlackPath(p) && (p.RequestApproval? || p.ConsumeApproval? || p.DecideApproval? || p.UseHandle?)
    ensures Disciplined(Acquired(Batches(digest, p)))
  {
    hide Tier, CredentialKey, ScopeLockKey, OffboardKey, Acquired, Disciplined;
    OffboardTier();
    match p
    case RequestApproval(o, c, provider, requester) =>
      ApprovalScopesTier(o, c, provider);
      TwoBatches(ApprovalScopes(o, c, provider), OffboardKeys(requester), 0, 2);
    case ConsumeApproval(o, c, provider, requester, member) =>
      ApprovalScopesTier(o, c, provider);
      ThreeBatches(ApprovalScopes(o, c, provider), OffboardKeys(requester) + MemberKeys(member), OffboardKeys(requester), 0, 2, 2);
    case DecideApproval(owners, provider, actor, requester) =>
      CredentialKeysTier(owners, provider);
      TwoBatches(CredentialKeys(owners, provider), OffboardKeys(actor) + OffboardKeys(requester), 0, 2);
    case UseHandle(owners, provider, actor) =>
      CredentialKeysTier(owners, provider);
      TwoBatches(CredentialKeys(owners, provider), OffboardKeys(actor), 0, 2);
  }

  lemma FencePaths(digest: Digest, p: Path)
    requires p.BeginConsent? || p.PrepareDisconnect? || p.MigrateSchema? || p.MarkRevoked? || p.MarkOffboarded? || p.OffboardByActor?
      || p.OffboardEverywhere? || p.OffboardEverywhereByActor?
    ensures Disciplined(Acquired(Batches(digest, p)))
  {
    hide Tier, RevokeKey, ScopeLockKey, OffboardKey, Acquired, Disciplined, OwnerScopeKeys;
    OffboardTier();
    if p.BeginConsent? {
      RevokeTier(digest, UserOwner(p.i), p.provider);
      TwoBatches(RevokeKeys(digest, UserOwner(p.i), p.provider), OffboardKeys(p.i), 1, 2);
    } else if p.PrepareDisconnect? {
      RevokeTier(digest, UserOwner(p.i), p.provider);
      DisconnectReenters(digest, p.i, p.provider);
      ThreeBatches(RevokeKeys(digest, UserOwner(p.i), p.provider), OffboardKeys(p.i), Batches(digest, p)[2], 1, 2, 2);
    } else if p.MigrateSchema? {
      OneBatch([p.schemaName], Tier(p.schemaName));
    } else if p.MarkRevoked? {
      RevokeTier(digest, ChannelOwner("", ""), p.filter.provider);
      OneBatch(Batches(digest, p)[0], 1);
    } else {
      OneBatch(Batches(digest, p)[0], 2);
    }
  }

  lemma {:induction false} ToolKeysTier(team: string, channel: string, providers: seq<string>)
    requires SlackTeam(team)
    ensures AllTier(ToolKeys(team, channel, providers), 0)
  {
    if providers != [] {
      CredentialTier(ChannelOwner(team, channel), providers[0]);
      ToolKeysTier(team, channel, providers[1..]);
    }
  }

  lemma FullStack(digest: Digest, o: Owner, i: Identity, provider: string)
    requires SlackTeam(o.team)
    ensures Disciplined(Acquired([[CredentialKey(o, provider)], RevokeKeys(digest, o, provider), OffboardKeys(i)]))
  {
    hide Tier, CredentialKey, RevokeKey, ScopeLockKey, OffboardKey, Acquired, Disciplined, OwnerScopeKeys;
    OffboardTier();
    CredentialTier(o, provider);
    RevokeTier(digest, o, provider);
    ThreeBatches([CredentialKey(o, provider)], RevokeKeys(digest, o, provider), OffboardKeys(i), 0, 1, 2);
  }

  lemma ApprovalScopesTier(o: Owner, c: Option<string>, provider: string)
    requires SlackTeam(o.team)
    ensures AllTier(ApprovalScopes(o, c, provider), 0)
  {
    hide Tier;
    CredentialTier(o, provider);
    if c.Some? {
      CredentialTier(ChannelOwner(o.team, c.value), provider);
    }
  }

  // ---------------------------------------------------------------------------------------------
  // Runs of these transactions
  // ---------------------------------------------------------------------------------------------

  /** What the transaction `id` locks over its lifetime, in order. */
  type Plans = nat -> Path

  function Plan(digest: Digest, paths: Plans, id: nat): seq<string> {
    Acquired(Batches(digest, paths(id)))
  }

  /** A lock table that knows no discipline: each transaction asks for the next key of its own path, or stops
      early, and a slot is granted when no other transaction holds it. */
  ghost predicate PathStep(h: Hash, digest: Digest, paths: Plans, s: System, step: Step) {
    match step
    case Begin(id) => id !in s
    case Request(id, k) =>
      && id in s && s[id].want.None? && |s[id].held| < |Plan(digest, paths, id)|
      && k == Plan(digest, paths, id)[|s[id].held|]
    case Grant(id) => id in s && s[id].want.Some? && Free(h, s, id, h(s[id].want.value))
    case End(id) => id in s
  }

  ghost predicate PathRun(h: Hash, digest: Digest, paths: Plans, r: Run) {
    && |r.states| == |r.steps| + 1 && r.states[0] == map[]
    && forall i: nat :: i < |r.steps| ==>
         PathStep(h, digest, paths, r.states[i], r.steps[i]) && r.states[i + 1] == Exec(r.states[i], r.steps[i])
  }

  /** Each transaction holds a prefix of its plan and wants the key after it. */
  ghost predicate OnPlan(digest: Digest, paths: Plans, s: System) {
    forall id :: id in s ==> (
      && s[id].held <= Plan(digest, paths, id)
      && (s[id].want.Some? ==> |s[id].held| < |Plan(digest, paths, id)| && s[id].want.value == Plan(digest, paths, id)[|s[id].held|]))
  }

  lemma StepKeepsPlan(h: Hash, digest: Digest, paths: Plans, s: System, step: Step)
    requires OnPlan(digest, paths, s) && PathStep(h, digest, paths, s, step)
    ensures OnPlan(digest, paths, Exec(s, step))
  {
    hide Plan, Free;
  }

  lemma {:induction false} RunOnPlan(h: Hash, digest: Digest, paths: Plans, r: Run, i: nat)
    requires PathRun(h, digest, paths, r) && i <= |r.steps|
    ensures OnPlan(digest, paths, r.states[i])
  {
    hide OnPlan, Exec;
    if i == 0 {
      NobodyOnPlan(digest, paths, r.states[0]);
    } else {
      RunOnPlan(h, digest, paths, r, i - 1);
      StepKeepsPlan(h, digest, paths, r.states[i - 1], r.steps[i - 1]);
    }
  }

  lemma NobodyOnPlan(digest: Digest, paths: Plans, s: System)
    requires s == map[]
    ensures OnPlan(digest, paths, s)
  {
  }

  /** Every key of a listed plan may be asked for: it follows what is held. */
  lemma PlanFollows(digest: Digest, paths: Plans, id: nat, held: seq<string>)
    requires SlackPath(paths(id)) && held <= Plan(digest, paths, id) && |held| < |Plan(digest, paths, id)|
    ensures Follows(held, Plan(digest, paths, id)[|held|])
  {
    hide SlackPath, Batches, Acquired, Follows;
    EveryPathIsDisciplined(digest, paths(id));
    assert held == Plan(digest, paths, id)[..|held|];
  }

  ghost predicate Covers(digest: Digest, paths: Plans, keys: set<string>) {
    forall id: nat, k :: k in Plan(digest, paths, id) ==> k in keys
  }

  /** A run in which every transaction acquires the batches of one listed path, in order and with no other
      restraint, is a disciplined run of the lock machine. */
  lemma PathRunIsDisciplined(h: Hash, digest: Digest, paths: Plans, keys: set<string>, r: Run)
    requires PathRun(h, digest, paths, r) && Covers(digest, paths, keys) && forall id: nat :: SlackPath(paths(id))
    ensures ValidRun(h, keys, r)
  {
    hide Plan, Free, Follows, SlackPath;
    forall i: nat | i < |r.steps| ensures StepOk(h, keys, r, i) {
      RunOnPlan(h, digest, paths, r, i);
      var s, step := r.states[i], r.steps[i];
      assert PathStep(h, digest, paths, s, step);
      if step.Request? {
        PlanFollows(digest, paths, step.id, s[step.id].held);
        assert step.key in Plan(digest, paths, step.id);
      }
    }
  }

  /** So these transactions never wait for each other in a circle, in any interleaving and at any instant, when
      colliding keys are intervals of the order; and when all of them wait, one can be granted. */
  lemma PathsNeverDeadlock(h: Hash, digest: Digest, paths: Plans, keys: set<string>, r: Run, i: nat, c: seq<nat>)
    requires PathRun(h, digest, paths, r) && Covers(digest, paths, keys) && forall id: nat :: SlackPath(paths(id))
    requires ConvexSlots(h, keys) && i <= |r.steps|
    ensures !WaitCycle(h, r.states[i], c)
    ensures r.states[i] != map[] && (forall a :: a in r.states[i] ==> r.states[i][a].want.Some?) ==>
      exists a :: Grantable(h, r.states[i], a)
  {
    hide PathRun, Covers, SlackPath, ConvexSlots, Inv, WaitCycle;
    PathRunIsDisciplined(h, digest, paths, keys, r);
    RunInv(h, keys, r, i);
    NoCycle(h, keys, r.states[i], c);
    if r.states[i] != map[] && forall a :: a in r.states[i] ==> r.states[i][a].want.Some? {
      SomeoneProceeds(h, keys, r, i);
    }
  }
}
