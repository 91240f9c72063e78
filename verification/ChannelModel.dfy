/** Channel-owned credentials as one shared store: setup, identity change and shared disconnect, each one
    transaction under the credential, provisioning-revoke and offboard locks
    (src/core/channelCredential.ts, src/core/channelConfig.ts, the request half of src/core/provisioning.ts). */
module ChannelModel {
  import opened Base
  import opened Fences

  /** A stored channel credential and the clock sample that stamped its generation. */
  datatype Credential = Credential(generation: Id, generationAt: int)

  /** An outstanding setup request: one per (tuple, member). */
  datatype SetupRequest = SetupRequest(id: Id, createdAt: int, expiresAt: int)

  datatype IdentityAudit = IdentityAudit(actor: string, tuple: Tuple, actsAs: ActsAs)

  datatype Tables = Tables(
    now: int,
    minted: set<Id>,
    stored: map<Tuple, Credential>,                  // connection, channel-owned
    actsAs: map<Tuple, ActsAs>,                      // channel_config
    requests: map<(Tuple, string), SetupRequest>,    // channel_provisioning_request
    changed: map<Tuple, int>,                        // channel_interaction_tombstone
    tombs: Tombstones,
    audit: seq<IdentityAudit>)                       // 'config' rows about channel identity

  function ActingAs(t: Tables, c: Tuple): ActsAs {
    if c in t.actsAs then t.actsAs[c] else Person
  }

  /** Fence the tuple at the current instant and drop its outstanding setup requests. */
  function Purge(t: Tables, c: Tuple): (t': Tables)
    ensures t' == t.(changed := t'.changed, requests := t'.requests)
  {
    t.(changed := Raise(t.changed, c, t.now), requests := map k | k in t.requests && k.0 != c :: t.requests[k])
  }

  /** A credential delete takes its satellites with it, but only when a row existed. */
  function DeleteCredential(t: Tables, c: Tuple): Tables {
    if c in t.stored then Purge(t.(stored := t.stored - {c}), c) else t
  }

  function WriteIdentity(t: Tables, c: Tuple, who: ActsAs): Tables {
    t.(actsAs := t.actsAs[c := who])
  }

  function Audited(t: Tables, actor: Identity, c: Tuple, who: ActsAs): Tables {
    t.(audit := t.audit + [IdentityAudit(actor.user, c, who)])
  }

  /** The three tombstone kinds that stop a setup; equality blocks. */
  predicate SetupBlocked(digest: Digest, t: Tables, actor: Identity, c: Tuple, issuedAt: int) {
    || Blocks(LatestRevocation(digest, t.tombs, ChannelOwner(c.team, c.channel), c.provider), issuedAt)
    || Blocks(LatestOffboard(t.tombs, actor), issuedAt)
    || Blocks(Lookup(t.changed, c), issuedAt)
  }

  // ---------------------------------------------------------------------------------------------
  // Setup requests
  // ---------------------------------------------------------------------------------------------

  /** Mint or reuse one live request. */
  function Issue(digest: Digest, t: Tables, actor: Identity, c: Tuple, issuedAt: int, newId: Id): (r: (Tables, Option<Id>))
    ensures r.0 == t.(requests := r.0.requests, minted := r.0.minted) && t.minted <= r.0.minted
  {
    var k := (c, actor.user);
    if SetupBlocked(digest, t, actor, c, issuedAt) || issuedAt + PENDING_TTL <= t.now then (t, None)
    else if k in t.requests && t.requests[k].expiresAt > t.now && !SetupBlocked(digest, t, actor, c, t.requests[k].createdAt)
    then (t, Some(t.requests[k].id))
    else (t.(requests := t.requests[k := SetupRequest(newId, issuedAt, issuedAt + PENDING_TTL)], minted := t.minted + {newId}), Some(newId))
  }

  /** A direct server-trusted receipt, or a request that the setup transaction consumes. */
  datatype Issuance = Direct(at: int) | FromRequest(id: Id)

  /** DELETE ... RETURNING created_at; nothing for a wrong, spent or expired request. */
  function Consume(t: Tables, actor: Identity, c: Tuple, issuance: Issuance): (r: (Tables, Option<int>))
    ensures r.0 == t.(requests := r.0.requests)
  {
    match issuance
    case Direct(at) => (t, Some(at))
    case FromRequest(id) =>
      var k := (c, actor.user);
      if k in t.requests && t.requests[k].id == id && t.requests[k].expiresAt > t.now
      then (t.(requests := t.requests - {k}), Some(t.requests[k].createdAt))
      else (t, None)
  }

  // ---------------------------------------------------------------------------------------------
  // The three mutations
  // ---------------------------------------------------------------------------------------------

  /** `configureChannelCredential`. A refused setup still spends its request. The write's own satellite
      purge and the final one coincide. */
  function Configure(digest: Digest, t: Tables, actor: Identity, c: Tuple, issuance: Issuance, newId: Id): (Tables, bool) {
    var (t1, issuedAt) := Consume(t, actor, c, issuance);
    if issuedAt.None? || SetupBlocked(digest, t1, actor, c, issuedAt.value) then (t1, false)
    else
      var t2 := t1.(stored := t1.stored[c := Credential(newId, t.now)], minted := t1.minted + {newId});
      (Audited(Purge(WriteIdentity(t2, c, SharedChannel), c), actor, c, SharedChannel), true)
  }

  /** `setChannelCredentialIdentity`. */
  function SetIdentity(t: Tables, actor: Identity, c: Tuple, who: ActsAs, issuedAt: int): (Tables, bool) {
    if !Current(t.tombs, actor, issuedAt) then (t, false)
    else
      var t1 := if who == Person then DeleteCredential(t, c) else t;
      var t2 := WriteIdentity(t1, c, who);
      (Audited(if ActingAs(t, c) != who then Purge(t2, c) else t2, actor, c, who), true)
  }

  datatype Disconnected = StaleRequest | NotShared | Missing | Removed

  /** `disconnectChannelShared`, up to its commit. */
  function Disconnect(t: Tables, actor: Identity, c: Tuple, issuedAt: int): (Tables, Disconnected) {
    if !Current(t.tombs, actor, issuedAt) then (t, StaleRequest)
    else if ActingAs(t, c) != SharedChannel then (t, NotShared)
    else if c in t.stored && t.stored[c].generationAt >= issuedAt then (t, StaleRequest)
    else (Audited(Purge(WriteIdentity(DeleteCredential(t, c), c, Person), c), actor, c, Person), if c in t.stored then Removed else Missing)
  }

  // ---------------------------------------------------------------------------------------------
  // The machine
  // ---------------------------------------------------------------------------------------------

  datatype Op =
    | Tick(d: nat)
    | IssueOp(actor: Identity, tuple: Tuple, issuedAt: int, newId: Id)
    | ConfigureOp(actor: Identity, tuple: Tuple, issuance: Issuance, newId: Id)
    | SetIdentityOp(actor: Identity, tuple: Tuple, who: ActsAs, issuedAt: int)
    | DisconnectOp(actor: Identity, tuple: Tuple, issuedAt: int)
    | DropCredential(tuple: Tuple)              // break-glass or expiry: the row goes, the identity stays
    | FallbackDelete(tuple: Tuple)              // a delete whose satellite cleanup failed: the row alone goes
    | GovernanceChange(tuple: Tuple)            // a tool was enabled or disabled in the channel
    | RevokeRequests(team: string, user: string)
    | SweepRequests
    | FenceTx(op: FenceOp)

  datatype Outcome = Silent | Issued(request: Option<Id>) | Configured(ok: bool) | IdentitySet(ok: bool) | DisconnectedAs(status: Disconnected)

  function Apply(digest: Digest, t: Tables, op: Op): (Tables, Outcome) {
    match op
    case Tick(d) => (t.(now := t.now + d), Silent)
    case IssueOp(a, c, at, newId) => var r := Issue(digest, t, a, c, at, newId); (r.0, Issued(r.1))
    case ConfigureOp(a, c, issuance, newId) => var r := Configure(digest, t, a, c, issuance, newId); (r.0, Configured(r.1))
    case SetIdentityOp(a, c, who, at) => var r := SetIdentity(t, a, c, who, at); (r.0, IdentitySet(r.1))
    case DisconnectOp(a, c, at) => var r := Disconnect(t, a, c, at); (r.0, DisconnectedAs(r.1))
    case DropCredential(c) => (DeleteCredential(t, c), Silent)
    case FallbackDelete(c) => (t.(stored := t.stored - {c}), Silent)
    case GovernanceChange(c) => (Purge(t, c), Silent)
    case RevokeRequests(team, user) =>
      (t.(requests := map k | k in t.requests && !(k.0.team == team && k.1 == user) :: t.requests[k]), Silent)
    case SweepRequests => (t.(requests := map k | k in t.requests && !(t.requests[k].expiresAt < t.now) :: t.requests[k]), Silent)
    case FenceTx(f) => (t.(tombs := FenceStep(digest, t.tombs, t.now, f).0), Silent)
  }

  /** New ids are fresh, a member acts in their own team, and receipts are never in the future. */
  predicate Enabled(t: Tables, op: Op) {
    match op
    case IssueOp(a, c, at, newId) => newId !in t.minted && c.team == a.team && at <= t.now
    case ConfigureOp(a, c, issuance, newId) => newId !in t.minted && c.team == a.team && (issuance.Direct? ==> issuance.at <= t.now)
    case SetIdentityOp(a, c, _, at) => c.team == a.team && at <= t.now
    case DisconnectOp(a, c, at) => c.team == a.team && at <= t.now
    case _ => true
  }

  predicate Init(t: Tables) {
    t.minted == {} && t.stored == map[] && t.actsAs == map[] && t.requests == map[] && t.changed == map[] && t.audit == []
  }

  // ---------------------------------------------------------------------------------------------
  // What every reachable store satisfies
  // ---------------------------------------------------------------------------------------------

  /** What the audit trail last recorded about a tuple's identity. */
  function LastAudited(audit: seq<IdentityAudit>, c: Tuple): ActsAs {
    if audit == [] then Person
    else if audit[|audit| - 1].tuple == c then audit[|audit| - 1].actsAs
    else LastAudited(audit[..|audit| - 1], c)
  }

  ghost predicate StoredOk(t: Tables) {
    forall c :: c in t.stored ==>
      && ActingAs(t, c) == SharedChannel
      && t.stored[c].generation in t.minted
      && c in t.changed && t.stored[c].generationAt <= t.changed[c]
  }

  ghost predicate RequestsOk(t: Tables) {
    && (forall k :: k in t.requests ==> (
         && t.requests[k].id in t.minted && t.requests[k].createdAt <= t.now
         && t.requests[k].expiresAt == t.requests[k].createdAt + PENDING_TTL))
    && (forall k, l :: k in t.requests && l in t.requests && t.requests[k].id == t.requests[l].id ==> k == l)
  }

  ghost predicate Inv(t: Tables) {
    && StoredOk(t) && RequestsOk(t)
    && (forall c :: c in t.changed ==> t.changed[c] <= t.now)
    && AuditOk(t)
  }

  ghost predicate AuditOk(t: Tables) {
    forall c :: LastAudited(t.audit, c) == ActingAs(t, c)
  }

  ghost predicate SubRequests(a: map<(Tuple, string), SetupRequest>, b: map<(Tuple, string), SetupRequest>) {
    forall k :: k in a ==> k in b && a[k] == b[k]
  }

  /** What a setup commits. */
  lemma ConfigureShape(digest: Digest, t: Tables, actor: Identity, c: Tuple, issuance: Issuance, newId: Id)
    ensures var (t', ok) := Configure(digest, t, actor, c, issuance, newId);
      && t' == (if ok then t.(stored := t.stored[c := Credential(newId, t.now)], minted := t.minted + {newId},
                  actsAs := t.actsAs[c := SharedChannel], changed := Raise(t.changed, c, t.now), requests := t'.requests,
                  audit := t.audit + [IdentityAudit(actor.user, c, SharedChannel)])
               else t.(requests := t'.requests))
      && SubRequests(t'.requests, t.requests)
      && (ok ==> forall k :: k in t'.requests ==> k.0 != c)
  {
    hide SetupBlocked;
  }

  /** What an identity change commits, given that a person channel stores no credential. */
  lemma SetIdentityShape(t: Tables, actor: Identity, c: Tuple, who: ActsAs, issuedAt: int)
    requires StoredOk(t)
    ensures var (t', ok) := SetIdentity(t, actor, c, who, issuedAt);
      && t' == (if ok then t.(stored := if who == Person then t.stored - {c} else t.stored, actsAs := t.actsAs[c := who],
                  changed := if ActingAs(t, c) != who then Raise(t.changed, c, t.now) else t.changed, requests := t'.requests,
                  audit := t.audit + [IdentityAudit(actor.user, c, who)])
               else t)
      && SubRequests(t'.requests, t.requests)
      && (ok && ActingAs(t, c) != who ==> forall k :: k in t'.requests ==> k.0 != c)
  {
    hide Current;
    if c !in t.stored {
      assert t.stored - {c} == t.stored;
    }
  }

  /** What a shared disconnect commits. */
  lemma DisconnectShape(t: Tables, actor: Identity, c: Tuple, issuedAt: int)
    ensures var (t', d) := Disconnect(t, actor, c, issuedAt);
      && t' == (if d.Missing? || d.Removed? then t.(stored := t.stored - {c}, actsAs := t.actsAs[c := Person],
                  changed := Raise(t.changed, c, t.now), requests := t'.requests,
                  audit := t.audit + [IdentityAudit(actor.user, c, Person)])
               else t)
      && SubRequests(t'.requests, t.requests)
      && (d.Missing? || d.Removed? ==> forall k :: k in t'.requests ==> k.0 != c)
  {
    hide Current;
    if c !in t.stored {
      assert t.stored - {c} == t.stored;
    }
  }

  lemma StepKeepsStored(digest: Digest, t: Tables, op: Op)
    requires Inv(t) && Enabled(t, op)
    ensures StoredOk(Apply(digest, t, op).0)
  {
    hide Configure, SetIdentity, Disconnect, FenceStep, LastAudited, RequestsOk, SubRequests, Issue;
    match op
    case ConfigureOp(a, c, issuance, newId) => ConfigureShape(digest, t, a, c, issuance, newId);
    case SetIdentityOp(a, c, who, at) => SetIdentityShape(t, a, c, who, at);
    case DisconnectOp(a, c, at) => DisconnectShape(t, a, c, at);
    case _ =>
  }

  lemma StepKeepsRequests(digest: Digest, t: Tables, op: Op)
    requires Inv(t) && Enabled(t, op)
    ensures RequestsOk(Apply(digest, t, op).0)
  {
    hide Configure, SetIdentity, Disconnect, FenceStep, LastAudited, StoredOk, SetupBlocked;
    match op
    case ConfigureOp(a, c, issuance, newId) => ConfigureShape(digest, t, a, c, issuance, newId);
    case SetIdentityOp(a, c, who, at) => SetIdentityShape(t, a, c, who, at);
    case DisconnectOp(a, c, at) => DisconnectShape(t, a, c, at);
    case _ =>
  }

  lemma AuditedLast(audit: seq<IdentityAudit>, e: IdentityAudit, c: Tuple)
    ensures LastAudited(audit + [e], c) == if e.tuple == c then e.actsAs else LastAudited(audit, c)
  {
    assert (audit + [e])[..|audit|] == audit;
  }

  lemma StepKeepsAudit(digest: Digest, t: Tables, op: Op, c: Tuple)
    requires Inv(t) && Enabled(t, op)
    ensures var t' := Apply(digest, t, op).0; LastAudited(t'.audit, c) == ActingAs(t', c)
  {
    hide Configure, SetIdentity, Disconnect, FenceStep, LastAudited, RequestsOk, SubRequests, Issue;
    match op
    case ConfigureOp(a, d, issuance, newId) =>
      ConfigureShape(digest, t, a, d, issuance, newId);
      AuditedLast(t.audit, IdentityAudit(a.user, d, SharedChannel), c);
    case SetIdentityOp(a, d, who, at) =>
      SetIdentityShape(t, a, d, who, at);
      AuditedLast(t.audit, IdentityAudit(a.user, d, who), c);
    case DisconnectOp(a, d, at) =>
      DisconnectShape(t, a, d, at);
      AuditedLast(t.audit, IdentityAudit(a.user, d, Person), c);
    case _ =>
  }

  /** Clock, ids, fences and the per-tuple change stamp only grow. */
  ghost predicate Grows(t: Tables, t': Tables) {
    && t.now <= t'.now && t.minted <= t'.minted && Advances(t.tombs, t'.tombs)
    && (forall c :: c in t.changed ==> c in t'.changed && t.changed[c] <= t'.changed[c])
  }

  lemma StepGrows(digest: Digest, t: Tables, op: Op)
    requires StoredOk(t) && Enabled(t, op)
    ensures Grows(t, Apply(digest, t, op).0)
    ensures (forall c :: c in t.changed ==> t.changed[c] <= t.now) ==>
      var t' := Apply(digest, t, op).0; forall c :: c in t'.changed ==> t'.changed[c] <= t'.now
  {
    hide Configure, SetIdentity, Disconnect, FenceStep, StoredOk, SubRequests;
    match op
    case ConfigureOp(a, c, issuance, newId) => ConfigureShape(digest, t, a, c, issuance, newId);
    case SetIdentityOp(a, c, who, at) => SetIdentityShape(t, a, c, who, at);
    case DisconnectOp(a, c, at) => DisconnectShape(t, a, c, at);
    case FenceTx(f) => FenceStepAdvances(digest, t.tombs, t.now, f);
    case _ =>
  }

  lemma StepKeepsInv(digest: Digest, t: Tables, op: Op)
    requires Inv(t) && Enabled(t, op)
    ensures Inv(Apply(digest, t, op).0)
  {
    StepKeepsStored(digest, t, op);
    StepKeepsRequests(digest, t, op);
    StepGrows(digest, t, op);
    forall c ensures var t' := Apply(digest, t, op).0; LastAudited(t'.audit, c) == ActingAs(t', c) {
      StepKeepsAudit(digest, t, op, c);
    }
    hide Apply, StoredOk, RequestsOk, Enabled;
  }
}
