/** Approvals and worker sessions as one shared store: what each committed transaction of
    src/core/approval.ts, src/core/delegation.ts and the decision handler of src/adapters/bolt.ts does to
    its tables, at one clock sample. */
module ApprovalModel {
  import opened Base
  import opened Fences
  import opened ActionKey

  // ---------------------------------------------------------------------------------------------
  // Tables
  // ---------------------------------------------------------------------------------------------

  datatype Status = Pending | Granted | Denied

  datatype Row = Row(
    key: ApprovalKey,
    actionKey: string,
    status: Status,
    approvedBy: Option<string>,
    createdAt: int,
    expiresAt: int)

  /** The conversation one worker session is scoped to; an absent thread is the empty string. */
  datatype SessionScope = SessionScope(team: string, channel: string, thread: string, worker: string, provider: string)

  datatype Binding = Binding(member: string, credential: Id, at: int)

  datatype Session = Session(id: Id, binding: Option<Binding>, expiresAt: int)

  /** Why a `denied` row about approvals was recorded. */
  datatype DenialReason = ApprovalDenied | NotApprover | ApprovalExpired

  datatype AuditAction = RequestedAudit | ApprovedAudit | DeniedAudit(reason: DenialReason) | ConsumedAudit

  /** An audit row is attributed to one user; `actor` is the approver, or the sweeper, when another acted. */
  datatype AuditRow = AuditRow(
    action: AuditAction,
    team: string,
    user: string,
    provider: string,
    fingerprint: Option<string>,
    actor: Option<string>)

  const SWEEPER: string := "system"

  /** What a fresh id was minted for. */
  datatype Mint = ForApproval | ForSession | ForCredential

  datatype Tables = Tables(
    now: int,
    minted: map<Id, Mint>,
    rows: map<Id, Row>,                       // approval_request, by primary key
    sessions: map<SessionScope, Session>,     // worker_session, by its unique scope
    live: map<(Owner, string), Id>,           // connection: live generation per (owner, provider)
    actsAs: map<Tuple, ActsAs>,               // channel_config
    tools: map<Tuple, bool>,                  // channel_tool
    tombs: Tombstones,
    audit: seq<AuditRow>,
    owed: map<Id, Row>)                       // swept rows whose expiry is not yet audited

  // ---------------------------------------------------------------------------------------------
  // Process configuration: immutable for one process
  // ---------------------------------------------------------------------------------------------

  datatype Approver = SelfOnly | OtherMember

  datatype ApprovalRule = ApprovalRule(approver: Option<Approver>, ttl: nat)

  datatype Config = Config(
    brokered: set<string>,
    rules: map<string, ApprovalRule>,
    needsApproval: (string, string, string) -> bool,
    policy: (string, Option<string>) -> bool,
    digest: Digest)

  /** The provider is brokered and its current approval rule covers this method and path. */
  predicate Covered(cfg: Config, k: ApprovalKey) {
    k.provider in cfg.brokered && k.provider in cfg.rules && cfg.needsApproval(k.provider, k.method_, k.path)
  }

  // ---------------------------------------------------------------------------------------------
  // Who decides
  // ---------------------------------------------------------------------------------------------

  function EffectiveApprover(approver: Option<Approver>, kind: OwnerKind, governable: Option<string>): Approver {
    var rule := match approver
      case Some(a) => a
      case None => if kind == ChannelOwned then OtherMember else SelfOnly;
    if rule == OtherMember && governable.None? then SelfOnly else rule
  }

  datatype Delegation = Ordinary | Unbound | Bound

  function DelegationOf(k: ApprovalKey): Delegation {
    if !k.delegated then Ordinary
    else if k.ownerKind == UserOwned && k.ownerId == k.user then Unbound
    else Bound
  }

  function Decider(approver: Option<Approver>, k: ApprovalKey): (Approver, string) {
    match DelegationOf(k)
    case Unbound => (OtherMember, k.user)
    case Bound => (SelfOnly, k.ownerId)
    case Ordinary => (EffectiveApprover(approver, k.ownerKind, k.governable), k.user)
  }

  // ---------------------------------------------------------------------------------------------
  // Governance scope and credential use
  // ---------------------------------------------------------------------------------------------

  predicate StartsWith(s: string, c: char) {
    |s| > 0 && s[0] == c
  }

  /** `governanceChannelOf`: null in a personal conversation, else the channel. */
  function GovernanceChannel(channel: Option<string>, mpim: bool): Option<string> {
    if channel.None? || StartsWith(channel.value, 'D') || (mpim && StartsWith(channel.value, 'G')) then None
    else channel
  }

  predicate GovernanceScope(channel: Option<string>, scope: Option<string>) {
    if scope.Some? then scope == channel
    else channel.None? || StartsWith(channel.value, 'D') || StartsWith(channel.value, 'G')
  }

  /** Every scope derived from a channel is accepted at the persistence boundary. It is the channel itself, except in a direct
      message, by its prefix, and in a group message, by Slack's word and the prefix: a private channel keeps its own. */
  lemma DerivedScopeAccepted(channel: Option<string>, mpim: bool)
    ensures GovernanceScope(channel, GovernanceChannel(channel, mpim))
    ensures GovernanceChannel(channel, mpim) == channel || GovernanceChannel(channel, mpim).None?
    ensures channel.Some? && channel.value != "" && channel.value[0] != 'D' && (channel.value[0] != 'G' || !mpim) ==>
      GovernanceChannel(channel, mpim) == channel
    ensures channel.Some? && channel.value != "" && (channel.value[0] == 'D' || (channel.value[0] == 'G' && mpim)) ==>
      GovernanceChannel(channel, mpim).None?
    ensures forall scope :: GovernanceScope(channel, scope) <==>
      scope == channel || scope == GovernanceChannel(channel, true) || scope == GovernanceChannel(channel, false)
  {
  }

  function LiveId(t: Tables, o: Owner, provider: string): Option<Id> {
    Lookup(t.live, (o, provider))
  }

  function ActingAs(t: Tables, c: Tuple): ActsAs {
    if c in t.actsAs then t.actsAs[c] else Person
  }

  /** Deny by default: only an explicit enabled row counts. */
  predicate ToolEnabled(t: Tables, c: Tuple) {
    c in t.tools && t.tools[c]
  }

  function ScopeOf(k: ApprovalKey, channel: string): SessionScope {
    SessionScope(k.team, channel, Column(k.thread), k.user, k.provider)
  }

  /** The live session of a scope, or none when it is absent or idled out. */
  function SessionFor(t: Tables, s: SessionScope): Option<Session> {
    if s in t.sessions && t.sessions[s].expiresAt > t.now then Some(t.sessions[s]) else None
  }

  predicate UnboundSessionLive(t: Tables, id: Id) {
    exists s :: s in t.sessions && t.sessions[s].id == id && t.sessions[s].binding.None? && t.sessions[s].expiresAt > t.now
  }

  datatype UseState = UseCurrent | UseAuthorization | UseCredential

  function UserIdentity(enterprise: Option<EnterpriseId>, k: ApprovalKey): Identity {
    Identity(enterprise, k.team, k.user)
  }

  function MemberIdentity(enterprise: Option<EnterpriseId>, k: ApprovalKey): Identity {
    Identity(enterprise, k.team, k.ownerId)
  }

  /** A delegated row's owner is decided by the authorizing member: the session must still say so. */
  function DelegatedUse(t: Tables, k: ApprovalKey, enterprise: Option<EnterpriseId>, channel: string): UseState
    requires k.delegated
  {
    var session := SessionFor(t, ScopeOf(k, channel));
    if DelegationOf(k) == Unbound then
      if session.Some? && session.value.binding.None? && session.value.id == k.credential then UseCurrent else UseCredential
    else if session.None? || session.value.binding.None? then UseAuthorization
    else
      var b := session.value.binding.value;
      if b.member != k.ownerId || b.credential != k.credential then UseAuthorization
      else if !Current(t.tombs, MemberIdentity(enterprise, k), b.at) then UseAuthorization
      else if LiveId(t, UserOwner(MemberIdentity(enterprise, k)), k.provider) == Some(k.credential) then UseCurrent
      else UseCredential
  }

  /** `credentialUseState`: the actor's receipt, policy and tool allowlist, then the exact owner and
      generation the call would use now. */
  function CredentialUse(cfg: Config, t: Tables, k: ApprovalKey, enterprise: Option<EnterpriseId>, actorIssuedAt: int): UseState {
    if !Current(t.tombs, UserIdentity(enterprise, k), actorIssuedAt) then UseAuthorization
    else if k.provider !in cfg.brokered || !cfg.policy(k.provider, k.channel) then UseAuthorization
    else if k.governable.Some? && !ToolEnabled(t, Tuple(k.team, k.governable.value, k.provider)) then UseAuthorization
    else
      var who := if k.governable.Some? then ActingAs(t, Tuple(k.team, k.governable.value, k.provider)) else Person;
      if k.delegated then
        if k.governable.None? || who != Person then UseAuthorization
        else DelegatedUse(t, k, enterprise, k.governable.value)
      else
        var owner := if who == SharedChannel then ChannelOwner(k.team, k.governable.value) else UserOwner(UserIdentity(enterprise, k));
        if owner != k.Owner() then UseAuthorization
        else if LiveId(t, owner, k.provider) == Some(k.credential) then UseCurrent else UseCredential
  }

  // ---------------------------------------------------------------------------------------------
  // Row deletions
  // ---------------------------------------------------------------------------------------------

  function Without(rows: map<Id, Row>, id: Id): map<Id, Row> {
    rows - {id}
  }

  function WithoutUser(rows: map<Id, Row>, team: string, user: string): map<Id, Row> {
    map id | id in rows && !(rows[id].key.team == team && rows[id].key.user == user) :: rows[id]
  }

  function WithoutOwner(rows: map<Id, Row>, o: Owner, provider: string): map<Id, Row> {
    map id | id in rows && !(rows[id].key.Owner() == o && rows[id].key.provider == provider) :: rows[id]
  }

  function WithoutTuple(rows: map<Id, Row>, c: Tuple): map<Id, Row> {
    map id | id in rows &&
      !(rows[id].key.team == c.team && Column(rows[id].key.channel) == c.channel && rows[id].key.provider == c.provider) :: rows[id]
  }

  /** The swept rows that owe an audit row: a retained denial was audited by its decision. */
  function Lapsed(rows: map<Id, Row>, now: int): map<Id, Row> {
    map id | id in rows && rows[id].expiresAt < now && rows[id].status != Denied :: rows[id]
  }

  function WithoutExpired(rows: map<Id, Row>, now: int): map<Id, Row> {
    map id | id in rows && !(rows[id].expiresAt < now) :: rows[id]
  }

  function WithoutTwins(rows: map<Id, Row>, actionKey: string, id: Id): map<Id, Row> {
    map i | i in rows && !(rows[i].actionKey == actionKey && i != id) :: rows[i]
  }

  function LiveSessions(sessions: map<SessionScope, Session>, now: int): map<SessionScope, Session> {
    map s | s in sessions && sessions[s].expiresAt > now :: sessions[s]
  }

  function SessionsWithoutUser(sessions: map<SessionScope, Session>, i: Identity): map<SessionScope, Session> {
    map s | s in sessions &&
      !(s.team == i.team && (s.worker == i.user || (sessions[s].binding.Some? && sessions[s].binding.value.member == i.user))) :: sessions[s]
  }

  // ---------------------------------------------------------------------------------------------
  // Worker sessions
  // ---------------------------------------------------------------------------------------------

  /** The session is the one its scope runs under now: unbound, or bound to a generation still held. */
  predicate SessionUsable(t: Tables, s: SessionScope) {
    && SessionFor(t, s).Some?
    && (t.sessions[s].binding.Some? ==>
         LiveId(t, Owner(s.team, UserOwned, t.sessions[s].binding.value.member), s.provider) == Some(t.sessions[s].binding.value.credential))
  }

  function BeginSession(t: Tables, s: SessionScope, newId: Id): Tables {
    if SessionUsable(t, s) then t
    else t.(sessions := t.sessions[s := Session(newId, None, t.now + SESSION_IDLE_TTL)], minted := t.minted[newId := ForSession])
  }

  /** No session disappears, and a binding once made is not changed. */
  ghost predicate KeepsBindings(a: map<SessionScope, Session>, b: map<SessionScope, Session>) {
    && a.Keys == b.Keys
    && forall s :: s in a ==> b[s].id == a[s].id && (a[s].binding.Some? ==> b[s].binding == a[s].binding)
  }

  function BindSession(t: Tables, id: Id, member: string, credential: Id): (r: Tables)
    ensures r == t.(sessions := r.sessions) && KeepsBindings(t.sessions, r.sessions)
  {
    t.(sessions := map s | s in t.sessions ::
      var w := t.sessions[s];
      if w.id == id && w.binding.None? && w.expiresAt > t.now
      then Session(id, Some(Binding(member, credential, t.now)), t.now + SESSION_IDLE_TTL) else w)
  }

  /** Extends the idle lifetime, never past the absolute cap from the binding click. */
  function Touched(w: Session, now: int): Session {
    w.(expiresAt := Min(now + SESSION_IDLE_TTL, (if w.binding.Some? then w.binding.value.at else now) + SESSION_MAX_TTL))
  }

  function TouchSession(t: Tables, s: SessionScope): (r: Tables)
    ensures r == t.(sessions := r.sessions) && KeepsBindings(t.sessions, r.sessions)
  {
    if SessionFor(t, s).Some? then t.(sessions := t.sessions[s := Touched(t.sessions[s], t.now)]) else t
  }

  /** The tables that approvals only read. */
  predicate SameFacts(t: Tables, t': Tables) {
    t' == t.(rows := t'.rows, sessions := t'.sessions, audit := t'.audit)
  }

  // ---------------------------------------------------------------------------------------------
  // Request
  // ---------------------------------------------------------------------------------------------

  datatype RequestResult = Created(id: Id) | Reused(id: Id) | Refused(reason: UseState) | Unrecorded

  ghost predicate HasAction(rows: map<Id, Row>, actionKey: string) {
    exists id :: id in rows && rows[id].actionKey == actionKey
  }

  ghost function RowOf(rows: map<Id, Row>, actionKey: string): (id: Id)
    requires HasAction(rows, actionKey)
    ensures id in rows && rows[id].actionKey == actionKey
  {
    var id :| id in rows && rows[id].actionKey == actionKey;
    id
  }

  /** The conflict clause: the same action's row, lapsed or denied. It compares neither the governance
      scope nor the delegated flag. */
  predicate Replaceable(row: Row, k: ApprovalKey, now: int) {
    && row.key.team == k.team && row.key.user == k.user && row.key.ownerKind == k.ownerKind && row.key.ownerId == k.ownerId
    && row.key.credential == k.credential && row.key.provider == k.provider && row.key.grant == k.grant
    && (row.key.grant == Thread || SameAction(row.key, k))
    && Column(row.key.channel) == Column(k.channel) && Column(row.key.thread) == Column(k.thread)
    && (row.expiresAt <= now || row.status == Denied)
  }

  predicate Reusable(row: Row, k: ApprovalKey, now: int) {
    MatchesRow(row.key, k) && row.status != Denied && row.expiresAt > now
  }

  function FreshRow(k: ApprovalKey, now: int): Row {
    Row(k, Selector(k), Pending, None, now, now + PENDING_TTL)
  }

  /** The columns the conflict update rewrites; `delegated` and the selected ones keep their values. */
  function Renewed(row: Row, k: ApprovalKey, now: int): Row {
    Row(row.key.(method_ := k.method_, origin := k.origin, host := k.host, path := k.path, queryHash := k.queryHash, governable := k.governable),
        row.actionKey, Pending, None, now, now + PENDING_TTL)
  }

  ghost function RequestOn(t: Tables, k: ApprovalKey, newId: Id): (Tables, RequestResult) {
    if !HasAction(t.rows, Selector(k)) then
      (t.(rows := t.rows[newId := FreshRow(k, t.now)], minted := t.minted[newId := ForApproval]), Created(newId))
    else
      var id := RowOf(t.rows, Selector(k));
      var row := t.rows[id];
      if Replaceable(row, k, t.now) then
        (t.(rows := Without(t.rows, id)[newId := Renewed(row, k, t.now)], minted := t.minted[newId := ForApproval]), Created(newId))
      else if Reusable(row, k, t.now) then (t, Reused(id))
      else (t, Unrecorded)
  }

  predicate GenerationLive(t: Tables, k: ApprovalKey) {
    if DelegationOf(k) == Unbound then UnboundSessionLive(t, k.credential)
    else LiveId(t, k.Owner(), k.provider) == Some(k.credential)
  }

  function AuditOf(action: AuditAction, k: ApprovalKey, actor: Option<string>): AuditRow {
    AuditRow(action, k.team, k.user, k.provider, Some(Selector(k)), actor)
  }

  /** The row about a click that the validator found ineligible names the clicker, not the requester. */
  function NotApproverAudit(actor: Identity, provider: string): AuditRow {
    AuditRow(DeniedAudit(NotApprover), actor.team, actor.user, provider, None, None)
  }

  /** The row about a prompt or grant that lapsed names its requester, with the sweeper as the actor. */
  function ExpiredAudit(row: Row): AuditRow {
    AuditOf(DeniedAudit(ApprovalExpired), row.key, Some(SWEEPER))
  }

  ghost function Request(cfg: Config, t: Tables, k: ApprovalKey, enterprise: Option<EnterpriseId>, issuedAt: int, newId: Id)
    : (Tables, RequestResult)
  {
    if !GenerationLive(t, k) then (t, Refused(UseCredential))
    else if !Covered(cfg, k) || CredentialUse(cfg, t, k, enterprise, issuedAt) != UseCurrent then (t, Refused(UseAuthorization))
    else if !GovernanceScope(k.channel, k.governable) then (t, Unrecorded)
    else
      var (t', r) := RequestOn(t, k, newId);
      (if r.Created? then t'.(audit := t'.audit + [AuditOf(RequestedAudit, k, None)]) else t', r)
  }

  // ---------------------------------------------------------------------------------------------
  // Decide
  // ---------------------------------------------------------------------------------------------

  /** One Approve or Deny click, with the Slack facts read before any lock is taken. */
  datatype Click = Click(
    id: Id,
    approve: bool,
    actor: Identity,
    issuedAt: int,
    atRow: bool,                 // the payload's channel and thread are the stored ones
    channelEligible: bool,
    requesterInChannel: bool,
    actorInChannel: bool,
    seenCredential: Option<Id>)  // the actor's live generation, read before the locks

  datatype Decision = Stale | RuleGone | NotEligible | NeedsConnection | ActorStale | Invalidated | IneligibleClick | Approve(expiresAt: int) | Deny

  datatype Validity = Valid | Invalid | Ineligible

  predicate PendingLive(t: Tables, id: Id) {
    id in t.rows && t.rows[id].status == Pending && t.rows[id].expiresAt > t.now
  }

  predicate ChannelFactsHold(c: Click, k: ApprovalKey) {
    k.channel.Some? && c.channelEligible && (k.ownerKind == ChannelOwned ==> c.requesterInChannel)
  }

  predicate Eligible(c: Click, k: ApprovalKey, rule: Approver) {
    if rule == OtherMember then ChannelFactsHold(c, k) && c.actor.user != k.user && c.actorInChannel
    else if DelegationOf(k) == Bound then ChannelFactsHold(c, k) && c.actor.user == k.ownerId && c.actorInChannel
    else c.actor.user == k.user
  }

  predicate Delegating(c: Click, k: ApprovalKey) {
    DelegationOf(k) == Unbound && c.approve
  }

  /** The decision's validator, run on the locked row. */
  function Validate(cfg: Config, t: Tables, c: Click, row: Row): Validity
    requires Covered(cfg, row.key)
    requires Delegating(c, row.key) ==> c.seenCredential.Some?
  {
    var k := row.key;
    var rule := Decider(cfg.rules[k.provider].approver, k).0;
    var channelBound := k.ownerKind == ChannelOwned || rule == OtherMember || DelegationOf(k) != Ordinary;
    if channelBound && !ChannelFactsHold(c, k) then Invalid
    else if CredentialUse(cfg, t, k, c.actor.enterprise, row.createdAt) != UseCurrent then Invalid
    else if Delegating(c, k) && LiveId(t, UserOwner(c.actor), k.provider) != c.seenCredential then Ineligible
    else if Eligible(c, k, rule) then Valid else Ineligible
  }

  function Rekeyed(k: ApprovalKey, member: string, credential: Id): ApprovalKey {
    k.(ownerKind := UserOwned, ownerId := member, credential := credential)
  }

  function GrantRow(t: Tables, id: Id, key: ApprovalKey, approver: string, ttl: nat): (r: Tables)
    requires id in t.rows
    ensures SameFacts(t, r)
  {
    t.(rows := t.rows[id := Row(key, Selector(key), Granted, Some(approver), t.rows[id].createdAt, t.now + ttl)],
       audit := t.audit + [AuditOf(ApprovedAudit, key, Some(approver))])
  }

  /** Bind the session first; then the member's older unspent grant for this exact action yields. */
  function ApproveUnbound(t: Tables, c: Click, ttl: nat): (r: (Tables, Decision))
    requires c.id in t.rows && c.seenCredential.Some?
    ensures SameFacts(t, r.0) && KeepsBindings(t.sessions, r.0.sessions)
    ensures r.1 == Approve(t.now + ttl) || r == (t, Stale)
  {
    var k := t.rows[c.id].key;
    if !UnboundSessionLive(t, k.credential) then (t, Stale)
    else
      var key := Rekeyed(k, c.actor.user, c.seenCredential.value);
      var t1 := BindSession(t, k.credential, c.actor.user, c.seenCredential.value);
      var t2 := t1.(rows := WithoutTwins(t1.rows, Selector(key), c.id));
      (GrantRow(t2, c.id, key, c.actor.user, ttl), Approve(t.now + ttl))
  }

  function ApproveRow(t: Tables, c: Click, ttl: nat): (r: (Tables, Decision))
    requires c.id in t.rows
    ensures SameFacts(t, r.0) && KeepsBindings(t.sessions, r.0.sessions) && r.1 == Approve(t.now + ttl)
  {
    var k := t.rows[c.id].key;
    var t1 := GrantRow(t, c.id, k, c.actor.user, ttl);
    (if DelegationOf(k) == Bound && k.channel.Some? then TouchSession(t1, ScopeOf(k, k.channel.value)) else t1, Approve(t.now + ttl))
  }

  function DenyRow(t: Tables, c: Click): (r: (Tables, Decision))
    requires c.id in t.rows
    ensures SameFacts(t, r.0) && r.0.sessions == t.sessions && r.1 == Deny
  {
    var row := t.rows[c.id];
    (t.(rows := t.rows[c.id := row.(status := Denied, approvedBy := Some(c.actor.user), expiresAt := t.now + PENDING_TTL)],
        audit := t.audit + [AuditOf(DeniedAudit(ApprovalDenied), row.key, Some(c.actor.user))]), Deny)
  }

  /** `decideAudited`: the actor's and requester's fences, then the validator, then the mutation. */
  function DecideFenced(cfg: Config, t: Tables, c: Click): (r: (Tables, Decision))
    requires PendingLive(t, c.id) && Covered(cfg, t.rows[c.id].key)
    requires Delegating(c, t.rows[c.id].key) ==> c.seenCredential.Some?
    ensures SameFacts(t, r.0)
  {
    var row := t.rows[c.id];
    var gone := t.(rows := Without(t.rows, c.id));
    if !Current(t.tombs, c.actor, c.issuedAt) then (t, ActorStale)
    else if !Current(t.tombs, UserIdentity(c.actor.enterprise, row.key), row.createdAt) then (gone, Invalidated)
    else
      var v := Validate(cfg, t, c, row);
      var ttl := cfg.rules[row.key.provider].ttl;
      if v == Invalid then (gone, Invalidated)
      else if v == Ineligible then (t, IneligibleClick)
      else if !c.approve then DenyRow(t, c)
      else if Delegating(c, row.key) then ApproveUnbound(t, c, ttl)
      else ApproveRow(t, c, ttl)
  }

  /** The click handler around it. The early refusals record nothing; a click that its validator found
      ineligible is recorded in the same transaction. */
  function Decide(cfg: Config, t: Tables, c: Click): (r: (Tables, Decision))
    ensures SameFacts(t, r.0)
  {
    if !PendingLive(t, c.id) then (t, Stale)
    else
      var k := t.rows[c.id].key;
      if k.team != c.actor.team || (k.channel.Some? && !c.atRow) then (t, Stale)
      else if !Covered(cfg, k) then (t.(rows := Without(t.rows, c.id)), RuleGone)
      else if Delegating(c, k) && (k.channel.None? || c.actor.user == k.user) then (t, NotEligible)
      else if Delegating(c, k) && c.seenCredential.None? then (t, if c.actorInChannel then NeedsConnection else NotEligible)
      else
        var (t', d) := DecideFenced(cfg, t, c);
        (if d == IneligibleClick then t'.(audit := t'.audit + [NotApproverAudit(c.actor, k.provider)]) else t', d)
  }

  // ---------------------------------------------------------------------------------------------
  // Consume
  // ---------------------------------------------------------------------------------------------

  datatype ConsumeResult = NoGrant | Changed(reason: UseState) | Spent(id: Id, approvedBy: Option<string>)

  predicate Spendable(row: Row, k: ApprovalKey, now: int) {
    MatchesRow(row.key, k) && row.status == Granted && row.expiresAt > now
  }

  ghost predicate HasGrant(t: Tables, k: ApprovalKey) {
    HasAction(t.rows, Selector(k)) && Spendable(t.rows[RowOf(t.rows, Selector(k))], k, t.now)
  }

  /** The requester, and for a bound worker grant the authorizing member, were not offboarded since
      the row was created. */
  predicate SpendersCurrent(t: Tables, k: ApprovalKey, enterprise: Option<EnterpriseId>, createdAt: int) {
    && Current(t.tombs, UserIdentity(enterprise, k), createdAt)
    && (DelegationOf(k) == Bound ==> Current(t.tombs, MemberIdentity(enterprise, k), createdAt))
  }

  function SpendRow(t: Tables, k: ApprovalKey, id: Id): (r: Tables)
    requires id in t.rows
    ensures SameFacts(t, r)
  {
    var t1 := t.(rows := if k.grant == Once then Without(t.rows, id) else t.rows,
                 audit := t.audit + [AuditOf(ConsumedAudit, k, t.rows[id].approvedBy)]);
    if DelegationOf(k) == Bound && k.channel.Some? then TouchSession(t1, ScopeOf(k, k.channel.value)) else t1
  }

  ghost function Consume(cfg: Config, t: Tables, k: ApprovalKey, enterprise: Option<EnterpriseId>, issuedAt: int)
    : (r: (Tables, ConsumeResult))
    ensures SameFacts(t, r.0)
  {
    if DelegationOf(k) == Unbound then (t, NoGrant)
    else if LiveId(t, k.Owner(), k.provider) != Some(k.credential) then (t, Changed(UseCredential))
    else if !HasGrant(t, k) then (t, NoGrant)
    else
      var id := RowOf(t.rows, Selector(k));
      if !SpendersCurrent(t, k, enterprise, t.rows[id].createdAt) then (t.(rows := Without(t.rows, id)), NoGrant)
      else if !Covered(cfg, k) || CredentialUse(cfg, t, k, enterprise, issuedAt) != UseCurrent then (t, Changed(UseAuthorization))
      else (SpendRow(t, k, id), Spent(id, t.rows[id].approvedBy))
  }

  // ---------------------------------------------------------------------------------------------
  // Status
  // ---------------------------------------------------------------------------------------------

  datatype PolledStatus = PollPending | PollApproved | PollDenied | PollExpired

  function AuthorizationStatus(t: Tables, id: Id, team: string, user: string): Option<PolledStatus> {
    if id !in t.rows || t.rows[id].key.team != team || t.rows[id].key.user != user then None
    else
      var row := t.rows[id];
      Some(if row.status == Denied then PollDenied
           else if row.expiresAt <= t.now then PollExpired
           else if row.status == Granted then PollApproved else PollPending)
  }

  // ---------------------------------------------------------------------------------------------
  // The machine: every committed transaction, in any order
  // ---------------------------------------------------------------------------------------------

  datatype Op =
    | Tick(d: nat)
    | BeginSessionOp(scope: SessionScope, newId: Id)
    | RequestOp(k: ApprovalKey, enterprise: Option<EnterpriseId>, issuedAt: int, newId: Id)
    | DecideOp(click: Click)
    | ConsumeOp(k: ApprovalKey, enterprise: Option<EnterpriseId>, issuedAt: int)
    | DiscardPending(id: Id)
    | RevokeForUser(leaver: Identity)
    | Sweep
    | RecordExpiry(id: Id)                                          // the sweeper audits one swept row
    | ForgetExpiry(id: Id)                                          // or dies before it does
    | WriteCredential(owner: Owner, provider: string, newId: Id)
    | DropCredential(owner: Owner, provider: string, purge: bool)   // the purge is best effort
    | SetActsAs(tuple: Tuple, who: ActsAs)
    | SetTool(tuple: Tuple, enabled: bool)
    | FenceTx(op: FenceOp)

  datatype Outcome = Silent | Requested(request: RequestResult) | Decided(decision: Decision) | Consumed(consume: ConsumeResult)

  /** Deleting or replacing an owner's credential purges the approvals bound to it; for a channel owner
      the whole (team, channel, provider) tuple. */
  function PurgeCredentialRows(rows: map<Id, Row>, o: Owner, provider: string): map<Id, Row> {
    var r := WithoutOwner(rows, o, provider);
    if o.kind == ChannelOwned then WithoutTuple(r, Tuple(o.team, o.id, provider)) else r
  }

  ghost function Apply(cfg: Config, t: Tables, op: Op): (Tables, Outcome) {
    match op
    case Tick(d) => (t.(now := t.now + d), Silent)
    case BeginSessionOp(s, newId) => (BeginSession(t, s, newId), Silent)
    case RequestOp(k, e, issuedAt, newId) => var r := Request(cfg, t, k, e, issuedAt, newId); (r.0, Requested(r.1))
    case DecideOp(c) => var r := Decide(cfg, t, c); (r.0, Decided(r.1))
    case ConsumeOp(k, e, issuedAt) => var r := Consume(cfg, t, k, e, issuedAt); (r.0, Consumed(r.1))
    case DiscardPending(id) =>
      (if id in t.rows && t.rows[id].status == Pending then t.(rows := Without(t.rows, id)) else t, Silent)
    case RevokeForUser(i) =>
      (t.(rows := WithoutUser(t.rows, i.team, i.user), sessions := SessionsWithoutUser(t.sessions, i)), Silent)
    case Sweep =>
      (t.(rows := WithoutExpired(t.rows, t.now), sessions := LiveSessions(t.sessions, t.now), owed := t.owed + Lapsed(t.rows, t.now)), Silent)
    case RecordExpiry(id) => (if id in t.owed then t.(audit := t.audit + [ExpiredAudit(t.owed[id])], owed := t.owed - {id}) else t, Silent)
    case ForgetExpiry(id) => (t.(owed := t.owed - {id}), Silent)
    case WriteCredential(o, p, newId) =>
      (t.(live := t.live[(o, p) := newId], minted := t.minted[newId := ForCredential], rows := PurgeCredentialRows(t.rows, o, p)), Silent)
    case DropCredential(o, p, purge) =>
      (t.(live := t.live - {(o, p)}, rows := if purge then PurgeCredentialRows(t.rows, o, p) else t.rows), Silent)
    case SetActsAs(c, who) =>
      (t.(actsAs := t.actsAs[c := who], rows := if ActingAs(t, c) != who then WithoutTuple(t.rows, c) else t.rows), Silent)
    case SetTool(c, enabled) =>
      (t.(tools := t.tools[c := enabled], rows := if ToolEnabled(t, c) != enabled then WithoutTuple(t.rows, c) else t.rows), Silent)
    case FenceTx(f) => (t.(tombs := FenceStep(cfg.digest, t.tombs, t.now, f).0), Silent)
  }

  /** Keys are taken in the `null` spelling of an absent conversation. */
  predicate NormalKey(k: ApprovalKey) {
    k.channel != Some("") && k.thread != Some("") && k.governable != Some("")
  }

  /** Fresh ids are fresh; nothing else is assumed of a caller. */
  predicate Enabled(t: Tables, op: Op) {
    match op
    case BeginSessionOp(_, newId) => newId !in t.minted
    case RequestOp(k, _, _, newId) => newId !in t.minted && NormalKey(k)
    case ConsumeOp(k, _, _) => NormalKey(k)
    case WriteCredential(_, _, newId) => newId !in t.minted
    case _ => true
  }

  predicate Init(t: Tables) {
    t.minted == map[] && t.rows == map[] && t.sessions == map[] && t.live == map[] && t.audit == [] && t.owed == map[]
  }
}
