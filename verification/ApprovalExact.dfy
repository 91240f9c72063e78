/** What a request, a decision and a spend depend on, and what each does, in terms of the tables, the key and the
    click alone: the conditions of every outcome, in both directions. */
module ApprovalExact {
  import opened Base
  import opened Fences
  import opened ActionKey
  import opened ApprovalModel
  import opened ApprovalInvariant

  // ---------------------------------------------------------------------------------------------
  // The use check
  // ---------------------------------------------------------------------------------------------

  ghost predicate Placeholder(k: ApprovalKey) {
    k.delegated && k.ownerKind == UserOwned && k.ownerId == k.user
  }

  /** Static policy and the channel's tool row let this provider be used here. */
  ghost predicate Allowed(cfg: Config, t: Tables, k: ApprovalKey) {
    && k.provider in cfg.brokered && cfg.policy(k.provider, k.channel)
    && (k.governable.Some? ==> var c := Tuple(k.team, k.governable.value, k.provider); c in t.tools && t.tools[c])
  }

  /** The governed conversation acts as its channel. */
  ghost predicate ActsShared(t: Tables, k: ApprovalKey) {
    k.governable.Some? && var c := Tuple(k.team, k.governable.value, k.provider); c in t.actsAs && t.actsAs[c] == SharedChannel
  }

  ghost predicate HoldsGeneration(t: Tables, k: ApprovalKey) {
    var o := Base.Owner(k.team, k.ownerKind, k.ownerId);
    (o, k.provider) in t.live && t.live[(o, k.provider)] == k.credential
  }

  ghost function WorkerScope(k: ApprovalKey): SessionScope
    requires k.governable.Some?
  {
    SessionScope(k.team, k.governable.value, if k.thread.Some? then k.thread.value else "", k.user, k.provider)
  }

  ghost predicate SessionLive(t: Tables, s: SessionScope) {
    s in t.sessions && t.sessions[s].expiresAt > t.now
  }

  /** The scope's live session names the key's owner with its generation, and that member was not removed since. */
  ghost predicate BoundTo(t: Tables, s: SessionScope, k: ApprovalKey, e: Option<EnterpriseId>) {
    && SessionLive(t, s) && t.sessions[s].binding.Some?
    && t.sessions[s].binding.value.member == k.ownerId && t.sessions[s].binding.value.credential == k.credential
    && Current(t.tombs, Identity(e, k.team, k.ownerId), t.sessions[s].binding.value.at)
  }

  /** The half of the check about who may act: receipt, policy, tool, and the owner that the conversation's identity,
      or for a bound worker key its live session, names. */
  ghost predicate Governed(cfg: Config, t: Tables, k: ApprovalKey, e: Option<EnterpriseId>, issuedAt: int) {
    && Current(t.tombs, Identity(e, k.team, k.user), issuedAt)
    && Allowed(cfg, t, k)
    && if k.delegated then
         && k.governable.Some? && !ActsShared(t, k)
         && (Placeholder(k) || BoundTo(t, WorkerScope(k), k, e))
       else if ActsShared(t, k) then k.ownerKind == ChannelOwned && k.ownerId == k.governable.value
       else k.ownerKind == UserOwned && k.ownerId == k.user
  }

  /** The half about what is held now: the owner's exact generation (a bound key's member, who is a user), or for a
      placeholder the unbound live session it stands for. */
  ghost predicate Held(t: Tables, k: ApprovalKey) {
    if Placeholder(k) then
      k.governable.Some? && var s := WorkerScope(k); SessionLive(t, s) && t.sessions[s].binding.None? && t.sessions[s].id == k.credential
    else if k.delegated then
      var member := Base.Owner(k.team, UserOwned, k.ownerId);
      (member, k.provider) in t.live && t.live[(member, k.provider)] == k.credential
    else
      HoldsGeneration(t, k)
  }

  ghost predicate Usable(cfg: Config, t: Tables, k: ApprovalKey, e: Option<EnterpriseId>, issuedAt: int) {
    Governed(cfg, t, k, e, issuedAt) && Held(t, k)
  }

  /** The check answers `current` exactly when both halves hold, `credential` exactly when only the held generation is
      wrong, and `authorization` otherwise. */
  lemma UseExact(cfg: Config, t: Tables, k: ApprovalKey, e: Option<EnterpriseId>, issuedAt: int)
    ensures var use := CredentialUse(cfg, t, k, e, issuedAt);
      && (use == UseCurrent <==> Usable(cfg, t, k, e, issuedAt))
      && (use == UseCredential <==> Governed(cfg, t, k, e, issuedAt) && !Held(t, k))
      && (use == UseAuthorization <==> !Governed(cfg, t, k, e, issuedAt))
  {
    hide Current;
  }

  // ---------------------------------------------------------------------------------------------
  // Requests
  // ---------------------------------------------------------------------------------------------

  /** The provider is brokered and its approval rule asks for this method and path. */
  ghost predicate AsksApproval(cfg: Config, k: ApprovalKey) {
    k.provider in cfg.brokered && k.provider in cfg.rules && cfg.needsApproval(k.provider, k.method_, k.path)
  }

  /** The generation that the key was resolved to still exists: the owner's, or an unbound live session. */
  ghost predicate StillMinted(t: Tables, k: ApprovalKey) {
    if Placeholder(k) then exists s :: SessionLive(t, s) && t.sessions[s].binding.None? && t.sessions[s].id == k.credential
    else HoldsGeneration(t, k)
  }

  /** The governance channel is the conversation, or none in a conversation that has a personal one's prefix. */
  ghost predicate ScopeFits(k: ApprovalKey) {
    || (k.governable.Some? && k.channel == k.governable)
    || (k.governable.None? && (k.channel.None? || (k.channel.value != "" && (k.channel.value[0] == 'D' || k.channel.value[0] == 'G'))))
  }

  /** Nothing stands in the way of recording the request. */
  ghost predicate Requestable(cfg: Config, t: Tables, k: ApprovalKey, e: Option<EnterpriseId>, issuedAt: int) {
    StillMinted(t, k) && AsksApproval(cfg, k) && Usable(cfg, t, k, e, issuedAt) && ScopeFits(k)
  }

  ghost predicate SameRequest(row: Row, k: ApprovalKey) {
    SameSelected(row.key, k)
  }

  ghost predicate Over(row: Row, now: int) {
    row.expiresAt <= now || row.status == Denied
  }

  /** A row of the action that the new one may displace. */
  ghost predicate Yields(row: Row, k: ApprovalKey, now: int) {
    Over(row, now) && row.key.provider == k.provider
  }

  /** When each answer is given: refused by the generation, then by rule or use; else created exactly when every row of
      the same action is lapsed or denied, and otherwise the live row is reused if it matches in full. */
  lemma RequestAnswers(cfg: Config, t: Tables, k: ApprovalKey, e: Option<EnterpriseId>, issuedAt: int, newId: Id)
    requires Inv(cfg, t) && newId !in t.minted && NormalKey(k)
    ensures var r := Request(cfg, t, k, e, issuedAt, newId).1;
      && (r == Refused(UseCredential) <==> !StillMinted(t, k))
      && (r == Refused(UseAuthorization) <==> StillMinted(t, k) && !(AsksApproval(cfg, k) && Usable(cfg, t, k, e, issuedAt)))
      && (r.Created? <==> Requestable(cfg, t, k, e, issuedAt) && forall i :: i in t.rows && SameRequest(t.rows[i], k) ==> Yields(t.rows[i], k, t.now))
      && (r.Reused? ==> Requestable(cfg, t, k, e, issuedAt) && r.id in t.rows && MatchesRow(t.rows[r.id].key, k) && !Over(t.rows[r.id], t.now))
      && (Requestable(cfg, t, k, e, issuedAt) ==> forall i :: i in t.rows && MatchesRow(t.rows[i].key, k) && !Over(t.rows[i], t.now) ==> r == Reused(i))
      && (r.Unrecorded? ==> StillMinted(t, k) && AsksApproval(cfg, k) && Usable(cfg, t, k, e, issuedAt))
      && (r.Refused? ==> r.reason != UseCurrent)
  {
    hide Selector, CredentialUse, Usable, Governed, RowFits, SessionFits, LiveFits, KeyFits, Renewed, MatchesRow, SameSelected;
    UseExact(cfg, t, k, e, issuedAt);
    LiveIsStillMinted(t, k);
    if Requestable(cfg, t, k, e, issuedAt) {
      CurrentUseFits(cfg, t, k, e, issuedAt);
      RowAnswers(cfg, t, k, newId);
    }
    hide Replaceable, Reusable, RequestOn;
  }

  lemma LiveIsStillMinted(t: Tables, k: ApprovalKey)
    ensures GenerationLive(t, k) <==> StillMinted(t, k)
  {
  }

  lemma RowAnswers(cfg: Config, t: Tables, k: ApprovalKey, newId: Id)
    requires Inv(cfg, t) && KeyFits(t, k)
    ensures var r := RequestOn(t, k, newId).1;
      && (r.Created? <==> forall i :: i in t.rows && SameRequest(t.rows[i], k) ==> Yields(t.rows[i], k, t.now))
      && (r.Reused? ==> r.id in t.rows && MatchesRow(t.rows[r.id].key, k) && !Over(t.rows[r.id], t.now))
      && (forall i :: i in t.rows && MatchesRow(t.rows[i].key, k) && !Over(t.rows[i], t.now) ==> r == Reused(i))
      && !r.Refused?
  {
    hide Selector, Inv, Renewed, FreshRow, Without, MatchesRow, SameSelected;
    forall i | i in t.rows && SameRequest(t.rows[i], k) ensures HasAction(t.rows, Selector(k)) && i == RowOf(t.rows, Selector(k)) {
      RowAction(cfg, t, i, k);
      OneAction(cfg, t);
    }
    forall i | i in t.rows && MatchesRow(t.rows[i].key, k) ensures SameRequest(t.rows[i], k) {
      MatchIsSame(t.rows[i].key, k);
    }
    if HasAction(t.rows, Selector(k)) {
      var id := RowOf(t.rows, Selector(k));
      RowAction(cfg, t, id, k);
      MatchIsSame(t.rows[id].key, k);
      SameReplaces(t.rows[id], k, t.now);
    }
  }

  lemma OneAction(cfg: Config, t: Tables)
    requires Inv(cfg, t)
    ensures UniqueActions(t.rows)
  {
  }

  lemma MatchIsSame(a: ApprovalKey, k: ApprovalKey)
    ensures MatchesRow(a, k) ==> SameSelected(a, k)
  {
  }

  lemma SameReplaces(row: Row, k: ApprovalKey, now: int)
    requires SameSelected(row.key, k)
    ensures Replaceable(row, k, now) <==> Yields(row, k, now)
    ensures Reusable(row, k, now) <==> MatchesRow(row.key, k) && !Over(row, now)
  {
  }

  /** What a created request writes: one fresh pending row of exactly the asked key, in place of any lapsed or denied
      row of its action, and one audit row; every other row and table stays. No other answer writes. */
  lemma RequestWrites(cfg: Config, t: Tables, k: ApprovalKey, e: Option<EnterpriseId>, issuedAt: int, newId: Id)
    requires Inv(cfg, t) && newId !in t.minted && NormalKey(k)
    ensures var (t', r) := Request(cfg, t, k, e, issuedAt, newId);
      if r.Created? then
        && r.id == newId && newId in t'.rows
        && t'.rows[newId] == Row(k, Selector(k), Pending, None, t.now, t.now + PENDING_TTL)
        && (forall i :: i != newId ==> (i in t'.rows <==> i in t.rows && !SameRequest(t.rows[i], k)))
        && (forall i :: i != newId && i in t'.rows ==> t'.rows[i] == t.rows[i])
        && t'.audit == t.audit + [AuditRow(RequestedAudit, k.team, k.user, k.provider, Some(Selector(k)), None)]
        && t' == t.(rows := t'.rows, minted := t.minted[newId := ForApproval], audit := t'.audit)
      else t' == t
  {
    hide Selector, CredentialUse, GenerationLive, RowFits, SessionFits, LiveFits, KeyFits, SameSelected, Covered;
    RequestShape(cfg, t, k, e, issuedAt, newId);
    forall i | i in t.rows ensures t.rows[i].actionKey == Selector(k) <==> SameRequest(t.rows[i], k) {
      RowAction(cfg, t, i, k);
    }
    hide Request;
  }

  lemma RowAction(cfg: Config, t: Tables, i: Id, k: ApprovalKey)
    requires Inv(cfg, t) && i in t.rows
    ensures t.rows[i].actionKey == Selector(t.rows[i].key)
    ensures t.rows[i].actionKey == Selector(k) <==> SameRequest(t.rows[i], k)
  {
    hide Selector, SessionFits, LiveFits, UniqueActions, KeyFits, GrantFits;
    assert RowFits(cfg, t, t.rows[i]);
    SelectorExact(t.rows[i].key, k);
  }

  // ---------------------------------------------------------------------------------------------
  // Decisions
  // ---------------------------------------------------------------------------------------------

  /** The rule asks for another member: a placeholder always; an ordinary key in a governed conversation when the
      configured approver is a member, or when none is configured and the channel owns the credential. */
  ghost predicate AsksOther(cfg: Config, k: ApprovalKey)
    requires k.provider in cfg.rules
  {
    || Placeholder(k)
    || (!k.delegated && k.governable.Some? &&
         (cfg.rules[k.provider].approver == Some(OtherMember) || (cfg.rules[k.provider].approver.None? && k.ownerKind == ChannelOwned)))
  }

  /** The conversation is an eligible channel, and for its own credential the requester is still in it. */
  ghost predicate SafeChannel(c: Click, k: ApprovalKey) {
    k.channel.Some? && c.channelEligible && (k.ownerKind == ChannelOwned ==> c.requesterInChannel)
  }

  /** Rows whose decision depends on the channel. */
  ghost predicate ChannelBound(cfg: Config, k: ApprovalKey)
    requires k.provider in cfg.rules
  {
    k.ownerKind == ChannelOwned || k.delegated || AsksOther(cfg, k)
  }

  /** Who may decide a row: for an other-member rule somebody else in the safe channel; for a bound worker's row the
      credential's member, in the safe channel; otherwise the requester. */
  ghost predicate MayDecide(cfg: Config, c: Click, k: ApprovalKey)
    requires k.provider in cfg.rules
  {
    && (ChannelBound(cfg, k) ==> SafeChannel(c, k))
    && if AsksOther(cfg, k) then c.actor.user != k.user && c.actorInChannel
       else if k.delegated then c.actor.user == k.ownerId && c.actorInChannel
       else c.actor.user == k.user
  }

  /** The click is on a live pending row of the actor's team, at the row's own conversation. */
  ghost predicate Addressed(t: Tables, c: Click) {
    && c.id in t.rows && t.rows[c.id].status == Pending && t.rows[c.id].expiresAt > t.now
    && t.rows[c.id].key.team == c.actor.team && (t.rows[c.id].key.channel.Some? ==> c.atRow)
  }

  /** An approval of a placeholder, which runs under the clicker's own credential. */
  ghost predicate Lends(t: Tables, c: Click)
    requires c.id in t.rows
  {
    c.approve && Placeholder(t.rows[c.id].key)
  }

  /** The click reaches the locked validator: the rule still asks, and a lending click comes from somebody else, in a
      channel, with a credential. */
  ghost predicate Reaches(cfg: Config, t: Tables, c: Click) {
    && Addressed(t, c) && AsksApproval(cfg, t.rows[c.id].key)
    && (Lends(t, c) ==> t.rows[c.id].key.channel.Some? && c.actor.user != t.rows[c.id].key.user && c.seenCredential.Some?)
  }

  /** The row survives the locked check: requester not removed since, safe channel, and a use that is still current. */
  ghost predicate RowStands(cfg: Config, t: Tables, c: Click)
    requires c.id in t.rows && t.rows[c.id].key.provider in cfg.rules
  {
    var row := t.rows[c.id]; var k := row.key;
    && Current(t.tombs, Identity(c.actor.enterprise, k.team, k.user), row.createdAt)
    && (ChannelBound(cfg, k) ==> SafeChannel(c, k))
    && Usable(cfg, t, k, c.actor.enterprise, row.createdAt)
  }

  /** A lending clicker still holds the generation that was read before the locks. */
  ghost predicate StillLends(t: Tables, c: Click)
    requires c.id in t.rows
  {
    Lends(t, c) ==>
      var o := (Base.Owner(c.actor.team, UserOwned, c.actor.user), t.rows[c.id].key.provider);
      o in t.live && c.seenCredential == Some(t.live[o])
  }

  ghost predicate ActorCurrent(t: Tables, c: Click) {
    Current(t.tombs, c.actor, c.issuedAt)
  }

  /** The click decides the row. */
  ghost predicate Decides(cfg: Config, t: Tables, c: Click) {
    Reaches(cfg, t, c) && ActorCurrent(t, c) && RowStands(cfg, t, c) && StillLends(t, c) && MayDecide(cfg, c, t.rows[c.id].key)
  }

  /** Exactly when each answer is given. A click approves or denies exactly when it decides the row. */
  lemma ClickAnswers(cfg: Config, t: Tables, c: Click)
    ensures var d := Decide(cfg, t, c).1;
      && (d.Approve? <==> c.approve && Decides(cfg, t, c))
      && (d.Deny? <==> !c.approve && Decides(cfg, t, c))
      && (d.IneligibleClick? <==>
           Reaches(cfg, t, c) && ActorCurrent(t, c) && RowStands(cfg, t, c) && !(StillLends(t, c) && MayDecide(cfg, c, t.rows[c.id].key)))
      && (d.Invalidated? <==> Reaches(cfg, t, c) && ActorCurrent(t, c) && !RowStands(cfg, t, c))
      && (d.ActorStale? <==> Reaches(cfg, t, c) && !ActorCurrent(t, c))
      && (d.RuleGone? <==> Addressed(t, c) && !AsksApproval(cfg, t.rows[c.id].key))
      && (d.Stale? <==> !Addressed(t, c))
      && (d.NeedsConnection? <==> Unconnected(cfg, t, c) && c.actorInChannel)
      && (d.NotEligible? <==> (Unconnected(cfg, t, c) && !c.actorInChannel) || LendsToNobody(cfg, t, c))
  {
    hide Current, Usable, CredentialUse, AsksOther, Decider, SafeChannel, DecideFenced, RowStands, MayDecide, SameFacts, NotApproverAudit;
    if Reaches(cfg, t, c) {
      FencedAnswers(cfg, t, c);
    }
  }

  /** The answers of the locked decision alone. */
  lemma FencedAnswers(cfg: Config, t: Tables, c: Click)
    requires PendingLive(t, c.id) && AsksApproval(cfg, t.rows[c.id].key) && (Lends(t, c) ==> c.seenCredential.Some?)
    ensures var d := DecideFenced(cfg, t, c).1; var may := StillLends(t, c) && MayDecide(cfg, c, t.rows[c.id].key);
      && (d.Approve? <==> c.approve && ActorCurrent(t, c) && RowStands(cfg, t, c) && may)
      && (d.Deny? <==> !c.approve && ActorCurrent(t, c) && RowStands(cfg, t, c) && may)
      && (d.IneligibleClick? <==> ActorCurrent(t, c) && RowStands(cfg, t, c) && !may)
      && (d.Invalidated? <==> ActorCurrent(t, c) && !RowStands(cfg, t, c))
      && (d.ActorStale? <==> !ActorCurrent(t, c))
  {
    hide Current, Usable, CredentialUse, AsksOther, Decider, ApproveRow, DenyRow, ApproveUnbound, SafeChannel, ChannelFactsHold, Validate;
    ValidatorAnswers(cfg, t, c);
    if Lends(t, c) {
      LendingBinds(cfg, t, c);
    }
  }

  /** A click that would lend a credential, by somebody who has none. */
  ghost predicate Unconnected(cfg: Config, t: Tables, c: Click) {
    && Addressed(t, c) && AsksApproval(cfg, t.rows[c.id].key) && Lends(t, c)
    && t.rows[c.id].key.channel.Some? && c.actor.user != t.rows[c.id].key.user && c.seenCredential.None?
  }

  /** A click on a placeholder outside any channel, or by the worker. */
  ghost predicate LendsToNobody(cfg: Config, t: Tables, c: Click) {
    && Addressed(t, c) && AsksApproval(cfg, t.rows[c.id].key) && Lends(t, c)
    && (t.rows[c.id].key.channel.None? || c.actor.user == t.rows[c.id].key.user)
  }

  lemma ValidatorAnswers(cfg: Config, t: Tables, c: Click)
    requires c.id in t.rows && AsksApproval(cfg, t.rows[c.id].key) && (Lends(t, c) ==> c.seenCredential.Some?)
    ensures var row := t.rows[c.id]; var k := row.key; var v := Validate(cfg, t, c, row);
      && Covered(cfg, k)
      && (v == Invalid <==> !((ChannelBound(cfg, k) ==> SafeChannel(c, k)) && Usable(cfg, t, k, c.actor.enterprise, row.createdAt)))
      && (v == Valid <==> v != Invalid && StillLends(t, c) && MayDecide(cfg, c, k))
  {
    hide CredentialUse, Usable;
    UseExact(cfg, t, t.rows[c.id].key, c.actor.enterprise, t.rows[c.id].createdAt);
  }

  /** The session that a placeholder stands for is there to be bound. */
  lemma LendingBinds(cfg: Config, t: Tables, c: Click)
    requires c.id in t.rows && Lends(t, c) && c.seenCredential.Some?
    ensures Usable(cfg, t, t.rows[c.id].key, c.actor.enterprise, t.rows[c.id].createdAt) ==> UnboundSessionLive(t, t.rows[c.id].key.credential)
    ensures forall ttl :: UnboundSessionLive(t, t.rows[c.id].key.credential) ==> ApproveUnbound(t, c, ttl).1.Approve?
    ensures Delegating(c, t.rows[c.id].key)
  {
    hide Governed, Selector, KeepsBindings;
  }

  /** The key that an approval grants. */
  ghost function Lent(c: Click, k: ApprovalKey): ApprovalKey
    requires c.seenCredential.Some?
  {
    k.(ownerKind := UserOwned, ownerId := c.actor.user, credential := c.seenCredential.value)
  }

  /** Exactly this row was decided: every other row stays, except the older grants of the same action. */
  ghost predicate OneGranted(t: Tables, t': Tables, c: Click, key: ApprovalKey, expiresAt: int)
    requires c.id in t.rows
  {
    && c.id in t'.rows && t'.rows[c.id] == Row(key, Selector(key), Granted, Some(c.actor.user), t.rows[c.id].createdAt, expiresAt)
    && (forall i :: i != c.id ==> (i in t'.rows <==> i in t.rows && !SameRequest(t.rows[i], key)))
    && (forall i :: i != c.id && i in t'.rows ==> t'.rows[i] == t.rows[i])
    && t'.audit == t.audit + [AuditRow(ApprovedAudit, key.team, key.user, key.provider, Some(Selector(key)), Some(c.actor.user))]
  }

  /** The one unbound live session of this id now names the member and their generation, for one idle period. */
  ghost predicate OnlyBound(a: map<SessionScope, Session>, b: map<SessionScope, Session>, now: int, id: Id, member: string, credential: Id) {
    && a.Keys == b.Keys
    && forall s :: s in a ==> b[s] == if a[s].id == id && a[s].binding.None? && a[s].expiresAt > now
                                      then Session(id, Some(Binding(member, credential, now)), now + SESSION_IDLE_TTL) else a[s]
  }

  /** At most this scope's session changed: a live one now ends one idle period from now, or eight hours from its binding,
      whichever is earlier. */
  ghost predicate OnlyTouched(a: map<SessionScope, Session>, b: map<SessionScope, Session>, now: int, scope: SessionScope) {
    && a.Keys == b.Keys
    && forall s :: s in a ==> (
      var latest := (if a[s].binding.Some? then a[s].binding.value.at else now) + SESSION_MAX_TTL;
      b[s] == if s == scope && a[s].expiresAt > now
              then a[s].(expiresAt := if now + SESSION_IDLE_TTL < latest then now + SESSION_IDLE_TTL else latest) else a[s])
  }

  ghost predicate SessionsAfterUse(t: Tables, t': Tables, k: ApprovalKey) {
    if k.delegated && k.channel.Some?
    then OnlyTouched(t.sessions, t'.sessions, t.now, SessionScope(k.team, k.channel.value, if k.thread.Some? then k.thread.value else "", k.user, k.provider))
    else t'.sessions == t.sessions
  }

  /** What an approval writes. */
  ghost predicate Approved(cfg: Config, t: Tables, t': Tables, c: Click, expiresAt: int)
    requires c.id in t.rows && t.rows[c.id].key.provider in cfg.rules && (Lends(t, c) ==> c.seenCredential.Some?)
  {
    var k := t.rows[c.id].key;
    && expiresAt == t.now + cfg.rules[k.provider].ttl
    && if Lends(t, c) then
         && OneGranted(t, t', c, Lent(c, k), expiresAt)
         && OnlyBound(t.sessions, t'.sessions, t.now, k.credential, c.actor.user, c.seenCredential.value)
       else
         OneGranted(t, t', c, k, expiresAt) && SessionsAfterUse(t, t', k)
  }

  /** A denial keeps the row, under its own key, for one more pending lifetime, and notes who denied it. */
  ghost function DeniedOnly(t: Tables, c: Click): Tables
    requires c.id in t.rows
  {
    var row := t.rows[c.id];
    var note := AuditRow(DeniedAudit(ApprovalDenied), row.key.team, row.key.user, row.key.provider, Some(Selector(row.key)), Some(c.actor.user));
    t.(rows := t.rows[c.id := Row(row.key, row.actionKey, Denied, Some(c.actor.user), row.createdAt, t.now + PENDING_TTL)],
       audit := t.audit + [note])
  }

  ghost function NotedOnly(t: Tables, c: Click): Tables
    requires c.id in t.rows
  {
    t.(audit := t.audit + [AuditRow(DeniedAudit(NotApprover), c.actor.team, c.actor.user, t.rows[c.id].key.provider, None, None)])
  }

  /** What each answer writes. */
  lemma ClickWrites(cfg: Config, t: Tables, c: Click)
    requires Inv(cfg, t)
    ensures var (t', d) := Decide(cfg, t, c);
      && (d.Approve? ==> Reaches(cfg, t, c) && Approved(cfg, t, t', c, d.expiresAt))
      && (d.Deny? ==> c.id in t.rows && t' == DeniedOnly(t, c))
      && (d.IneligibleClick? ==> c.id in t.rows && t' == NotedOnly(t, c))
      && (d.Invalidated? || d.RuleGone? ==> t' == t.(rows := t.rows - {c.id}))
      && (d.Stale? || d.NotEligible? || d.NeedsConnection? || d.ActorStale? ==> t' == t)
      && t' == t.(rows := t'.rows, sessions := t'.sessions, audit := t'.audit)
  {
    hide Decide, Reaches, Approved, Validate, Selector, Inv, SameFacts;
    if Decide(cfg, t, c).1.Approve? {
      ApprovalWrites(cfg, t, c);
    } else {
      OtherwiseWrites(cfg, t, c);
    }
  }

  lemma OtherwiseWrites(cfg: Config, t: Tables, c: Click)
    requires !Decide(cfg, t, c).1.Approve?
    ensures var (t', d) := Decide(cfg, t, c);
      && (d.Deny? ==> c.id in t.rows && t' == DeniedOnly(t, c))
      && (d.IneligibleClick? ==> c.id in t.rows && t' == NotedOnly(t, c))
      && (d.Invalidated? || d.RuleGone? ==> t' == t.(rows := t.rows - {c.id}))
      && (d.Stale? || d.NotEligible? || d.NeedsConnection? || d.ActorStale? ==> t' == t)
  {
    hide Validate, Current, Covered, ApproveUnbound, ApproveRow, Selector, KeepsBindings, SameFacts;
  }

  lemma ApprovalWrites(cfg: Config, t: Tables, c: Click)
    requires Inv(cfg, t) && Decide(cfg, t, c).1.Approve?
    ensures Reaches(cfg, t, c) && Approved(cfg, t, Decide(cfg, t, c).0, c, Decide(cfg, t, c).1.expiresAt)
    ensures var t' := Decide(cfg, t, c).0; t' == t.(rows := t'.rows, sessions := t'.sessions, audit := t'.audit)
  {
    hide Decide, ApproveUnbound, ApproveRow, Decides, Inv, Validate, Current, Selector, OneGranted, OnlyBound, SessionsAfterUse, KeepsBindings;
    ClickAnswers(cfg, t, c);
    ApproveReached(cfg, t, c);
    assert Reaches(cfg, t, c) by {
      DecidesReaches(cfg, t, c);
    }
    var ttl := cfg.rules[t.rows[c.id].key.provider].ttl;
    if Lends(t, c) {
      LendingWrites(cfg, t, c, ttl);
    } else {
      OrdinaryWrites(cfg, t, c, ttl);
    }
  }

  lemma DecidesReaches(cfg: Config, t: Tables, c: Click)
    requires Decides(cfg, t, c)
    ensures Reaches(cfg, t, c)
  {
  }

  lemma LendingWrites(cfg: Config, t: Tables, c: Click, ttl: nat)
    requires Inv(cfg, t) && c.id in t.rows && Lends(t, c) && c.seenCredential.Some? && ApproveUnbound(t, c, ttl).1.Approve?
    ensures var t' := ApproveUnbound(t, c, ttl).0; var k := t.rows[c.id].key;
      && ApproveUnbound(t, c, ttl).1 == Approve(t.now + ttl) && OneGranted(t, t', c, Lent(c, k), t.now + ttl)
      && OnlyBound(t.sessions, t'.sessions, t.now, k.credential, c.actor.user, c.seenCredential.value)
  {
    hide Selector, Inv, KeepsBindings, UnboundSessionLive, SameSelected, BindSession, OnlyBound;
    BindExact(t, t.rows[c.id].key.credential, c.actor.user, c.seenCredential.value);
    var key := Lent(c, t.rows[c.id].key);
    assert key == Rekeyed(t.rows[c.id].key, c.actor.user, c.seenCredential.value);
    forall i | i in t.rows ensures t.rows[i].actionKey == Selector(key) <==> SameRequest(t.rows[i], key) {
      RowAction(cfg, t, i, key);
    }
  }

  lemma BindExact(t: Tables, id: Id, member: string, credential: Id)
    ensures OnlyBound(t.sessions, BindSession(t, id, member, credential).sessions, t.now, id, member, credential)
  {
    hide KeepsBindings;
  }

  lemma OrdinaryWrites(cfg: Config, t: Tables, c: Click, ttl: nat)
    requires Inv(cfg, t) && c.id in t.rows && !Lends(t, c) && c.approve
    ensures var t' := ApproveRow(t, c, ttl).0; var k := t.rows[c.id].key;
      && ApproveRow(t, c, ttl).1 == Approve(t.now + ttl) && OneGranted(t, t', c, k, t.now + ttl) && SessionsAfterUse(t, t', k)
  {
    hide Selector, Inv, KeepsBindings, SameSelected, TouchSession, SessionsAfterUse, OnlyTouched;
    var k := t.rows[c.id].key;
    forall i | i in t.rows && i != c.id ensures !SameRequest(t.rows[i], k) {
      OnlyItsAction(cfg, t, i, c.id);
    }
    var t1 := GrantRow(t, c.id, k, c.actor.user, ttl);
    hide SameFacts;
    UseTouches(t, t1, ApproveRow(t, c, ttl).0, k);
  }

  lemma OnlyItsAction(cfg: Config, t: Tables, i: Id, j: Id)
    requires Inv(cfg, t) && i in t.rows && j in t.rows && i != j
    ensures !SameRequest(t.rows[i], t.rows[j].key)
  {
    hide Selector, SessionsFit, LiveFits, SameSelected, RowFits;
    RowAction(cfg, t, i, t.rows[j].key);
    RowAction(cfg, t, j, t.rows[j].key);
  }

  /** Touching the session of a bound key's conversation is what a use does to the sessions. */
  lemma UseTouches(t: Tables, t1: Tables, t': Tables, k: ApprovalKey)
    requires t1.sessions == t.sessions && t1.now == t.now && !Placeholder(k)
    requires t'.sessions == (if DelegationOf(k) == Bound && k.channel.Some? then TouchSession(t1, ScopeOf(k, k.channel.value)).sessions else t1.sessions)
    ensures SessionsAfterUse(t, t', k)
  {
    hide KeepsBindings, OnlyTouched, TouchSession;
    if DelegationOf(k) == Bound && k.channel.Some? {
      TouchExact(t1, ScopeOf(k, k.channel.value));
    }
  }

  lemma TouchExact(t: Tables, s: SessionScope)
    ensures OnlyTouched(t.sessions, TouchSession(t, s).sessions, t.now, s)
  {
    hide KeepsBindings;
  }

  // ---------------------------------------------------------------------------------------------
  // Spends
  // ---------------------------------------------------------------------------------------------

  /** This row is a live grant of the key. */
  ghost predicate GrantsKey(t: Tables, i: Id, k: ApprovalKey) {
    i in t.rows && MatchesRow(t.rows[i].key, k) && t.rows[i].status == Granted && t.rows[i].expiresAt > t.now
  }

  /** Neither the requester, nor for a bound key its member, was removed since the row was created. */
  ghost predicate SpendersStand(t: Tables, k: ApprovalKey, e: Option<EnterpriseId>, createdAt: int) {
    && Current(t.tombs, Identity(e, k.team, k.user), createdAt)
    && (k.delegated ==> Current(t.tombs, Identity(e, k.team, k.ownerId), createdAt))
  }

  /** The key's owner holds its generation, so the spend looks for a grant. */
  ghost predicate Looks(t: Tables, k: ApprovalKey) {
    !Placeholder(k) && HoldsGeneration(t, k)
  }

  /** It finds this one, whose people still stand. */
  ghost predicate Finds(t: Tables, k: ApprovalKey, e: Option<EnterpriseId>, i: Id) {
    Looks(t, k) && GrantsKey(t, i, k) && SpendersStand(t, k, e, t.rows[i].createdAt)
  }

  /** Exactly when each answer is given. A spend needs a live grant of the key, at most one of which exists, its spenders
      still standing, a rule that asks, and a use that is current now. */
  lemma SpendAnswers(cfg: Config, t: Tables, k: ApprovalKey, e: Option<EnterpriseId>, issuedAt: int)
    requires Inv(cfg, t)
    ensures var r := Consume(cfg, t, k, e, issuedAt).1; var may := AsksApproval(cfg, k) && Usable(cfg, t, k, e, issuedAt);
      && (r.Spent? <==> may && exists i :: Finds(t, k, e, i))
      && (r.Spent? ==> GrantsKey(t, r.id, k) && r.approvedBy == t.rows[r.id].approvedBy)
      && (r == Changed(UseAuthorization) <==> !may && exists i :: Finds(t, k, e, i))
      && (r == Changed(UseCredential) <==> !Placeholder(k) && !HoldsGeneration(t, k))
      && (r.NoGrant? <==> (Looks(t, k) || Placeholder(k)) && forall i :: !Finds(t, k, e, i))
  {
    hide Selector, CredentialUse, Current, Usable, Inv, MatchesRow;
    UseExact(cfg, t, k, e, issuedAt);
    GrantIsUnique(cfg, t, k);
    if HasGrant(t, k) {
      var id := RowOf(t.rows, Selector(k));
      assert Finds(t, k, e, id) <==> Looks(t, k) && SpendersCurrent(t, k, e, t.rows[id].createdAt);
    }
    hide HasGrant;
  }

  lemma GrantIsUnique(cfg: Config, t: Tables, k: ApprovalKey)
    requires Inv(cfg, t)
    ensures HasGrant(t, k) <==> exists i :: GrantsKey(t, i, k)
    ensures forall i :: GrantsKey(t, i, k) ==> HasAction(t.rows, Selector(k)) && i == RowOf(t.rows, Selector(k))
  {
    hide Selector, SessionsFit, LiveFits, MatchesRow, RowFits;
    forall i | GrantsKey(t, i, k) ensures HasAction(t.rows, Selector(k)) && i == RowOf(t.rows, Selector(k)) {
      RowAction(cfg, t, i, k);
      MatchRefinesSelector(t.rows[i].key, k);
    }
    if HasGrant(t, k) {
      assert GrantsKey(t, RowOf(t.rows, Selector(k)), k);
    }
  }

  /** What a spend writes: a once grant is gone and a thread grant stays, one audit row names the key and the approver, and at
      most the bound conversation's session is extended. A fenced grant is dropped; nothing else ever changes. */
  lemma SpendWrites(cfg: Config, t: Tables, k: ApprovalKey, e: Option<EnterpriseId>, issuedAt: int)
    requires Inv(cfg, t)
    ensures var (t', r) := Consume(cfg, t, k, e, issuedAt);
      match r
      case Spent(id, approvedBy) =>
        && t'.rows == (if k.grant == Once then t.rows - {id} else t.rows)
        && t'.audit == t.audit + [AuditRow(ConsumedAudit, k.team, k.user, k.provider, Some(Selector(k)), approvedBy)]
        && SessionsAfterUse(t, t', k)
        && t' == t.(rows := t'.rows, audit := t'.audit, sessions := t'.sessions)
      case NoGrant =>
        && (forall i :: i in t'.rows <==> i in t.rows && !(Looks(t, k) && GrantsKey(t, i, k)))
        && (forall i :: i in t'.rows ==> t'.rows[i] == t.rows[i])
        && t' == t.(rows := t'.rows)
      case Changed(_) => t' == t
  {
    hide Selector, CredentialUse, Current, Inv, MatchesRow, SessionsAfterUse, SameFacts, Covered, SpendRow, SpendersCurrent;
    GrantIsUnique(cfg, t, k);
    var (t', r) := Consume(cfg, t, k, e, issuedAt);
    hide HasGrant;
    if r.Spent? {
      OneSpent(t, k, r.id);
    }
  }

  lemma OneSpent(t: Tables, k: ApprovalKey, id: Id)
    requires id in t.rows && !Placeholder(k)
    ensures var t' := SpendRow(t, k, id);
      && t'.rows == (if k.grant == Once then t.rows - {id} else t.rows)
      && t'.audit == t.audit + [AuditRow(ConsumedAudit, k.team, k.user, k.provider, Some(Selector(k)), t.rows[id].approvedBy)]
      && SessionsAfterUse(t, t', k)
      && t' == t.(rows := t'.rows, audit := t'.audit, sessions := t'.sessions)
  {
    hide Selector, KeepsBindings, SessionsAfterUse, TouchSession;
    var t1 := t.(rows := if k.grant == Once then Without(t.rows, id) else t.rows,
                 audit := t.audit + [AuditOf(ConsumedAudit, k, t.rows[id].approvedBy)]);
    UseTouches(t, t1, SpendRow(t, k, id), k);
  }

  // ---------------------------------------------------------------------------------------------
  // Sessions, cleanups and answers
  // ---------------------------------------------------------------------------------------------

  /** A begin keeps the scope's session exactly while it is live and, when bound, its member still holds the bound
      generation; otherwise it starts a fresh unbound one there for one idle period, and touches no other. */
  lemma BeginWrites(t: Tables, s: SessionScope, newId: Id)
    ensures var t' := BeginSession(t, s, newId);
      if SessionLive(t, s) && (t.sessions[s].binding.Some? ==>
           var member := (Base.Owner(s.team, UserOwned, t.sessions[s].binding.value.member), s.provider);
           member in t.live && t.live[member] == t.sessions[s].binding.value.credential)
      then t' == t
      else t' == t.(sessions := t.sessions[s := Session(newId, None, t.now + SESSION_IDLE_TTL)], minted := t.minted[newId := ForSession])
  {
  }

  /** The rows that a cleanup, a credential write or delete, or a governance change takes away. */
  ghost predicate Purges(t: Tables, op: Op, id: Id)
    requires id in t.rows
  {
    var k := t.rows[id].key;
    match op
    case DiscardPending(i) => i == id && t.rows[id].status == Pending
    case RevokeForUser(i) => k.team == i.team && k.user == i.user
    case Sweep => t.rows[id].expiresAt < t.now
    case WriteCredential(o, p, _) => BoundUnder(k, o, p)
    case DropCredential(o, p, purge) => purge && BoundUnder(k, o, p)
    case SetActsAs(c, who) => InTuple(k, c) && (if c in t.actsAs then t.actsAs[c] else Person) != who
    case SetTool(c, enabled) => InTuple(k, c) && (c in t.tools && t.tools[c]) != enabled
    case _ => false
  }

  /** The row runs under this owner's credential, or in the channel whose own credential it is. */
  ghost predicate BoundUnder(k: ApprovalKey, o: Owner, provider: string) {
    || (k.team == o.team && k.ownerKind == o.kind && k.ownerId == o.id && k.provider == provider)
    || (o.kind == ChannelOwned && InTuple(k, Tuple(o.team, o.id, provider)))
  }

  ghost predicate InTuple(k: ApprovalKey, c: Tuple) {
    k.team == c.team && (if k.channel.Some? then k.channel.value else "") == c.channel && k.provider == c.provider
  }

  ghost predicate EndsSession(t: Tables, op: Op, s: SessionScope)
    requires s in t.sessions
  {
    match op
    case RevokeForUser(i) =>
      s.team == i.team && (s.worker == i.user || (t.sessions[s].binding.Some? && t.sessions[s].binding.value.member == i.user))
    case Sweep => t.sessions[s].expiresAt <= t.now
    case _ => false
  }

  ghost predicate TakesAway(op: Op) {
    op.DiscardPending? || op.RevokeForUser? || op.Sweep? || op.WriteCredential? || op.DropCredential? || op.SetActsAs? || op.SetTool?
  }

  /** Cleanups and governance writes take away exactly the rows they are for and change none of the others. */
  lemma CleanupExact(cfg: Config, t: Tables, op: Op)
    requires TakesAway(op)
    ensures var t' := Apply(cfg, t, op).0;
      && (forall i :: i in t'.rows <==> i in t.rows && !Purges(t, op, i))
      && (forall i :: i in t'.rows ==> t'.rows[i] == t.rows[i])
      && t'.audit == t.audit && t'.now == t.now && t'.tombs == t.tombs
  {
    hide Purges, Apply;
    if op.WriteCredential? || op.DropCredential? {
      GenerationPurges(cfg, t, op);
    } else {
      OthersPurge(cfg, t, op);
    }
  }

  lemma GenerationPurges(cfg: Config, t: Tables, op: Op)
    requires op.WriteCredential? || op.DropCredential?
    ensures var t' := Apply(cfg, t, op).0;
      && (forall i :: i in t'.rows <==> i in t.rows && !Purges(t, op, i))
      && (forall i :: i in t'.rows ==> t'.rows[i] == t.rows[i])
      && t'.audit == t.audit && t'.now == t.now && t'.tombs == t.tombs
  {
    hide Request, Decide, Consume, BeginSession, FenceStep, KeepsBindings, Lapsed, SessionsWithoutUser, LiveSessions, ExpiredAudit, Selector;
    hide WithoutUser, WithoutExpired, Without, ActingAs, ToolEnabled;
  }

  lemma OthersPurge(cfg: Config, t: Tables, op: Op)
    requires TakesAway(op) && !op.WriteCredential? && !op.DropCredential?
    ensures var t' := Apply(cfg, t, op).0;
      && (forall i :: i in t'.rows <==> i in t.rows && !Purges(t, op, i))
      && (forall i :: i in t'.rows ==> t'.rows[i] == t.rows[i])
      && t'.audit == t.audit && t'.now == t.now && t'.tombs == t.tombs
  {
    hide Purges, Apply;
    if op.SetActsAs? || op.SetTool? {
      GovernancePurges(cfg, t, op);
    } else if op.RevokeForUser? {
      LeaverPurges(cfg, t, op);
    } else if op.Sweep? {
      SweepPurges(cfg, t, op);
    } else {
      DiscardPurges(cfg, t, op);
    }
  }

  lemma GovernancePurges(cfg: Config, t: Tables, op: Op)
    requires op.SetActsAs? || op.SetTool?
    ensures var t' := Apply(cfg, t, op).0;
      && (forall i :: i in t'.rows <==> i in t.rows && !Purges(t, op, i))
      && (forall i :: i in t'.rows ==> t'.rows[i] == t.rows[i])
      && t'.audit == t.audit && t'.now == t.now && t'.tombs == t.tombs
  {
    hide Request, Decide, Consume, BeginSession, FenceStep, KeepsBindings, Lapsed, SessionsWithoutUser, LiveSessions, ExpiredAudit, Selector;
    hide PurgeCredentialRows, BoundUnder, WithoutUser, WithoutExpired, Without;
  }

  lemma SweepPurges(cfg: Config, t: Tables, op: Op)
    requires op.Sweep?
    ensures var t' := Apply(cfg, t, op).0;
      && (forall i :: i in t'.rows <==> i in t.rows && !Purges(t, op, i))
      && (forall i :: i in t'.rows ==> t'.rows[i] == t.rows[i])
      && t'.audit == t.audit && t'.now == t.now && t'.tombs == t.tombs
  {
    hide Request, Decide, Consume, BeginSession, FenceStep, KeepsBindings, Lapsed, SessionsWithoutUser, LiveSessions, ExpiredAudit, Selector;
    hide PurgeCredentialRows, BoundUnder, InTuple, WithoutTuple, ActingAs, ToolEnabled, WithoutUser, Without;
  }

  lemma DiscardPurges(cfg: Config, t: Tables, op: Op)
    requires op.DiscardPending?
    ensures var t' := Apply(cfg, t, op).0;
      && (forall i :: i in t'.rows <==> i in t.rows && !Purges(t, op, i))
      && (forall i :: i in t'.rows ==> t'.rows[i] == t.rows[i])
      && t'.audit == t.audit && t'.now == t.now && t'.tombs == t.tombs
  {
    hide Request, Decide, Consume, BeginSession, FenceStep, KeepsBindings, Lapsed, SessionsWithoutUser, LiveSessions, ExpiredAudit, Selector;
    hide PurgeCredentialRows, BoundUnder, InTuple, WithoutTuple, ActingAs, ToolEnabled, WithoutExpired, WithoutUser;
  }

  lemma LeaverPurges(cfg: Config, t: Tables, op: Op)
    requires op.RevokeForUser?
    ensures var t' := Apply(cfg, t, op).0;
      && (forall i :: i in t'.rows <==> i in t.rows && !Purges(t, op, i))
      && (forall i :: i in t'.rows ==> t'.rows[i] == t.rows[i])
      && t'.audit == t.audit && t'.now == t.now && t'.tombs == t.tombs
  {
    hide Request, Decide, Consume, BeginSession, FenceStep, KeepsBindings, Lapsed, SessionsWithoutUser, LiveSessions, ExpiredAudit, Selector;
    hide PurgeCredentialRows, BoundUnder, InTuple, WithoutTuple, ActingAs, ToolEnabled, WithoutExpired, Without;
  }

  /** And exactly the sessions. */
  lemma CleanupEndsSessions(cfg: Config, t: Tables, op: Op)
    requires TakesAway(op)
    ensures var t' := Apply(cfg, t, op).0;
      && (forall s :: s in t'.sessions <==> s in t.sessions && !EndsSession(t, op, s))
      && (forall s :: s in t'.sessions ==> t'.sessions[s] == t.sessions[s])
  {
    hide Request, Decide, Consume, BeginSession, FenceStep, KeepsBindings, Lapsed, WithoutUser, WithoutTuple, PurgeCredentialRows, WithoutExpired;
    hide Without, ExpiredAudit, Selector;
  }

  /** A sweep takes this prompt or grant, which nobody denied. */
  ghost predicate Owes(t: Tables, op: Op, id: Id) {
    op.Sweep? && id in t.rows && t.rows[id].expiresAt < t.now && t.rows[id].status != Denied
  }

  /** And what they are for besides: exactly one generation, identity or tool row is written, and a sweep owes an expiry row
      for exactly the prompts and grants it took. */
  lemma CleanupFacts(cfg: Config, t: Tables, op: Op)
    requires TakesAway(op)
    ensures var t' := Apply(cfg, t, op).0;
      && t'.live == (match op case WriteCredential(o, p, newId) => t.live[(o, p) := newId] case DropCredential(o, p, _) => t.live - {(o, p)} case _ => t.live)
      && t'.actsAs == (match op case SetActsAs(c, who) => t.actsAs[c := who] case _ => t.actsAs)
      && t'.tools == (match op case SetTool(c, enabled) => t.tools[c := enabled] case _ => t.tools)
      && (forall i :: i in t'.owed <==> i in t.owed || Owes(t, op, i))
      && (forall i :: i in t'.owed ==> t'.owed[i] == if Owes(t, op, i) then t.rows[i] else t.owed[i])
  {
    hide Request, Decide, Consume, BeginSession, FenceStep, KeepsBindings, WithoutUser, WithoutTuple, PurgeCredentialRows, WithoutExpired;
    hide Without, ExpiredAudit, Selector, LiveSessions, SessionsWithoutUser, ActingAs, ToolEnabled;
  }

  /** What the requester reads, and nobody else: denied until the row is swept, otherwise expired from its expiry on,
      otherwise what was decided. */
  lemma StatusExact(t: Tables, id: Id, team: string, user: string)
    ensures var s := AuthorizationStatus(t, id, team, user);
      && (s.Some? <==> id in t.rows && t.rows[id].key.team == team && t.rows[id].key.user == user)
      && (s == Some(PollDenied) ==> t.rows[id].status == Denied)
      && (s == Some(PollExpired) ==> t.rows[id].status != Denied && t.now >= t.rows[id].expiresAt)
      && (s == Some(PollApproved) ==> t.rows[id].status == Granted && t.now < t.rows[id].expiresAt)
      && (s == Some(PollPending) ==> t.rows[id].status == Pending && t.now < t.rows[id].expiresAt)
  {
  }
}
