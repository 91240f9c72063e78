/** The approval and worker-session tables, updated in place statement by statement as the source's
    transactions do, each proved against the step of the model it implements. */
module ApprovalStore {
  import opened Base
  import opened Fences
  import opened ActionKey
  import opened ApprovalModel
  import opened ApprovalInvariant
  import opened ApprovalExact

  class ApprovalTables {
    const cfg: Config
    var now: int
    var minted: map<Id, Mint>
    var rows: map<Id, Row>
    var sessions: map<SessionScope, Session>
    var live: map<(Owner, string), Id>
    var actsAs: map<Tuple, ActsAs>
    var tools: map<Tuple, bool>
    var tombs: Tombstones
    var audit: seq<AuditRow>
    var owed: map<Id, Row>

    constructor (cfg: Config, now: int)
      ensures this.cfg == cfg && View().now == now && Init(View())
    {
      this.cfg := cfg;
      this.now := now;
      minted, rows, sessions, live, actsAs, tools := map[], map[], map[], map[], map[], map[];
      tombs := NO_TOMBSTONES;
      audit := [];
      owed := map[];
    }

    function View(): Tables
      reads this
    {
      Tables(now, minted, rows, sessions, live, actsAs, tools, tombs, audit, owed)
    }

    ghost predicate Valid()
      reads this
    {
      Inv(cfg, View())
    }

    /** SELECT by the unique action index. */
    method FindAction(actionKey: string) returns (id: Option<Id>)
      requires UniqueActions(rows)
      ensures id == if HasAction(rows, actionKey) then Some(RowOf(rows, actionKey)) else None
    {
      id := None;
      if i :| i in rows && rows[i].actionKey == actionKey {
        id := Some(i);
      }
    }

    // -------------------------------------------------------------------------------------------
    // Request
    // -------------------------------------------------------------------------------------------

    /** INSERT ... ON CONFLICT(action_key) DO UPDATE ... WHERE the stored row is lapsed or denied. */
    method InsertOrRenew(k: ApprovalKey, newId: Id) returns (created: bool)
      requires UniqueActions(rows)
      modifies this`rows, this`minted
      ensures var (t, r) := RequestOn(old(View()), k, newId); created == r.Created? && View() == t
    {
      var actionKey := ApprovalActionKey(k);
      var existing := FindAction(actionKey);
      if existing.None? {
        rows := rows[newId := FreshRow(k, now)];
      } else {
        var row := rows[existing.value];
        if !Replaceable(row, k, now) {
          return false;
        }
        rows := Without(rows, existing.value)[newId := Renewed(row, k, now)];
      }
      minted := minted[newId := ForApproval];
      return true;
    }

    method FindReusable(k: ApprovalKey) returns (id: Option<Id>)
      requires UniqueActions(rows)
      ensures id == if HasAction(rows, Selector(k)) && Reusable(rows[RowOf(rows, Selector(k))], k, now)
                    then Some(RowOf(rows, Selector(k))) else None
    {
      var actionKey := ApprovalActionKey(k);
      id := FindAction(actionKey);
      if id.Some? && !Reusable(rows[id.value], k, now) {
        id := None;
      }
    }

    /** Other replicas commit: the next statement finds these tables. */
    method Advance(t: Tables)
      modifies this
      ensures View() == t
    {
      now, minted, rows, sessions, live := t.now, t.minted, t.rows, t.sessions, t.live;
      actsAs, tools, tombs, audit, owed := t.actsAs, t.tools, t.tombs, t.audit, t.owed;
    }

    /** Insert or reuse the one live row of an action, whatever others commit between the statements: a row
        that one attempt can neither replace nor reuse may lapse or be decided before the next. What the
        call writes or returns is one atomic request at one of its statements. */
    method RequestRow(k: ApprovalKey, newIds: seq<Id>, found: seq<Tables>) returns (r: RequestResult)
      requires |newIds| == 3 && |found| == 6 && forall i :: 0 <= i < 6 ==> UniqueActions(found[i].rows)
      modifies this
      ensures r.Created? ==> exists a :: 0 <= a < 3 && (View(), r) == RequestOn(found[2 * a], k, newIds[a])
      ensures r.Reused? ==> exists a :: 0 <= a < 3 && View() == found[2 * a + 1] && (View(), r) == RequestOn(View(), k, newIds[a])
      ensures r.Unrecorded? ==> View() == found[5]
      ensures r.Unrecorded? ==> forall a :: 0 <= a < 3 ==>
        !RequestOn(found[2 * a], k, newIds[a]).1.Created? && !RequestOn(found[2 * a + 1], k, newIds[a]).1.Reused?
      ensures !r.Refused?
    {
      hide Selector;
      var attempt := 0;
      while attempt < 3
        invariant 0 <= attempt <= 3 && (attempt == 3 ==> View() == found[5])
        invariant forall a :: 0 <= a < attempt ==>
          !RequestOn(found[2 * a], k, newIds[a]).1.Created? && !RequestOn(found[2 * a + 1], k, newIds[a]).1.Reused?
      {
        Advance(found[2 * attempt]);
        var created := InsertOrRenew(k, newIds[attempt]);
        if created {
          return Created(newIds[attempt]);
        }
        Advance(found[2 * attempt + 1]);
        var reused := FindReusable(k);
        if reused.Some? {
          return Reused(reused.value);
        }
        attempt := attempt + 1;
      }
      return Unrecorded;
    }

    /** `requestAudited` under the credential locks: generation, authorization, then the row and its audit
        companion in one transaction. */
    method RequestAudited(k: ApprovalKey, enterprise: Option<EnterpriseId>, issuedAt: int, newId: Id) returns (r: RequestResult)
      requires Valid() && Enabled(View(), RequestOp(k, enterprise, issuedAt, newId))
      modifies this
      ensures (View(), r) == Request(cfg, old(View()), k, enterprise, issuedAt, newId) && Valid()
      ensures r == Refused(UseCredential) <==> !StillMinted(old(View()), k)
      ensures r == Refused(UseAuthorization) <==>
        StillMinted(old(View()), k) && !(AsksApproval(cfg, k) && Usable(cfg, old(View()), k, enterprise, issuedAt))
      ensures r.Created? <==> (
        && Requestable(cfg, old(View()), k, enterprise, issuedAt)
        && forall i :: i in old(rows) && SameRequest(old(rows)[i], k) ==> Yields(old(rows)[i], k, now))
      ensures r.Created? ==> newId in rows && rows[newId] == Row(k, Selector(k), Pending, None, now, now + PENDING_TTL)
      ensures r.Created? ==> audit == old(audit) + [AuditRow(RequestedAudit, k.team, k.user, k.provider, Some(Selector(k)), None)]
      ensures r.Reused? ==> r.id in rows && MatchesRow(rows[r.id].key, k) && !Over(rows[r.id], now)
      ensures !r.Created? ==> View() == old(View())
    {
      hide Usable, StillMinted, Requestable, MatchesRow, SameSelected, Request;
      RequestAnswers(cfg, View(), k, enterprise, issuedAt, newId);
      RequestWrites(cfg, View(), k, enterprise, issuedAt, newId);
      RequestKeepsInv(cfg, View(), k, enterprise, issuedAt, newId);
      r := Ask(k, enterprise, issuedAt, newId);
    }

    /** Its statements. */
    method Ask(k: ApprovalKey, enterprise: Option<EnterpriseId>, issuedAt: int, newId: Id) returns (r: RequestResult)
      requires UniqueActions(rows)
      modifies this`rows, this`minted, this`audit
      ensures (View(), r) == Request(cfg, old(View()), k, enterprise, issuedAt, newId)
    {
      hide Selector, CredentialUse, GenerationLive, Replaceable, Reusable, Renewed, RowFits, SessionsFit, LiveFits, AuditOf, Covered, KeyFits, Displaced, GovernanceScope;
      if !GenerationLive(View(), k) {
        return Refused(UseCredential);
      }
      if !Covered(cfg, k) || CredentialUse(cfg, View(), k, enterprise, issuedAt) != UseCurrent {
        return Refused(UseAuthorization);
      }
      if !GovernanceScope(k.channel, k.governable) {
        return Unrecorded;
      }
      var created := InsertOrRenew(k, newId);
      if created {
        audit := audit + [AuditOf(RequestedAudit, k, None)];
        return Created(newId);
      }
      var found := FindReusable(k);
      return if found.Some? then Reused(found.value) else Unrecorded;
    }

    // -------------------------------------------------------------------------------------------
    // Consume
    // -------------------------------------------------------------------------------------------

    method LiveGrant(k: ApprovalKey) returns (id: Option<Id>)
      requires UniqueActions(rows)
      ensures id == if HasGrant(View(), k) then Some(RowOf(rows, Selector(k))) else None
    {
      var actionKey := ApprovalActionKey(k);
      id := FindAction(actionKey);
      if id.Some? && !Spendable(rows[id.value], k, now) {
        id := None;
      }
    }

    /** The bound member's activity extends the idle lifetime, never past the absolute cap. */
    method TouchWorkerSession(s: SessionScope)
      modifies this`sessions
      ensures View() == TouchSession(old(View()), s)
    {
      if s in sessions && sessions[s].expiresAt > now {
        sessions := sessions[s := Touched(sessions[s], now)];
      }
    }

    /** Spend one exact grant and write its audit row atomically. */
    method ConsumeAudited(k: ApprovalKey, enterprise: Option<EnterpriseId>, issuedAt: int) returns (r: ConsumeResult)
      requires Valid()
      modifies this
      ensures (View(), r) == Consume(cfg, old(View()), k, enterprise, issuedAt) && Valid()
      ensures r.Spent? <==> AsksApproval(cfg, k) && Usable(cfg, old(View()), k, enterprise, issuedAt) && exists i :: Finds(old(View()), k, enterprise, i)
      ensures r.Spent? ==> GrantsKey(old(View()), r.id, k) && r.approvedBy == old(rows)[r.id].approvedBy
      ensures r.Spent? ==> rows == (if k.grant == Once then old(rows) - {r.id} else old(rows)) && SessionsAfterUse(old(View()), View(), k)
      ensures r.Spent? ==> audit == old(audit) + [AuditRow(ConsumedAudit, k.team, k.user, k.provider, Some(Selector(k)), r.approvedBy)]
      ensures r == Changed(UseCredential) <==> !Placeholder(k) && !HoldsGeneration(old(View()), k)
      ensures !r.Spent? ==> audit == old(audit) && sessions == old(sessions) && (r.Changed? ==> rows == old(rows))
    {
      hide Consume, Usable, AsksApproval, Finds, GrantsKey, SessionsAfterUse, HoldsGeneration, Inv, Selector;
      SpendAnswers(cfg, View(), k, enterprise, issuedAt);
      SpendWrites(cfg, View(), k, enterprise, issuedAt);
      ConsumeKeepsInv(cfg, View(), k, enterprise, issuedAt);
      InvUnique(cfg, View());
      r := SpendIt(k, enterprise, issuedAt);
    }

    /** Its statements. */
    method SpendIt(k: ApprovalKey, enterprise: Option<EnterpriseId>, issuedAt: int) returns (r: ConsumeResult)
      requires UniqueActions(rows)
      modifies this`rows, this`sessions, this`audit
      ensures (View(), r) == Consume(cfg, old(View()), k, enterprise, issuedAt)
    {
      hide Selector, CredentialUse, SpendersCurrent, RowFits, SessionsFit, LiveFits, KeepsBindings, AuditOf, Covered, Spendable, SubRows, SpendRow;
      if DelegationOf(k) == Unbound {
        return NoGrant;
      }
      if LiveId(View(), k.Owner(), k.provider) != Some(k.credential) {
        return Changed(UseCredential);
      }
      var candidate := LiveGrant(k);
      if candidate.None? {
        return NoGrant;
      }
      var id := candidate.value;
      if !SpendersCurrent(View(), k, enterprise, rows[id].createdAt) {
        rows := Without(rows, id);
        return NoGrant;
      }
      if !Covered(cfg, k) || CredentialUse(cfg, View(), k, enterprise, issuedAt) != UseCurrent {
        return Changed(UseAuthorization);
      }
      var approvedBy := rows[id].approvedBy;
      SpendGrant(k, id);
      return Spent(id, approvedBy);
    }

    /** The writes of a spend: only a once grant is used up, and the bound member's session is touched. */
    method SpendGrant(k: ApprovalKey, id: Id)
      requires id in rows
      modifies this`rows, this`sessions, this`audit
      ensures View() == SpendRow(old(View()), k, id)
      ensures (k.grant == Once <==> id !in rows) && audit == old(audit) + [AuditOf(ConsumedAudit, k, old(rows)[id].approvedBy)]
    {
      hide Selector, AuditOf;
      var approvedBy := rows[id].approvedBy;
      if k.grant == Once {
        rows := Without(rows, id);
      }
      audit := audit + [AuditOf(ConsumedAudit, k, approvedBy)];
      if DelegationOf(k) == Bound && k.channel.Some? {
        TouchWorkerSession(ScopeOf(k, k.channel.value));
      }
    }

    // -------------------------------------------------------------------------------------------
    // Decide
    // -------------------------------------------------------------------------------------------

    /** UPDATE worker_session ... WHERE id=? AND unbound AND live. It binds the one scope that holds the
        placeholder, to the member and the generation they hold, for one idle period from now; or nothing,
        when the session was bound, replaced or expired. */
    method BindWorkerSession(id: Id, member: string, credential: Id) returns (bound: bool)
      requires SessionsFit(View())
      modifies this`sessions
      ensures !bound ==> sessions == old(sessions) && !UnboundSessionLive(View(), id)
      ensures bound ==> exists s :: (
        && s in old(sessions) && old(sessions)[s].id == id && old(sessions)[s].binding.None? && old(sessions)[s].expiresAt > now
        && sessions == old(sessions)[s := Session(id, Some(Binding(member, credential, now)), now + SESSION_IDLE_TTL)])
    {
      bound := false;
      if s :| s in sessions && sessions[s].id == id && sessions[s].binding.None? && sessions[s].expiresAt > now {
        sessions := sessions[s := Session(id, Some(Binding(member, credential, now)), now + SESSION_IDLE_TTL)];
        bound := true;
      } else {
        assert !UnboundSessionLive(View(), id);
      }
    }

    /** UPDATE ... SET status='granted', together with the decision's audit row. */
    method Grant(id: Id, key: ApprovalKey, approver: string, ttl: nat)
      requires id in rows
      modifies this`rows, this`audit
      ensures View() == GrantRow(old(View()), id, key, approver, ttl)
    {
      var actionKey := ApprovalActionKey(key);
      rows := rows[id := Row(key, actionKey, Granted, Some(approver), rows[id].createdAt, now + ttl)];
      audit := audit + [AuditOf(ApprovedAudit, key, Some(approver))];
    }

    /** The locked decision: fences first, then the validator, then bind, re-key and grant, or deny. */
    method DecideAudited(c: Click) returns (d: Decision)
      requires SessionsFit(View()) && PendingLive(View(), c.id) && Covered(cfg, rows[c.id].key)
      requires Delegating(c, rows[c.id].key) ==> c.seenCredential.Some?
      modifies this
      ensures (View(), d) == DecideFenced(cfg, old(View()), c)
      ensures d.ActorStale? <==> !ActorCurrent(old(View()), c)
      ensures d.Invalidated? <==> ActorCurrent(old(View()), c) && !RowStands(cfg, old(View()), c)
      ensures d.Approve? || d.Deny? <==> (
        && ActorCurrent(old(View()), c) && RowStands(cfg, old(View()), c)
        && StillLends(old(View()), c) && MayDecide(cfg, c, old(rows)[c.id].key))
      ensures (d.Approve? ==> c.approve) && (d.Deny? ==> !c.approve)
    {
      hide DecideFenced, RowStands, ActorCurrent, MayDecide, StillLends, SessionsFit;
      FencedAnswers(cfg, View(), c);
      d := DecideLocked(c);
    }

    /** Its statements. */
    method DecideLocked(c: Click) returns (d: Decision)
      requires SessionsFit(View()) && PendingLive(View(), c.id) && Covered(cfg, rows[c.id].key)
      requires Delegating(c, rows[c.id].key) ==> c.seenCredential.Some?
      modifies this
      ensures (View(), d) == DecideFenced(cfg, old(View()), c)
    {
      hide Selector, Validate, Current, SessionsFit, KeepsBindings, ApproveUnbound, ApproveRow, AuditOf, SameFacts;
      var row := rows[c.id];
      var k := row.key;
      if !Current(tombs, c.actor, c.issuedAt) {
        return ActorStale;
      }
      if !Current(tombs, UserIdentity(c.actor.enterprise, k), row.createdAt) {
        rows := Without(rows, c.id);
        return Invalidated;
      }
      var validity := Validate(cfg, View(), c, row);
      if validity == Invalid {
        rows := Without(rows, c.id);
        return Invalidated;
      }
      if validity == Ineligible {
        return IneligibleClick;
      }
      var ttl := cfg.rules[k.provider].ttl;
      if !c.approve {
        rows := rows[c.id := row.(status := Denied, approvedBy := Some(c.actor.user), expiresAt := now + PENDING_TTL)];
        audit := audit + [AuditOf(DeniedAudit(ApprovalDenied), k, Some(c.actor.user))];
        return Deny;
      }
      if DelegationOf(k) == Unbound {
        d := BindAndGrant(c, ttl);
      } else {
        d := GrantAndTouch(c, ttl);
      }
    }

    /** A placeholder: bind first, so that a stale click writes nothing; then the older unspent grant of this
        exact action under the member's credential yields, and the row is re-keyed and granted. */
    method BindAndGrant(c: Click, ttl: nat) returns (d: Decision)
      requires SessionsFit(View()) && c.id in rows && c.seenCredential.Some?
      modifies this
      ensures (View(), d) == ApproveUnbound(old(View()), c, ttl)
    {
      hide Selector, SessionsFit, KeepsBindings, BindSession, UnboundSessionLive;
      var k := rows[c.id].key;
      var key := Rekeyed(k, c.actor.user, c.seenCredential.value);
      ghost var before := View();
      var bound := BindWorkerSession(k.credential, c.actor.user, c.seenCredential.value);
      if !bound {
        return Stale;
      }
      BoundOneScope(before, sessions, k.credential, c.actor.user, c.seenCredential.value);
      var actionKey := ApprovalActionKey(key);
      rows := WithoutTwins(rows, actionKey, c.id);
      Grant(c.id, key, c.actor.user, ttl);
      return Approve(now + ttl);
    }

    method GrantAndTouch(c: Click, ttl: nat) returns (d: Decision)
      requires c.id in rows
      modifies this
      ensures (View(), d) == ApproveRow(old(View()), c, ttl)
    {
      hide Selector, KeepsBindings, TouchSession;
      var k := rows[c.id].key;
      Grant(c.id, k, c.actor.user, ttl);
      if DelegationOf(k) == Bound && k.channel.Some? {
        TouchWorkerSession(ScopeOf(k, k.channel.value));
      }
      return Approve(now + ttl);
    }

    /** One Approve or Deny click, with what its answer means for the row and the trail. */
    method HandleApprovalDecision(c: Click) returns (d: Decision)
      requires Valid()
      modifies this
      ensures (View(), d) == Decide(cfg, old(View()), c) && Valid()
      ensures d.Approve? <==> c.approve && Decides(cfg, old(View()), c)
      ensures d.Deny? <==> !c.approve && Decides(cfg, old(View()), c)
      ensures d.IneligibleClick? <==> (
        && Reaches(cfg, old(View()), c) && ActorCurrent(old(View()), c) && RowStands(cfg, old(View()), c)
        && !(StillLends(old(View()), c) && MayDecide(cfg, c, old(rows)[c.id].key)))
      ensures d.Stale? <==> !Addressed(old(View()), c)
      ensures d.Approve? ==> Reaches(cfg, old(View()), c) && Approved(cfg, old(View()), View(), c, d.expiresAt) && GrantFits(cfg, rows[c.id])
      ensures d.Deny? ==> c.id in old(rows) && View() == DeniedOnly(old(View()), c)
      ensures d.IneligibleClick? ==> c.id in old(rows) && View() == NotedOnly(old(View()), c)
      ensures d.Invalidated? || d.RuleGone? ==> View() == old(View()).(rows := old(rows) - {c.id})
      ensures d.Stale? || d.NotEligible? || d.NeedsConnection? || d.ActorStale? ==> View() == old(View())
    {
      hide Decide, RowsFit, SessionsFit, LiveFits, GrantFits, Decides, Reaches, RowStands, StillLends, MayDecide, Approved, Addressed;
      hide DeniedOnly, NotedOnly, Usable, SameFacts, ActorCurrent;
      DecideKeepsInv(cfg, View(), c);
      ClickAnswers(cfg, View(), c);
      ClickWrites(cfg, View(), c);
      ClickFits(cfg, View(), c);
      d := DecideClick(c);
    }

    /** The handler's early returns, in order, then the locked decision. */
    method DecideClick(c: Click) returns (d: Decision)
      requires SessionsFit(View())
      modifies this
      ensures (View(), d) == Decide(cfg, old(View()), c)
    {
      hide SessionsFit, DecideFenced, KeepsBindings, NotApproverAudit, SameFacts, Covered;
      if !PendingLive(View(), c.id) {
        return Stale;
      }
      var k := rows[c.id].key;
      if k.team != c.actor.team || (k.channel.Some? && !c.atRow) {
        return Stale;
      }
      if !Covered(cfg, k) {
        rows := Without(rows, c.id);
        return RuleGone;
      }
      if DelegationOf(k) == Unbound && c.approve {
        if k.channel.None? || c.actor.user == k.user {
          return NotEligible;
        }
        if c.seenCredential.None? {
          return if c.actorInChannel then NeedsConnection else NotEligible;
        }
      }
      d := DecideAudited(c);
      if d == IneligibleClick {
        audit := audit + [NotApproverAudit(c.actor, k.provider)];
      }
    }

    // -------------------------------------------------------------------------------------------
    // Sessions, cleanup and status
    // -------------------------------------------------------------------------------------------

    /** Best-effort offboarding cleanup. */
    method RevokeUser(i: Identity)
      requires Valid()
      modifies this
      ensures View() == Apply(cfg, old(View()), RevokeForUser(i)).0 && Valid()
      ensures forall id :: id in rows <==> id in old(rows) && !(old(rows)[id].key.team == i.team && old(rows)[id].key.user == i.user)
      ensures forall s :: s in sessions <==> s in old(sessions) && !EndsSession(old(View()), RevokeForUser(i), s)
    {
      CleanupExact(cfg, View(), RevokeForUser(i));
      CleanupEndsSessions(cfg, View(), RevokeForUser(i));
      hide Inv, Request, Decide, Consume, BeginSession, FenceStep, KeepsBindings, SameFacts;
      StepKeepsInv(cfg, View(), RevokeForUser(i));
      rows := WithoutUser(rows, i.team, i.user);
      sessions := SessionsWithoutUser(sessions, i);
    }

    /** DELETE ... RETURNING: exactly the lapsed rows, of which the prompts and grants now owe an audit row. */
    method DeleteLapsed() returns (swept: map<Id, Row>)
      modifies this`rows, this`owed
      ensures rows == WithoutExpired(old(rows), now) && owed == old(owed) + Lapsed(old(rows), now)
      ensures forall id :: id in swept <==> id in old(rows) && id !in rows
      ensures forall id :: id in swept ==> swept[id] == old(rows)[id] && swept[id].expiresAt < now
      ensures forall id :: id in swept && swept[id].status != Denied ==> id in owed && owed[id] == swept[id]
    {
      swept := map id | id in rows && rows[id].expiresAt < now :: rows[id];
      owed := owed + Lapsed(rows, now);
      rows := WithoutExpired(rows, now);
    }

    /** The sweep of approvals, then of idled-out sessions. */
    method SweepExpired() returns (swept: map<Id, Row>)
      requires Valid()
      modifies this
      ensures View() == Apply(cfg, old(View()), Sweep).0 && Valid()
      ensures forall id :: id in swept <==> id in old(rows) && old(rows)[id].expiresAt < now
      ensures forall id :: id in rows <==> id in old(rows) && id !in swept
      ensures forall id :: id in swept && swept[id].status != Denied ==> id in owed && owed[id] == swept[id]
      ensures forall s :: s in sessions <==> s in old(sessions) && old(sessions)[s].expiresAt > now
    {
      SweepTakes(cfg, View());
      hide Inv, Apply, WithoutExpired, LiveSessions, Lapsed;
      StepKeepsInv(cfg, View(), Sweep);
      ApplySweep(cfg, View());
      swept := DeleteLapsed();
      sessions := LiveSessions(sessions, now);
    }

    /** The sweeper's loop over what it swept: one expiry row per prompt or grant, in some order, and none for
        a retained denial. */
    method AuditExpiries(swept: map<Id, Row>) returns (ghost order: seq<Id>)
      requires forall id :: id in swept && swept[id].status != Denied ==> id in owed && owed[id] == swept[id]
      modifies this`audit, this`owed
      ensures forall a, b :: 0 <= a < b < |order| ==> order[a] != order[b]
      ensures forall id :: id in order <==> id in swept && swept[id].status != Denied
      ensures audit == old(audit) + ExpiryRows(swept, order)
      ensures owed == old(owed) - (set id | id in order)
    {
      hide ExpiredAudit, ExpiryRows;
      order := [];
      assert ExpiryRows(swept, order) == [] by {
        NoExpiryRows(swept);
      }
      var rest := swept.Keys;
      while rest != {}
        invariant rest <= swept.Keys
        invariant forall a, b :: 0 <= a < b < |order| ==> order[a] != order[b]
        invariant forall id :: id in order <==> id in swept.Keys - rest && swept[id].status != Denied
        invariant audit == old(audit) + ExpiryRows(swept, order)
        invariant owed == old(owed) - (set id | id in order)
      {
        var id :| id in rest;
        rest := rest - {id};
        if swept[id].status != Denied {
          audit := audit + [ExpiredAudit(swept[id])];
          owed := owed - {id};
          MoreExpiryRows(swept, order, id);
          order := order + [id];
        }
      }
    }

    /** A channel identity write; only a change purges what depended on the old identity. */
    method WriteChannelIdentity(c: Tuple, who: ActsAs)
      requires Valid()
      modifies this
      ensures View() == Apply(cfg, old(View()), SetActsAs(c, who)).0 && Valid()
      ensures actsAs == old(actsAs)[c := who]
      ensures forall id :: id in rows <==> id in old(rows) && !Purges(old(View()), SetActsAs(c, who), id)
    {
      hide Inv, Request, Decide, Consume, BeginSession, FenceStep, KeepsBindings, SameFacts, Purges, WithoutTuple, Selector, ToolEnabled;
      CleanupExact(cfg, View(), SetActsAs(c, who));
      StepKeepsInv(cfg, View(), SetActsAs(c, who));
      var previous := ActingAs(View(), c);
      actsAs := actsAs[c := who];
      if previous != who {
        rows := WithoutTuple(rows, c);
      }
    }

    /** A credential write mints a new generation and purges everything bound to the old one. */
    method WriteConnection(o: Owner, provider: string, newId: Id)
      requires Valid() && newId !in minted
      modifies this
      ensures View() == Apply(cfg, old(View()), WriteCredential(o, provider, newId)).0 && Valid()
      ensures live == old(live)[(o, provider) := newId]
      ensures forall id :: id in rows <==> id in old(rows) && !BoundUnder(old(rows)[id].key, o, provider)
    {
      hide Inv, Request, Decide, Consume, BeginSession, FenceStep, KeepsBindings, SameFacts, BoundUnder, WithoutTuple, WithoutOwner, Selector;
      CleanupExact(cfg, View(), WriteCredential(o, provider, newId));
      StepKeepsInv(cfg, View(), WriteCredential(o, provider, newId));
      live := live[(o, provider) := newId];
      minted := minted[newId := ForCredential];
      rows := WithoutOwner(rows, o, provider);
      if o.kind == ChannelOwned {
        rows := WithoutTuple(rows, Tuple(o.team, o.id, provider));
      }
    }
  }

  /** The audit rows of a list of swept rows. */
  ghost function ExpiryRows(swept: map<Id, Row>, order: seq<Id>): seq<AuditRow>
    requires forall id :: id in order ==> id in swept
  {
    if order == [] then []
    else ExpiryRows(swept, order[..|order| - 1]) + [ExpiredAudit(swept[order[|order| - 1]])]
  }

  lemma NoExpiryRows(swept: map<Id, Row>)
    ensures ExpiryRows(swept, []) == []
  {
  }

  lemma MoreExpiryRows(swept: map<Id, Row>, order: seq<Id>, id: Id)
    requires id in swept && forall i :: i in order ==> i in swept
    ensures ExpiryRows(swept, order + [id]) == ExpiryRows(swept, order) + [ExpiredAudit(swept[id])]
  {
    assert (order + [id])[..|order|] == order;
  }

  lemma InvUnique(cfg: Config, t: Tables)
    requires Inv(cfg, t)
    ensures UniqueActions(t.rows)
  {
  }

  lemma SweepTakes(cfg: Config, t: Tables)
    ensures var t' := Apply(cfg, t, Sweep).0;
      && (forall id :: id in t'.rows <==> id in t.rows && !(t.rows[id].expiresAt < t.now))
      && (forall s :: s in t'.sessions <==> s in t.sessions && t.sessions[s].expiresAt > t.now)
  {
    hide Apply;
    CleanupExact(cfg, t, Sweep);
    CleanupEndsSessions(cfg, t, Sweep);
  }

  lemma ApplySweep(cfg: Config, t: Tables)
    ensures Apply(cfg, t, Sweep).0 ==
      t.(rows := WithoutExpired(t.rows, t.now), sessions := LiveSessions(t.sessions, t.now), owed := t.owed + Lapsed(t.rows, t.now))
  {
    hide Lapsed, LiveSessions, WithoutExpired;
  }

  /** Session ids are unique, so binding the one scope found is binding by id. */
  lemma BoundOneScope(t: Tables, sessions: map<SessionScope, Session>, id: Id, member: string, credential: Id)
    requires SessionsFit(t)
    requires exists s :: (
      && s in t.sessions && t.sessions[s].id == id && t.sessions[s].binding.None? && t.sessions[s].expiresAt > t.now
      && sessions == t.sessions[s := Session(id, Some(Binding(member, credential, t.now)), t.now + SESSION_IDLE_TTL)])
    ensures UnboundSessionLive(t, id) && t.(sessions := sessions) == BindSession(t, id, member, credential)
  {
    hide SessionFits, KeepsBindings;
    var bound := BindSession(t, id, member, credential).sessions;
    assert sessions.Keys == bound.Keys;
    assert forall s :: s in sessions ==> sessions[s] == bound[s];
  }

  lemma DecideKeepsInv(cfg: Config, t: Tables, c: Click)
    requires Inv(cfg, t)
    ensures Inv(cfg, Decide(cfg, t, c).0)
  {
    hide RowsFit, SessionsFit, Decide;
    DecideKeepsRows(cfg, t, c);
    DecideKeepsSessions(cfg, t, c);
  }

  lemma ClickFits(cfg: Config, t: Tables, c: Click)
    requires Inv(cfg, t)
    ensures var (t', d) := Decide(cfg, t, c); d.Approve? ==> c.id in t'.rows && GrantFits(cfg, t'.rows[c.id])
    ensures Decide(cfg, t, c).1.IneligibleClick? ==> c.id in t.rows
  {
    hide Selector, Decide, RowsFit, SessionsFit, LiveFits, Validate, Covered, KeyFits, Delegating, GrantedKey;
    if Decide(cfg, t, c).1.Approve? {
      ApproveShapeHolds(cfg, t, c);
      ApproveFacts(cfg, t, c);
    } else {
      DecideOtherwise(cfg, t, c);
    }
  }
}
