/** What every reachable approval store satisfies, and that every transaction keeps it. */
module ApprovalInvariant {
  import opened Base
  import opened Fences
  import opened ActionKey
  import opened ApprovalModel

  /** The unique action index, which no statement may violate: the decision that re-keys a worker's row
      is the one that could. */
  ghost predicate UniqueActions(rows: map<Id, Row>) {
    forall i, j :: i in rows && j in rows && rows[i].actionKey == rows[j].actionKey ==> i == j
  }

  /** A delegated key carries a session placeholder exactly while the worker is its own owner; every other
      key carries a credential generation, and a user-owned ordinary key is the requester's own. */
  ghost predicate KeyFits(t: Tables, k: ApprovalKey) {
    && NormalKey(k) && k.credential in t.minted
    && if k.delegated then
         && k.ownerKind == UserOwned && k.governable.Some? && k.governable == k.channel
         && t.minted[k.credential] == (if k.ownerId == k.user then ForSession else ForCredential)
       else
         t.minted[k.credential] == ForCredential && (k.ownerKind == UserOwned ==> k.ownerId == k.user)
  }

  /** The approver of a grant fits the rule of its provider, and a placeholder is never granted. */
  ghost predicate GrantFits(cfg: Config, row: Row) {
    var k := row.key;
    && row.approvedBy.Some? && Covered(cfg, k)
    && match DelegationOf(k)
       case Unbound => false
       case Bound => row.approvedBy.value == k.ownerId && k.ownerId != k.user
       case Ordinary =>
         if EffectiveApprover(cfg.rules[k.provider].approver, k.ownerKind, k.governable) == SelfOnly
         then row.approvedBy.value == k.user
         else row.approvedBy.value != k.user && k.governable.Some?
  }

  ghost predicate RowFits(cfg: Config, t: Tables, row: Row) {
    && row.actionKey == Selector(row.key) && KeyFits(t, row.key) && row.createdAt <= t.now
    && (row.status == Granted ==> GrantFits(cfg, row))
  }

  ghost predicate RowsFit(cfg: Config, t: Tables) {
    && UniqueActions(t.rows)
    && (forall i :: i in t.rows ==> i in t.minted && t.minted[i] == ForApproval)
    && (forall i :: i in t.rows ==> RowFits(cfg, t, t.rows[i]))
  }

  /** A bound session never outlives its absolute cap and is never the worker's own. */
  ghost predicate SessionFits(t: Tables, s: SessionScope, w: Session) {
    && w.id in t.minted && t.minted[w.id] == ForSession
    && match w.binding
       case None => w.expiresAt <= t.now + SESSION_IDLE_TTL
       case Some(b) =>
         && b.member != s.worker && b.credential in t.minted && t.minted[b.credential] == ForCredential
         && b.at <= t.now && w.expiresAt <= b.at + SESSION_MAX_TTL
  }

  ghost predicate SessionsFit(t: Tables) {
    && (forall s :: s in t.sessions ==> SessionFits(t, s, t.sessions[s]))
    && (forall s, r :: s in t.sessions && r in t.sessions && t.sessions[s].id == t.sessions[r].id ==> s == r)
  }

  ghost predicate LiveFits(t: Tables) {
    && (forall o :: o in t.live ==> t.live[o] in t.minted && t.minted[t.live[o]] == ForCredential)
    && (forall o, p :: o in t.live && p in t.live && t.live[o] == t.live[p] ==> o == p)
  }

  ghost predicate Inv(cfg: Config, t: Tables) {
    RowsFit(cfg, t) && SessionsFit(t) && LiveFits(t)
  }

  // ---------------------------------------------------------------------------------------------
  // Frame lemmas
  // ---------------------------------------------------------------------------------------------

  /** Every id keeps what it was minted for and the clock does not run back. */
  ghost predicate Grows(t: Tables, t': Tables) {
    t.now <= t'.now && forall i :: i in t.minted ==> i in t'.minted && t'.minted[i] == t.minted[i]
  }

  ghost predicate SubRows(a: map<Id, Row>, b: map<Id, Row>) {
    forall i :: i in a ==> i in b && a[i] == b[i]
  }

  lemma FewerRowsFit(cfg: Config, t: Tables, t': Tables)
    requires RowsFit(cfg, t) && Grows(t, t') && SubRows(t'.rows, t.rows)
    ensures RowsFit(cfg, t')
  {
    forall i | i in t'.rows ensures RowFits(cfg, t', t'.rows[i]) {
      assert RowFits(cfg, t, t.rows[i]);
    }
  }

  lemma SameSessionsFit(t: Tables, t': Tables)
    requires SessionsFit(t) && Grows(t, t')
    requires forall s :: s in t'.sessions ==> s in t.sessions && t'.sessions[s] == t.sessions[s]
    ensures SessionsFit(t')
  {
    forall s | s in t'.sessions ensures SessionFits(t', s, t'.sessions[s]) {
      assert SessionFits(t, s, t.sessions[s]);
    }
  }

  /** A key that passes both request checks carries the sort of generation its flag says. */
  lemma CurrentUseFits(cfg: Config, t: Tables, k: ApprovalKey, e: Option<EnterpriseId>, issuedAt: int)
    requires Inv(cfg, t) && NormalKey(k) && GovernanceScope(k.channel, k.governable)
    requires GenerationLive(t, k) && CredentialUse(cfg, t, k, e, issuedAt) == UseCurrent
    ensures KeyFits(t, k)
  {
    if k.delegated {
      var s := ScopeOf(k, k.governable.value);
      assert SessionFor(t, s).Some?;
      assert SessionFits(t, s, t.sessions[s]);
      if DelegationOf(k) == Bound {
        var member := UserOwner(MemberIdentity(e, k));
        assert (member, k.provider) in t.live && (k.Owner(), k.provider) in t.live;
        assert member == k.Owner();
      }
    }
  }

  /** The conflict update never meets a row whose delegated flag disagrees with the key's. */
  lemma FlagNeverDisagrees(t: Tables, a: ApprovalKey, b: ApprovalKey)
    requires KeyFits(t, a) && KeyFits(t, b) && SameSelected(a, b)
    ensures a.delegated == b.delegated
  {
  }

  // ---------------------------------------------------------------------------------------------
  // Each transaction keeps the invariant
  // ---------------------------------------------------------------------------------------------

  /** Replacing one row by a row of the same action, under the same or a new id, keeps all rows fit. */
  lemma InsertFits(cfg: Config, t: Tables, t': Tables, id: Id, row: Row)
    requires RowsFit(cfg, t) && Grows(t, t') && id in t'.minted && t'.minted[id] == ForApproval
    requires t'.rows == t.rows[id := row] && RowFits(cfg, t', row)
    requires forall i :: i in t.rows && t.rows[i].actionKey == row.actionKey ==> i == id
    ensures RowsFit(cfg, t')
  {
    forall i | i in t'.rows ensures RowFits(cfg, t', t'.rows[i]) {
      if i != id {
        assert RowFits(cfg, t, t.rows[i]);
      }
    }
  }

  lemma RenewedKey(cfg: Config, t: Tables, k: ApprovalKey, id: Id)
    requires Inv(cfg, t) && KeyFits(t, k) && id in t.rows
    requires GovernanceScope(k.channel, k.governable)
    requires t.rows[id].actionKey == Selector(k) && Replaceable(t.rows[id], k, t.now)
    ensures Renewed(t.rows[id], k, t.now) == FreshRow(k, t.now)
  {
    var row := t.rows[id];
    assert RowFits(cfg, t, row);
    SelectorExact(row.key, k);
    FlagNeverDisagrees(t, row.key, k);
  }

  /** Creating a row removes at most the one row of the same action. */
  lemma RequestShape(cfg: Config, t: Tables, k: ApprovalKey, e: Option<EnterpriseId>, issuedAt: int, newId: Id)
    requires Inv(cfg, t) && newId !in t.minted && NormalKey(k)
    ensures var (t', r) := Request(cfg, t, k, e, issuedAt, newId);
      && (!r.Created? ==> t' == t)
      && (r.Created? ==>
          && r.id == newId && KeyFits(t, k) && GenerationLive(t, k) && Covered(cfg, k)
          && CredentialUse(cfg, t, k, e, issuedAt) == UseCurrent && GovernanceScope(k.channel, k.governable)
          && t'.rows == Displaced(t.rows, Selector(k))[newId := FreshRow(k, t.now)]
          && t' == t.(rows := t'.rows, minted := t.minted[newId := ForApproval], audit := t.audit + [AuditOf(RequestedAudit, k, None)]))
  {
    hide Selector, CredentialUse, GenerationLive, RowFits, KeyFits, SessionsFit, LiveFits, Renewed, Replaceable, Reusable;
    var (t', r) := Request(cfg, t, k, e, issuedAt, newId);
    if r.Created? {
      CurrentUseFits(cfg, t, k, e, issuedAt);
      if HasAction(t.rows, Selector(k)) {
        var id := RowOf(t.rows, Selector(k));
        RenewedKey(cfg, t, k, id);
        assert Displaced(t.rows, Selector(k)) == Without(t.rows, id);
      } else {
        assert Displaced(t.rows, Selector(k)) == t.rows;
      }
    }
  }

  function Displaced(rows: map<Id, Row>, actionKey: string): map<Id, Row> {
    map id | id in rows && rows[id].actionKey != actionKey :: rows[id]
  }

  lemma RequestKeepsInv(cfg: Config, t: Tables, k: ApprovalKey, e: Option<EnterpriseId>, issuedAt: int, newId: Id)
    requires Inv(cfg, t) && newId !in t.minted && NormalKey(k)
    ensures Inv(cfg, Request(cfg, t, k, e, issuedAt, newId).0)
  {
    hide Selector, CredentialUse, GenerationLive, GrantFits, SessionFits, Request;
    var (t', r) := Request(cfg, t, k, e, issuedAt, newId);
    RequestShape(cfg, t, k, e, issuedAt, newId);
    if r.Created? {
      var without := t.(rows := Displaced(t.rows, Selector(k)));
      FewerRowsFit(cfg, t, without);
      InsertFits(cfg, without, t', newId, FreshRow(k, t.now));
      SameSessionsFit(t, t');
    }
  }

  lemma TouchKeepsSessions(t: Tables, s: SessionScope)
    requires SessionsFit(t)
    ensures SessionsFit(TouchSession(t, s))
  {
    var t' := TouchSession(t, s);
    forall r | r in t'.sessions ensures SessionFits(t', r, t'.sessions[r]) {
      assert SessionFits(t, r, t.sessions[r]);
    }
  }

  lemma BindKeepsSessions(t: Tables, id: Id, member: string, credential: Id)
    requires SessionsFit(t) && credential in t.minted && t.minted[credential] == ForCredential
    requires forall s :: s in t.sessions && t.sessions[s].id == id ==> s.worker != member
    ensures SessionsFit(BindSession(t, id, member, credential))
  {
    var t' := BindSession(t, id, member, credential);
    forall r | r in t'.sessions ensures SessionFits(t', r, t'.sessions[r]) {
      assert SessionFits(t, r, t.sessions[r]);
    }
  }

  /** What an approval of one row grants: the row's own key, or for a placeholder the key of the
      clicking member's live credential. */
  ghost function GrantedKey(c: Click, k: ApprovalKey): ApprovalKey
    requires Delegating(c, k) ==> c.seenCredential.Some?
  {
    if Delegating(c, k) then Rekeyed(k, c.actor.user, c.seenCredential.value) else k
  }

  /** An approval reached its validator and passed every fence. */
  lemma ApproveReached(cfg: Config, t: Tables, c: Click)
    requires Decide(cfg, t, c).1.Approve?
    ensures PendingLive(t, c.id) && Covered(cfg, t.rows[c.id].key) && c.approve
    ensures Delegating(c, t.rows[c.id].key) ==> c.seenCredential.Some? && c.actor.user != t.rows[c.id].key.user
    ensures var row := t.rows[c.id]; Validate(cfg, t, c, row) == Valid && c.actor.team == row.key.team
    ensures Current(t.tombs, c.actor, c.issuedAt)
    ensures Current(t.tombs, UserIdentity(c.actor.enterprise, t.rows[c.id].key), t.rows[c.id].createdAt)
    ensures var k := t.rows[c.id].key; var ttl := cfg.rules[k.provider].ttl;
      Decide(cfg, t, c) == if Delegating(c, k) then ApproveUnbound(t, c, ttl) else ApproveRow(t, c, ttl)
  {
    hide Validate, Current, Covered, ApproveUnbound, ApproveRow, Selector;
  }

  /** What any other click does: deny one row, note an ineligible clicker, drop the row, or nothing. */
  lemma DecideOtherwise(cfg: Config, t: Tables, c: Click)
    requires !Decide(cfg, t, c).1.Approve?
    ensures var (t', d) := Decide(cfg, t, c);
      && (d.Deny? ==> PendingLive(t, c.id) && t' == DenyRow(t, c).0)
      && (d.IneligibleClick? ==> PendingLive(t, c.id) && t' == t.(audit := t.audit + [NotApproverAudit(c.actor, t.rows[c.id].key.provider)]))
      && (!d.Deny? && !d.IneligibleClick? ==> t' == t || t' == t.(rows := Without(t.rows, c.id)))
  {
    hide Validate, Current, Covered, ApproveUnbound, ApproveRow, DenyRow, Selector, KeepsBindings, SameFacts, NotApproverAudit, Without;
  }

  /** The facts an approval establishes before it writes. */
  lemma ApproveFacts(cfg: Config, t: Tables, c: Click)
    requires Inv(cfg, t) && Decide(cfg, t, c).1.Approve?
    ensures PendingLive(t, c.id) && Covered(cfg, t.rows[c.id].key)
    ensures Delegating(c, t.rows[c.id].key) ==> c.seenCredential.Some?
    ensures var row := t.rows[c.id]; var key := GrantedKey(c, row.key);
      && Validate(cfg, t, c, row) == Valid
      && Current(t.tombs, c.actor, c.issuedAt) && Current(t.tombs, UserIdentity(c.actor.enterprise, row.key), row.createdAt)
      && KeyFits(t, key) && DelegationOf(key) != Unbound
      && LiveId(t, key.Owner(), key.provider) == Some(key.credential)
      && GrantFits(cfg, Row(key, Selector(key), Granted, Some(c.actor.user), row.createdAt, 0))
  {
    hide Decide, Selector, Current, SessionsFit, KeyFits, GrantFits;
    ApproveReached(cfg, t, c);
    var row := t.rows[c.id];
    assert RowFits(cfg, t, row);
    hide Validate, DelegationOf;
    GrantedKeyFits(cfg, t, c, row);
    GrantedByEligible(cfg, t, c, row);
  }

  lemma GrantedKeyFits(cfg: Config, t: Tables, c: Click, row: Row)
    requires KeyFits(t, row.key) && LiveFits(t) && Covered(cfg, row.key) && c.approve && c.actor.team == row.key.team
    requires Delegating(c, row.key) ==> c.seenCredential.Some? && c.actor.user != row.key.user
    requires Validate(cfg, t, c, row) == Valid
    ensures var key := GrantedKey(c, row.key);
      KeyFits(t, key) && DelegationOf(key) != Unbound && LiveId(t, key.Owner(), key.provider) == Some(key.credential)
  {
    hide Current, ToolEnabled, ActingAs;
    var k := row.key;
    assert CredentialUse(cfg, t, k, c.actor.enterprise, row.createdAt) == UseCurrent;
    if Delegating(c, k) {
      var key := Rekeyed(k, c.actor.user, c.seenCredential.value);
      assert LiveId(t, UserOwner(c.actor), k.provider) == c.seenCredential;
      assert key.Owner() == UserOwner(c.actor);
    }
  }

  lemma GrantedByEligible(cfg: Config, t: Tables, c: Click, row: Row)
    requires KeyFits(t, row.key) && Covered(cfg, row.key) && c.approve
    requires Delegating(c, row.key) ==> c.seenCredential.Some? && c.actor.user != row.key.user
    requires Validate(cfg, t, c, row) == Valid
    ensures var key := GrantedKey(c, row.key); GrantFits(cfg, Row(key, Selector(key), Granted, Some(c.actor.user), row.createdAt, 0))
  {
    hide Selector, CredentialUse;
  }

  /** The whole effect of a decision on rows and audit, case by case. */
  lemma DecideShape(cfg: Config, t: Tables, c: Click)
    requires Inv(cfg, t)
    ensures var (t', d) := Decide(cfg, t, c);
      && (d.Approve? ==> ApproveShape(cfg, t, c, t', d.expiresAt))
      && (d.Deny? ==> PendingLive(t, c.id) && t'.audit == t.audit + [AuditOf(DeniedAudit(ApprovalDenied), t.rows[c.id].key, Some(c.actor.user))])
      && (d.Deny? ==> t'.rows == t.rows[c.id := t.rows[c.id].(status := Denied, approvedBy := Some(c.actor.user), expiresAt := t.now + PENDING_TTL)])
      && (d.Deny? ==> t'.sessions == t.sessions)
      && (d.IneligibleClick? ==> PendingLive(t, c.id) && t' == t.(audit := t.audit + [NotApproverAudit(c.actor, t.rows[c.id].key.provider)]))
      && (!d.Approve? && !d.Deny? && !d.IneligibleClick? ==>
          t'.audit == t.audit && SubRows(t'.rows, t.rows) && t'.sessions == t.sessions)
  {
    hide Selector, Decide, Inv, KeepsBindings, ApproveShape;
    if Decide(cfg, t, c).1.Approve? {
      ApproveShapeHolds(cfg, t, c);
    } else {
      DecideOtherwise(cfg, t, c);
    }
  }

  ghost predicate ApproveShape(cfg: Config, t: Tables, c: Click, t': Tables, expiresAt: int) {
    && PendingLive(t, c.id) && Covered(cfg, t.rows[c.id].key)
    && (Delegating(c, t.rows[c.id].key) ==> c.seenCredential.Some?)
    && var row := t.rows[c.id]; var key := GrantedKey(c, row.key);
      && expiresAt == t.now + cfg.rules[key.provider].ttl
      && t'.rows == WithoutTwins(t.rows, Selector(key), c.id)[c.id :=
           Row(key, Selector(key), Granted, Some(c.actor.user), row.createdAt, expiresAt)]
      && t'.audit == t.audit + [AuditOf(ApprovedAudit, key, Some(c.actor.user))]
  }

  lemma UnboundShape(cfg: Config, t: Tables, c: Click, ttl: nat)
    requires PendingLive(t, c.id) && Covered(cfg, t.rows[c.id].key) && Delegating(c, t.rows[c.id].key) && c.seenCredential.Some?
    requires ttl == cfg.rules[t.rows[c.id].key.provider].ttl && ApproveUnbound(t, c, ttl).1.Approve?
    ensures ApproveShape(cfg, t, c, ApproveUnbound(t, c, ttl).0, t.now + ttl)
  {
    hide Selector, BindSession, UnboundSessionLive, KeepsBindings, Delegating, Covered;
  }

  lemma OrdinaryShape(cfg: Config, t: Tables, c: Click, ttl: nat)
    requires Inv(cfg, t) && PendingLive(t, c.id) && Covered(cfg, t.rows[c.id].key) && !Delegating(c, t.rows[c.id].key)
    requires ttl == cfg.rules[t.rows[c.id].key.provider].ttl
    ensures ApproveShape(cfg, t, c, ApproveRow(t, c, ttl).0, t.now + ttl)
  {
    hide Selector, TouchSession, KeepsBindings, DelegationOf, Covered, Inv;
    NoTwins(cfg, t, c.id);
    hide WithoutTwins;
  }

  lemma ApproveShapeHolds(cfg: Config, t: Tables, c: Click)
    requires Inv(cfg, t) && Decide(cfg, t, c).1.Approve?
    ensures ApproveShape(cfg, t, c, Decide(cfg, t, c).0, Decide(cfg, t, c).1.expiresAt)
  {
    hide Decide, Selector, Inv, ApproveUnbound, ApproveRow, Delegating, Validate, Current, KeepsBindings, ApproveShape;
    ApproveReached(cfg, t, c);
    var k := t.rows[c.id].key;
    var ttl := cfg.rules[k.provider].ttl;
    if Delegating(c, k) {
      UnboundShape(cfg, t, c, ttl);
    } else {
      OrdinaryShape(cfg, t, c, ttl);
    }
  }

  /** An ordinary approval keeps the row's own action, so it displaces nothing. */
  lemma NoTwins(cfg: Config, t: Tables, id: Id)
    requires Inv(cfg, t) && id in t.rows
    ensures WithoutTwins(t.rows, Selector(t.rows[id].key), id) == t.rows
  {
    hide Selector, KeyFits, GrantFits, SessionsFit, LiveFits;
    assert RowFits(cfg, t, t.rows[id]);
    assert forall i :: i in t.rows && t.rows[i].actionKey == t.rows[id].actionKey ==> i == id;
  }

  lemma DecideKeepsRows(cfg: Config, t: Tables, c: Click)
    requires Inv(cfg, t)
    ensures RowsFit(cfg, Decide(cfg, t, c).0)
  {
    hide Selector, RowsFit, SessionsFit, LiveFits, Decide, KeepsBindings, ApproveShape, DenyRow;
    if Decide(cfg, t, c).1.Approve? {
      ApproveKeepsRows(cfg, t, c);
    } else {
      DecideOtherwise(cfg, t, c);
      var t' := Decide(cfg, t, c).0;
      if Decide(cfg, t, c).1.Deny? {
        DenyKeepsRows(cfg, t, c);
      } else {
        FewerRowsFit(cfg, t, t');
      }
    }
  }

  lemma ApproveKeepsRows(cfg: Config, t: Tables, c: Click)
    requires Inv(cfg, t) && Decide(cfg, t, c).1.Approve?
    ensures RowsFit(cfg, Decide(cfg, t, c).0)
  {
    hide Selector, Decide, Validate, SessionsFit, LiveFits, KeepsBindings, GrantFits, Delegating, Covered, Current;
    var (t', d) := Decide(cfg, t, c);
    ApproveShapeHolds(cfg, t, c);
    ApproveFacts(cfg, t, c);
    var row := t.rows[c.id];
    var key := GrantedKey(c, row.key);
    var granted := Row(key, Selector(key), Granted, Some(c.actor.user), row.createdAt, d.expiresAt);
    var t1 := t.(rows := WithoutTwins(t.rows, Selector(key), c.id));
    GrantedRowFits(cfg, t, c, row, granted);
    FewerRowsFit(cfg, t, t1);
    hide GrantedKey, RowFits;
    InsertFits(cfg, t1, t', c.id, granted);
  }

  lemma GrantedRowFits(cfg: Config, t: Tables, c: Click, row: Row, granted: Row)
    requires Delegating(c, row.key) ==> c.seenCredential.Some?
    requires var key := GrantedKey(c, row.key);
      && KeyFits(t, key) && row.createdAt <= t.now
      && granted.(expiresAt := 0) == Row(key, Selector(key), Granted, Some(c.actor.user), row.createdAt, 0)
      && GrantFits(cfg, granted.(expiresAt := 0))
    ensures RowFits(cfg, t, granted)
  {
    hide Selector, KeyFits, GrantedKey;
  }

  lemma DenyKeepsRows(cfg: Config, t: Tables, c: Click)
    requires Inv(cfg, t) && PendingLive(t, c.id)
    ensures RowsFit(cfg, DenyRow(t, c).0)
  {
    hide Selector, SessionsFit, LiveFits, GrantFits;
    var t' := DenyRow(t, c).0;
    assert RowFits(cfg, t, t.rows[c.id]);
    InsertFits(cfg, t, t', c.id, t'.rows[c.id]);
  }

  lemma DecideKeepsSessions(cfg: Config, t: Tables, c: Click)
    requires Inv(cfg, t)
    ensures SessionsFit(Decide(cfg, t, c).0)
  {
    hide Selector, Decide, RowsFit, SessionsFit, LiveFits, KeepsBindings;
    var (t', d) := Decide(cfg, t, c);
    if d.Approve? {
      ApproveReached(cfg, t, c);
      var k := t.rows[c.id].key;
      var ttl := cfg.rules[k.provider].ttl;
      if Delegating(c, k) {
        UnboundKeepsSessions(cfg, t, c, ttl);
      } else {
        OrdinaryKeepsSessions(t, c, ttl);
      }
    } else {
      DecideOtherwise(cfg, t, c);
      SameSessionsFit(t, t');
    }
  }

  lemma UnboundKeepsSessions(cfg: Config, t: Tables, c: Click, ttl: nat)
    requires Inv(cfg, t) && PendingLive(t, c.id) && Covered(cfg, t.rows[c.id].key) && c.approve && c.seenCredential.Some?
    requires Delegating(c, t.rows[c.id].key) && Validate(cfg, t, c, t.rows[c.id]) == Valid
    requires c.actor.team == t.rows[c.id].key.team && c.actor.user != t.rows[c.id].key.user
    ensures SessionsFit(ApproveUnbound(t, c, ttl).0)
  {
    hide Selector, BindSession, KeepsBindings, Current, GrantFits, SessionsFit, SessionFits, UnboundSessionLive;
    var k := t.rows[c.id].key;
    assert RowFits(cfg, t, t.rows[c.id]);
    ValidUnbound(cfg, t, c, t.rows[c.id]);
    hide Validate, DelegatedUse;
    UnboundScope(t, k, c.actor.enterprise);
    var bound := BindSession(t, k.credential, c.actor.user, c.seenCredential.value);
    BindKeepsSessions(t, k.credential, c.actor.user, c.seenCredential.value);
    var t' := ApproveUnbound(t, c, ttl).0;
    if t' != t {
      SameSessionsFit(bound, t');
    }
  }

  /** A valid verdict on a placeholder found its session and the clicker's live credential. */
  lemma ValidUnbound(cfg: Config, t: Tables, c: Click, row: Row)
    requires Covered(cfg, row.key) && c.seenCredential.Some? && Delegating(c, row.key) && row.key.governable.Some? && row.key.delegated
    requires LiveFits(t) && Validate(cfg, t, c, row) == Valid
    ensures DelegatedUse(t, row.key, c.actor.enterprise, row.key.governable.value) == UseCurrent
    ensures c.seenCredential.value in t.minted && t.minted[c.seenCredential.value] == ForCredential
  {
    hide Current, ToolEnabled, ActingAs, DelegatedUse;
    assert LiveId(t, UserOwner(c.actor), row.key.provider) == c.seenCredential;
  }

  lemma OrdinaryKeepsSessions(t: Tables, c: Click, ttl: nat)
    requires SessionsFit(t) && c.id in t.rows
    ensures SessionsFit(ApproveRow(t, c, ttl).0)
  {
    hide Selector, SessionsFit, TouchSession, KeepsBindings, AuditOf;
    var k := t.rows[c.id].key;
    var t1 := GrantRow(t, c.id, k, c.actor.user, ttl);
    SameSessionsFit(t, t1);
    if k.channel.Some? {
      TouchKeepsSessions(t1, ScopeOf(k, k.channel.value));
    }
  }

  /** The placeholder generation of a valid unbound row is the worker's own live session. */
  lemma UnboundScope(t: Tables, k: ApprovalKey, e: Option<EnterpriseId>)
    requires SessionsFit(t) && DelegationOf(k) == Unbound && k.governable.Some?
    requires DelegatedUse(t, k, e, k.governable.value) == UseCurrent
    ensures var s := ScopeOf(k, k.governable.value);
      s in t.sessions && t.sessions[s].id == k.credential && forall r :: r in t.sessions && t.sessions[r].id == k.credential ==> r == s
  {
  }

  /** A spend removes at most the one row, and only touches the bound session. */
  lemma ConsumeShape(cfg: Config, t: Tables, k: ApprovalKey, e: Option<EnterpriseId>, issuedAt: int)
    ensures var (t', r) := Consume(cfg, t, k, e, issuedAt);
      && SubRows(t'.rows, t.rows) && (!r.Spent? ==> t'.audit == t.audit)
      && (t'.sessions == t.sessions || (k.channel.Some? && t'.sessions == TouchSession(t, ScopeOf(k, k.channel.value)).sessions))
  {
    hide Selector, CredentialUse, SpendersCurrent, SpendRow, HasGrant, Covered, SubRows, KeepsBindings, TouchSession;
    if Consume(cfg, t, k, e, issuedAt).1.Spent? {
      SpendRowShape(t, k, Consume(cfg, t, k, e, issuedAt).1.id);
    } else {
      FewerOf(t.rows);
    }
  }

  lemma SpendRowShape(t: Tables, k: ApprovalKey, id: Id)
    requires id in t.rows
    ensures var t' := SpendRow(t, k, id);
      && SubRows(t'.rows, t.rows)
      && (t'.sessions == t.sessions || (k.channel.Some? && t'.sessions == TouchSession(t, ScopeOf(k, k.channel.value)).sessions))
  {
    hide Selector, AuditOf, KeepsBindings;
  }

  lemma FewerOf(rows: map<Id, Row>)
    ensures SubRows(rows, rows) && forall id :: SubRows(Without(rows, id), rows)
  {
  }

  lemma ConsumeKeepsInv(cfg: Config, t: Tables, k: ApprovalKey, e: Option<EnterpriseId>, issuedAt: int)
    requires Inv(cfg, t)
    ensures Inv(cfg, Consume(cfg, t, k, e, issuedAt).0)
  {
    hide Consume;
    var (t', r) := Consume(cfg, t, k, e, issuedAt);
    ConsumeShape(cfg, t, k, e, issuedAt);
    FewerRowsFit(cfg, t, t');
    if t'.sessions == t.sessions {
      SameSessionsFit(t, t');
    } else {
      TouchKeepsSessions(t, ScopeOf(k, k.channel.value));
      SameSessionsFit(TouchSession(t, ScopeOf(k, k.channel.value)), t');
    }
  }

  lemma BeginKeepsSessions(t: Tables, s: SessionScope, newId: Id)
    requires SessionsFit(t) && newId !in t.minted
    ensures SessionsFit(BeginSession(t, s, newId))
  {
    var t' := BeginSession(t, s, newId);
    if t' != t {
      forall r | r in t'.sessions
        ensures SessionFits(t', r, t'.sessions[r]) && (r != s ==> t'.sessions[r].id != newId)
      {
        if r != s {
          assert SessionFits(t, r, t.sessions[r]);
        }
      }
    }
  }

  lemma BeginGrows(t: Tables, s: SessionScope, newId: Id)
    requires newId !in t.minted
    ensures var t' := BeginSession(t, s, newId); Grows(t, t') && SubRows(t'.rows, t.rows) && t'.live == t.live && t'.tombs == t.tombs
  {
    hide SessionUsable;
  }

  lemma BeginKeepsInv(cfg: Config, t: Tables, s: SessionScope, newId: Id)
    requires Inv(cfg, t) && newId !in t.minted
    ensures Inv(cfg, BeginSession(t, s, newId))
  {
    hide RowsFit, SessionsFit, BeginSession;
    BeginGrows(t, s, newId);
    FewerRowsFit(cfg, t, BeginSession(t, s, newId));
    BeginKeepsSessions(t, s, newId);
  }

  lemma WriteKeepsInv(cfg: Config, t: Tables, op: Op)
    requires Inv(cfg, t) && Enabled(t, op) && op.WriteCredential?
    ensures Inv(cfg, Apply(cfg, t, op).0)
  {
    var t' := Apply(cfg, t, op).0;
    FewerRowsFit(cfg, t, t');
    SameSessionsFit(t, t');
    assert forall o :: o in t.live ==> t.live[o] in t.minted;
  }

  ghost predicate IsCleanup(op: Op) {
    !op.RequestOp? && !op.DecideOp? && !op.ConsumeOp? && !op.BeginSessionOp? && !op.WriteCredential?
  }

  /** Cleanups, governance writes and fences only remove rows, sessions and generations. */
  lemma CleanupShrinks(cfg: Config, t: Tables, op: Op)
    requires Enabled(t, op) && IsCleanup(op)
    ensures var t' := Apply(cfg, t, op).0;
      && Grows(t, t') && SubRows(t'.rows, t.rows)
      && (forall s :: s in t'.sessions ==> s in t.sessions && t'.sessions[s] == t.sessions[s])
      && (forall o :: o in t'.live ==> o in t.live && t'.live[o] == t.live[o]) && t'.minted == t.minted
  {
    hide SubRows, Selector, FenceStep, Request, Decide, Consume, BeginSession, KeepsBindings, Without, WithoutUser, WithoutExpired;
    hide WithoutTuple, PurgeCredentialRows, Lapsed, ActingAs, ToolEnabled, ExpiredAudit;
    CleanupRows(cfg, t, op);
  }

  lemma CleanupRows(cfg: Config, t: Tables, op: Op)
    requires IsCleanup(op)
    ensures SubRows(Apply(cfg, t, op).0.rows, t.rows)
  {
    hide FenceStep, Request, Decide, Consume, BeginSession, KeepsBindings, LiveSessions, SessionsWithoutUser, Lapsed, ActingAs, ToolEnabled, ExpiredAudit;
  }

  lemma CleanupKeepsInv(cfg: Config, t: Tables, op: Op)
    requires Inv(cfg, t) && Enabled(t, op) && IsCleanup(op)
    ensures Inv(cfg, Apply(cfg, t, op).0)
  {
    hide Selector, RowsFit, SessionsFit, Apply, Enabled;
    var t' := Apply(cfg, t, op).0;
    CleanupShrinks(cfg, t, op);
    FewerRowsFit(cfg, t, t');
    SameSessionsFit(t, t');
  }

  /** Every transaction, in any order and with any interleaving, keeps the invariant. */
  lemma StepKeepsInv(cfg: Config, t: Tables, op: Op)
    requires Inv(cfg, t) && Enabled(t, op)
    ensures Inv(cfg, Apply(cfg, t, op).0)
  {
    hide Selector, RowsFit, SessionsFit, Request, Decide, Consume, BeginSession, FenceStep;
    match op
    case RequestOp(k, e, issuedAt, newId) => RequestKeepsInv(cfg, t, k, e, issuedAt, newId);
    case DecideOp(c) =>
      DecideKeepsRows(cfg, t, c);
      DecideKeepsSessions(cfg, t, c);
    case ConsumeOp(k, e, issuedAt) => ConsumeKeepsInv(cfg, t, k, e, issuedAt);
    case BeginSessionOp(s, newId) => BeginKeepsInv(cfg, t, s, newId);
    case WriteCredential(_, _, _) => WriteKeepsInv(cfg, t, op);
    case _ => CleanupKeepsInv(cfg, t, op);
  }

  lemma InitInv(cfg: Config, t: Tables)
    requires Init(t)
    ensures Inv(cfg, t)
  {
  }
}
