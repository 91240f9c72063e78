/** Worker sessions over every run: who binds them, how often, and what extends them. */
module SessionTheorems {
  import opened Base
  import opened Fences
  import opened ActionKey
  import opened ApprovalModel
  import opened ApprovalInvariant
  import opened ApprovalRuns
  import opened ApprovalTheorems

  /** Step `m` authorized a worker's placeholder row, binding the session `sid` it stood for. */
  ghost predicate BoundAt(cfg: Config, r: Run, m: nat, sid: Id)
    requires ValidRun(cfg, r) && m < |r.ops|
  {
    && r.ops[m].DecideOp? && ApprovedAt(cfg, r, m, r.ops[m].click.id)
    && r.ops[m].click.id in r.states[m].rows
    && DelegationOf(r.states[m].rows[r.ops[m].click.id].key) == Unbound
    && r.states[m].rows[r.ops[m].click.id].key.credential == sid
  }

  ghost predicate NotUnbound(t: Tables, sid: Id) {
    forall s :: s in t.sessions && t.sessions[s].id == sid ==> t.sessions[s].binding.Some?
  }

  /** A decision binds unbound sessions and touches expiries; it never changes a binding. */
  lemma DecisionKeepsBindings(cfg: Config, t: Tables, c: Click)
    requires Inv(cfg, t)
    ensures KeepsBindings(t.sessions, Decide(cfg, t, c).0.sessions)
  {
    hide Decide, Inv, ApproveUnbound, ApproveRow, Delegating, Validate, Covered, Current, Selector;
    if Decide(cfg, t, c).1.Approve? {
      ApproveReached(cfg, t, c);
    } else {
      DecideOtherwise(cfg, t, c);
    }
  }

  /** What each transaction does to the sessions. */
  lemma SessionsAfter(cfg: Config, t: Tables, op: Op)
    requires Inv(cfg, t) && Enabled(t, op)
    ensures var after := Apply(cfg, t, op).0.sessions;
      match op
      case BeginSessionOp(s, newId) => after == BeginSession(t, s, newId).sessions
      case DecideOp(_) => KeepsBindings(t.sessions, after)
      case ConsumeOp(_, _, _) => KeepsBindings(t.sessions, after)
      case RevokeForUser(i) => after == SessionsWithoutUser(t.sessions, i)
      case Sweep => after == LiveSessions(t.sessions, t.now)
      case _ => after == t.sessions
  {
    hide Selector, Inv, Request, Decide, Consume, BeginSession, FenceStep, KeepsBindings, SessionsWithoutUser, LiveSessions;
    hide WithoutUser, WithoutTuple, WithoutExpired, PurgeCredentialRows, Without, Lapsed, ActingAs, ToolEnabled, ExpiredAudit;
    match op
    case RequestOp(k, e, issuedAt, newId) => RequestKeepsSessions(cfg, t, op);
    case DecideOp(c) => DecisionKeepsBindings(cfg, t, c);
    case ConsumeOp(k, e, issuedAt) => ConsumeKeepsBindings(cfg, t, k, e, issuedAt);
    case _ =>
  }

  lemma RequestKeepsSessions(cfg: Config, t: Tables, op: Op)
    requires Inv(cfg, t) && Enabled(t, op) && op.RequestOp?
    ensures Apply(cfg, t, op).0.sessions == t.sessions
  {
    hide Selector, Inv, Request, KeyFits, CredentialUse, GenerationLive, Covered, AuditOf, Displaced;
    RequestShape(cfg, t, op.k, op.enterprise, op.issuedAt, op.newId);
  }

  lemma ConsumeKeepsBindings(cfg: Config, t: Tables, k: ApprovalKey, e: Option<EnterpriseId>, issuedAt: int)
    ensures KeepsBindings(t.sessions, Consume(cfg, t, k, e, issuedAt).0.sessions)
  {
    hide Consume;
    ConsumeShape(cfg, t, k, e, issuedAt);
  }

  lemma StepStaysBound(cfg: Config, t: Tables, op: Op, sid: Id)
    requires Inv(cfg, t) && Enabled(t, op) && sid in t.minted && NotUnbound(t, sid)
    ensures NotUnbound(Apply(cfg, t, op).0, sid)
  {
    hide Apply, Inv;
    SessionsAfter(cfg, t, op);
  }

  lemma {:induction false} StaysBound(cfg: Config, r: Run, sid: Id, i: nat, j: nat)
    requires ValidRun(cfg, r) && i <= j <= |r.ops| && sid in r.states[i].minted && NotUnbound(r.states[i], sid)
    ensures NotUnbound(r.states[j], sid)
    decreases j - i
  {
    hide Apply, NotUnbound, Inv;
    if i < j {
      StaysBound(cfg, r, sid, i, j - 1);
      RunGrows(cfg, r, i, j - 1);
      RunInv(cfg, r, j - 1);
      assert StepOk(cfg, r, j - 1);
      StepStaysBound(cfg, r.states[j - 1], r.ops[j - 1], sid);
    }
  }

  /** Binding facts at one authorizing click. */
  lemma BoundFacts(cfg: Config, r: Run, m: nat, sid: Id)
    requires ValidRun(cfg, r) && m < |r.ops| && BoundAt(cfg, r, m, sid)
    ensures !NotUnbound(r.states[m], sid) && NotUnbound(r.states[m + 1], sid) && sid in r.states[m + 1].minted
  {
    hide Selector, CredentialUse, GrantFits, SessionFits, Current, Apply;
    RunInv(cfg, r, m);
    DecisionOutcome(cfg, r, m);
    NextOfDecision(cfg, r, m);
    var t, c := r.states[m], r.ops[m].click;
    ApproveFacts(cfg, t, c);
    assert RowFits(cfg, t, t.rows[c.id]);
    assert UnboundSessionLive(t, sid);
    SessionIdsDiffer(t, sid);
  }

  lemma SessionIdsDiffer(t: Tables, sid: Id)
    requires SessionsFit(t)
    ensures forall s, q :: s in t.sessions && q in t.sessions && t.sessions[s].id == sid && t.sessions[q].id == sid ==> s == q
  {
  }

  /** A session is bound at most once: of all the rows waiting under one placeholder generation, at most
      one is ever granted. */
  lemma BoundOnce(cfg: Config, r: Run, sid: Id, i: nat, j: nat)
    requires ValidRun(cfg, r) && i < j < |r.ops| && BoundAt(cfg, r, i, sid)
    ensures !BoundAt(cfg, r, j, sid)
  {
    hide Apply, NotUnbound, ApprovedAt, DelegationOf;
    BoundFacts(cfg, r, i, sid);
    StaysBound(cfg, r, sid, i + 1, j);
    if BoundAt(cfg, r, j, sid) {
      BoundFacts(cfg, r, j, sid);
      assert false;
    }
  }

  /** A bound session never lives past eight hours from its binding click. */
  lemma SessionCapped(cfg: Config, r: Run, i: nat, s: SessionScope)
    requires ValidRun(cfg, r) && i <= |r.ops| && s in r.states[i].sessions && r.states[i].sessions[s].binding.Some?
    ensures r.states[i].sessions[s].expiresAt <= r.states[i].sessions[s].binding.value.at + SESSION_MAX_TTL
    ensures r.states[i].sessions[s].binding.value.member != s.worker
  {
    hide Apply, RowsFit, LiveFits;
    RunInv(cfg, r, i);
    assert SessionFits(r.states[i], s, r.states[i].sessions[s]);
  }

  ghost predicate Ends(op: Op, s: SessionScope, member: string) {
    op.RevokeForUser? && op.leaver.team == s.team && (op.leaver.user == s.worker || op.leaver.user == member)
  }

  /** While a bound session is live and its member still holds the bound generation, nothing but the
      offboarding cleanup of one of the two overwrites or removes it. */
  lemma UsableBindingIsStable(cfg: Config, t: Tables, op: Op, s: SessionScope)
    requires Inv(cfg, t) && Enabled(t, op) && SessionUsable(t, s) && t.sessions[s].binding.Some?
    requires !Ends(op, s, t.sessions[s].binding.value.member)
    ensures var t' := Apply(cfg, t, op).0;
      s in t'.sessions && t'.sessions[s].id == t.sessions[s].id && t'.sessions[s].binding == t.sessions[s].binding
  {
    hide Apply, Inv;
    SessionsAfter(cfg, t, op);
  }

  /** So a binding is stable over every stretch of a run in which it stays usable. */
  lemma {:induction false} BindingStableWhileUsable(cfg: Config, r: Run, s: SessionScope, i: nat, j: nat)
    requires ValidRun(cfg, r) && i <= j <= |r.ops| && s in r.states[i].sessions && r.states[i].sessions[s].binding.Some?
    requires forall m :: i <= m < j ==> SessionUsable(r.states[m], s)
    requires forall m :: i <= m < j ==> !Ends(r.ops[m], s, r.states[i].sessions[s].binding.value.member)
    ensures s in r.states[j].sessions && r.states[j].sessions[s].id == r.states[i].sessions[s].id
    ensures r.states[j].sessions[s].binding == r.states[i].sessions[s].binding
    decreases j - i
  {
    hide Apply, Inv, Ends, SessionUsable;
    if i < j {
      BindingStableWhileUsable(cfg, r, s, i, j - 1);
      RunInv(cfg, r, j - 1);
      assert StepOk(cfg, r, j - 1);
      UsableBindingIsStable(cfg, r.states[j - 1], r.ops[j - 1], s);
    }
  }

  ghost predicate Extended(t: Tables, t': Tables, s: SessionScope) {
    && s in t.sessions && s in t'.sessions && t'.sessions[s].id == t.sessions[s].id
    && t.sessions[s].binding.Some? && t'.sessions[s].expiresAt > t.sessions[s].expiresAt
  }

  /** The step is a decision that this member made, or the spend of a grant that they made. */
  ghost predicate MemberActs(cfg: Config, t: Tables, op: Op, member: string) {
    || (op.DecideOp? && Decide(cfg, t, op.click).1.Approve? && op.click.actor.user == member)
    || (op.ConsumeOp? && var out := Consume(cfg, t, op.k, op.enterprise, op.issuedAt).1; out.Spent? && out.approvedBy == Some(member))
  }

  /** Only the bound member's own activity extends a bound session: a decision they made, or the spend of
      a grant they made. The worker's requests never do. */
  lemma ExtendedOnlyByMember(cfg: Config, t: Tables, op: Op, s: SessionScope)
    requires Inv(cfg, t) && Enabled(t, op) && Extended(t, Apply(cfg, t, op).0, s)
    ensures MemberActs(cfg, t, op, t.sessions[s].binding.value.member)
  {
    hide Selector, Request, Decide, Consume, FenceStep, RowsFit, LiveFits, KeepsBindings;
    match op
    case DecideOp(c) => DecisionExtends(cfg, t, c, s);
    case ConsumeOp(k, e, issuedAt) => SpendExtends(cfg, t, k, e, issuedAt, s);
    case RequestOp(k, e, issuedAt, newId) => RequestShape(cfg, t, k, e, issuedAt, newId);
    case _ =>
  }

  /** So over any stretch of a run in which a session keeps its id and binding, its expiry moves forward only
      if the member acted in that stretch. */
  lemma {:induction false} NoExtensionWithoutMember(cfg: Config, r: Run, s: SessionScope, i: nat, j: nat) returns (m: nat)
    requires ValidRun(cfg, r) && i <= j <= |r.ops| && s in r.states[i].sessions && r.states[i].sessions[s].binding.Some?
    requires forall n :: i <= n <= j ==> s in r.states[n].sessions && r.states[n].sessions[s].id == r.states[i].sessions[s].id
    requires forall n :: i <= n <= j ==> r.states[n].sessions[s].binding == r.states[i].sessions[s].binding
    requires r.states[j].sessions[s].expiresAt > r.states[i].sessions[s].expiresAt
    ensures i <= m < j && MemberActs(cfg, r.states[m], r.ops[m], r.states[i].sessions[s].binding.value.member)
    decreases j - i
  {
    hide Apply, Inv, MemberActs;
    if r.states[j].sessions[s].expiresAt > r.states[j - 1].sessions[s].expiresAt {
      m := j - 1;
      RunInv(cfg, r, m);
      assert StepOk(cfg, r, m);
      ExtendedOnlyByMember(cfg, r.states[m], r.ops[m], s);
    } else {
      m := NoExtensionWithoutMember(cfg, r, s, i, j - 1);
    }
  }

  /** A usable bound key runs under the session of its member. */
  lemma BoundUseNamesMember(cfg: Config, t: Tables, k: ApprovalKey, e: Option<EnterpriseId>, issuedAt: int)
    requires KeyFits(t, k) && DelegationOf(k) == Bound && CredentialUse(cfg, t, k, e, issuedAt) == UseCurrent
    ensures k.channel.Some? && var s := ScopeOf(k, k.channel.value);
      s in t.sessions && t.sessions[s].binding.Some? && t.sessions[s].binding.value.member == k.ownerId
  {
  }

  lemma DecisionExtends(cfg: Config, t: Tables, c: Click, s: SessionScope)
    requires Inv(cfg, t) && Extended(t, Decide(cfg, t, c).0, s)
    ensures Decide(cfg, t, c).1.Approve? && c.actor.user == t.sessions[s].binding.value.member
  {
    hide Decide, Selector, SessionsFit, LiveFits, UniqueActions, GrantFits, Validate, Current, KeepsBindings, Without, AuditOf;
    if Decide(cfg, t, c).1.Approve? {
      ApproveReached(cfg, t, c);
      assert RowFits(cfg, t, t.rows[c.id]);
      var k := t.rows[c.id].key;
      if Delegating(c, k) {
        UnboundExtendsNone(t, c, cfg.rules[k.provider].ttl, s);
      } else {
        OrdinaryExtends(cfg, t, c, cfg.rules[k.provider].ttl, s);
      }
    } else {
      DecideOtherwise(cfg, t, c);
    }
  }

  lemma UnboundExtendsNone(t: Tables, c: Click, ttl: nat, s: SessionScope)
    requires c.id in t.rows && c.seenCredential.Some?
    ensures !Extended(t, ApproveUnbound(t, c, ttl).0, s)
  {
    hide Selector, KeepsBindings, AuditOf, WithoutTwins;
  }

  lemma OrdinaryExtends(cfg: Config, t: Tables, c: Click, ttl: nat, s: SessionScope)
    requires c.id in t.rows && KeyFits(t, t.rows[c.id].key) && Covered(cfg, t.rows[c.id].key)
    requires !Delegating(c, t.rows[c.id].key) && Validate(cfg, t, c, t.rows[c.id]) == Valid && Extended(t, ApproveRow(t, c, ttl).0, s)
    ensures c.actor.user == t.sessions[s].binding.value.member
  {
    hide Selector, KeepsBindings, AuditOf, CredentialUse;
    var k := t.rows[c.id].key;
    assert DelegationOf(k) == Bound;
    assert CredentialUse(cfg, t, k, c.actor.enterprise, t.rows[c.id].createdAt) == UseCurrent;
    BoundUseNamesMember(cfg, t, k, c.actor.enterprise, t.rows[c.id].createdAt);
  }

  lemma SpendExtends(cfg: Config, t: Tables, k: ApprovalKey, e: Option<EnterpriseId>, issuedAt: int, s: SessionScope)
    requires Inv(cfg, t) && NormalKey(k) && Extended(t, Consume(cfg, t, k, e, issuedAt).0, s)
    ensures var out := Consume(cfg, t, k, e, issuedAt).1; out.Spent? && out.approvedBy == Some(t.sessions[s].binding.value.member)
  {
    hide Selector, CredentialUse, SessionFits, LiveFits, UniqueActions, SpendersCurrent;
    var out := Consume(cfg, t, k, e, issuedAt).1;
    if out.Spent? {
      SpendFacts(cfg, t, k, e, issuedAt);
      assert RowFits(cfg, t, t.rows[out.id]);
      BoundUseNamesMember(cfg, t, k, e, issuedAt);
    }
  }
}
