/** The main results about approvals and worker sessions, each over every run. */
module ApprovalTheorems {
  import opened Base
  import opened Fences
  import opened ActionKey
  import opened ApprovalModel
  import opened ApprovalInvariant
  import opened ApprovalExact
  import opened ApprovalRuns

  // ---------------------------------------------------------------------------------------------
  // Facts at one spend or decision
  // ---------------------------------------------------------------------------------------------

  lemma SpendFacts(cfg: Config, t: Tables, k: ApprovalKey, e: Option<EnterpriseId>, issuedAt: int)
    requires Inv(cfg, t) && NormalKey(k) && Consume(cfg, t, k, e, issuedAt).1.Spent?
    ensures var (t', r) := Consume(cfg, t, k, e, issuedAt);
      && r.id in t.rows && Spendable(t.rows[r.id], k, t.now) && r.approvedBy == t.rows[r.id].approvedBy
      && SpendersCurrent(t, k, e, t.rows[r.id].createdAt) && Covered(cfg, k) && DelegationOf(k) != Unbound
      && CredentialUse(cfg, t, k, e, issuedAt) == UseCurrent && LiveId(t, k.Owner(), k.provider) == Some(k.credential)
      && (k.grant == Once ==> r.id !in t'.rows)
      && t'.audit == t.audit + [AuditOf(ConsumedAudit, k, r.approvedBy)]
  {
    hide Selector, CredentialUse, RowFits, SessionFits, LiveFits, UniqueActions, SpendersCurrent;
  }

  lemma SpendFactsAt(cfg: Config, r: Run, i: nat, id: Id)
    requires ValidRun(cfg, r) && i < |r.ops| && SpentAt(cfg, r, i, id)
    ensures var t := r.states[i]; var k := r.ops[i].k; var e := r.ops[i].enterprise;
      && id in t.rows && Spendable(t.rows[id], k, t.now) && NormalKey(k)
      && OutcomeAt(cfg, r, i).consume.approvedBy == t.rows[id].approvedBy
      && SpendersCurrent(t, k, e, t.rows[id].createdAt) && DelegationOf(k) != Unbound
      && CredentialUse(cfg, t, k, e, r.ops[i].issuedAt) == UseCurrent && LiveId(t, k.Owner(), k.provider) == Some(k.credential)
      && KeyFits(t, t.rows[id].key)
      && (k.grant == Once ==> id !in r.states[i + 1].rows)
  {
    hide Selector, CredentialUse, SessionFits, LiveFits, UniqueActions, SpendersCurrent, Consume, GrantFits, Spendable, KeyFits;
    RunInv(cfg, r, i);
    assert StepOk(cfg, r, i);
    SpendFacts(cfg, r.states[i], r.ops[i].k, r.ops[i].enterprise, r.ops[i].issuedAt);
    assert RowFits(cfg, r.states[i], r.states[i].rows[id]);
  }

  /** A stored key that matches a `once` request is that very key. */
  lemma MatchIsEquality(row: ApprovalKey, k: ApprovalKey)
    requires NormalKey(row) && NormalKey(k) && MatchesRow(row, k) && k.grant == Once
    ensures row == k
  {
  }

  lemma ApproveFactsAt(cfg: Config, r: Run, j: nat, id: Id)
    requires ValidRun(cfg, r) && j < |r.ops| && ApprovedAt(cfg, r, j, id)
    ensures var t := r.states[j]; var c := r.ops[j].click;
      && PendingLive(t, id) && (Delegating(c, t.rows[id].key) ==> c.seenCredential.Some?)
      && var key := GrantedKey(c, t.rows[id].key);
        && LiveId(t, key.Owner(), key.provider) == Some(key.credential)
        && KeyFits(t, key) && DelegationOf(key) != Unbound
        && id in r.states[j + 1].rows && r.states[j + 1].rows[id].status == Granted
  {
    hide Selector, Apply, RowFits, SessionFits, LiveFits, UniqueActions, GrantFits, KeyFits, CredentialUse, Decide, Validate;
    RunInv(cfg, r, j);
    DecisionOutcome(cfg, r, j);
    NextOfDecision(cfg, r, j);
    ApproveFacts(cfg, r.states[j], r.ops[j].click);
    DecideShape(cfg, r.states[j], r.ops[j].click);
  }

  lemma NextOfDecision(cfg: Config, r: Run, j: nat)
    requires ValidRun(cfg, r) && j < |r.ops| && r.ops[j].DecideOp?
    ensures r.states[j + 1] == Decide(cfg, r.states[j], r.ops[j].click).0
  {
    hide Decide;
    assert StepOk(cfg, r, j);
  }

  // ---------------------------------------------------------------------------------------------
  // Spends inject into approvals
  // ---------------------------------------------------------------------------------------------

  /** A row that was decided, or is gone, is never pending again. */
  lemma {:induction false} NeverPendingAgain(cfg: Config, r: Run, id: Id, i: nat, j: nat)
    requires ValidRun(cfg, r) && i <= j <= |r.ops|
    requires id in r.states[i].minted && !(id in r.states[i].rows && r.states[i].rows[id].status == Pending)
    ensures !(id in r.states[j].rows && r.states[j].rows[id].status == Pending)
    decreases j - i
  {
    hide Apply, Selector, Decide;
    if i < j {
      NeverPendingAgain(cfg, r, id, i, j - 1);
      if id in r.states[j].rows {
        RunRow(cfg, r, j - 1, id);
        RunGrows(cfg, r, i, j - 1);
      }
    }
  }

  lemma ApprovedOnce(cfg: Config, r: Run, i: nat, j: nat, id: Id)
    requires ValidRun(cfg, r) && i < j < |r.ops| && ApprovedAt(cfg, r, i, id)
    ensures !ApprovedAt(cfg, r, j, id)
  {
    hide Apply, Selector, Decide, KeyFits;
    ApproveFactsAt(cfg, r, i, id);
    RunInv(cfg, r, i + 1);
    NeverPendingAgain(cfg, r, id, i + 1, j);
    if ApprovedAt(cfg, r, j, id) {
      ApproveFactsAt(cfg, r, j, id);
      assert false;
    }
  }

  /** A request recorded at step `c` was usable then. */
  lemma CreatedUsable(cfg: Config, r: Run, c: nat, id: Id)
    requires ValidRun(cfg, r) && c < |r.ops| && CreatedAt(cfg, r, c, id)
    ensures AsksApproval(cfg, r.ops[c].k) && Usable(cfg, r.states[c], r.ops[c].k, r.ops[c].enterprise, r.ops[c].issuedAt)
    ensures r.ops[c].newId == id
  {
    hide Selector, CredentialUse, GenerationLive, KeyFits, Request, Usable, Governed;
    RunInv(cfg, r, c);
    assert StepOk(cfg, r, c);
    RequestAnswers(cfg, r.states[c], r.ops[c].k, r.ops[c].enterprise, r.ops[c].issuedAt, r.ops[c].newId);
    RequestWrites(cfg, r.states[c], r.ops[c].k, r.ops[c].enterprise, r.ops[c].issuedAt, r.ops[c].newId);
  }

  /** An approval at step `j` was a click that decides the row. */
  lemma ApprovedDecides(cfg: Config, r: Run, j: nat, id: Id)
    requires ValidRun(cfg, r) && j < |r.ops| && ApprovedAt(cfg, r, j, id)
    ensures r.ops[j].DecideOp? && r.ops[j].click.id == id && r.ops[j].click.approve && Decides(cfg, r.states[j], r.ops[j].click)
  {
    hide Decide, Decides;
    DecisionOutcome(cfg, r, j);
    ClickAnswers(cfg, r.states[j], r.ops[j].click);
  }

  lemma DecidesUsable(cfg: Config, t: Tables, c: Click)
    requires Decides(cfg, t, c)
    ensures var row := t.rows[c.id]; AsksApproval(cfg, row.key) && Usable(cfg, t, row.key, c.actor.enterprise, row.createdAt)
  {
    hide Usable;
  }

  /** The click on a row pending under one key granted what the other asks: for `once`, that very key. */
  ghost predicate Serves(c: Click, pending: ApprovalKey, k: ApprovalKey) {
    && (Delegating(c, pending) ==> c.seenCredential.Some?)
    && var approved := GrantedKey(c, pending); MatchesRow(approved, k) && (k.grant == Once ==> approved == k)
  }

  /** The use check holds in full when the row was asked for, when it was approved and when it is spent. */
  ghost predicate UsableThroughout(cfg: Config, r: Run, id: Id, c: nat, j: nat, i: nat)
    requires ValidRun(cfg, r) && c < |r.ops| && j < |r.ops| && i < |r.ops|
    requires r.ops[c].RequestOp? && r.ops[j].DecideOp? && r.ops[i].ConsumeOp? && id in r.states[j].rows
  {
    && Usable(cfg, r.states[c], r.ops[c].k, r.ops[c].enterprise, r.ops[c].issuedAt)
    && Usable(cfg, r.states[j], r.states[j].rows[id].key, r.ops[j].click.actor.enterprise, r.states[j].rows[id].createdAt)
    && Usable(cfg, r.states[i], r.ops[i].k, r.ops[i].enterprise, r.ops[i].issuedAt)
  }

  /** Every spend is of one row that one request created and one decision, and no other, approved: for exactly this
      call if the grant is `once`, within the same conversation and owner if it is `thread`, and before it
      expired. The use was allowed in full at all three instants: policy, tool row, identity and receipt
      when asked, when approved and when spent. */
  lemma SpendIsApproved(cfg: Config, r: Run, i: nat, id: Id) returns (c: nat, j: nat)
    requires ValidRun(cfg, r) && i < |r.ops| && SpentAt(cfg, r, i, id)
    ensures c < j < i && CreatedAt(cfg, r, c, id) && ApprovedAt(cfg, r, j, id)
    ensures Serves(r.ops[j].click, r.states[j].rows[id].key, r.ops[i].k)
    ensures r.states[j].now <= r.states[i].now < OutcomeAt(cfg, r, j).decision.expiresAt
    ensures OutcomeAt(cfg, r, i).consume.approvedBy == Some(r.ops[j].click.actor.user)
    ensures forall m: nat :: m < |r.ops| && ApprovedAt(cfg, r, m, id) ==> m == j
    ensures r.states[j].rows[id].key == r.ops[c].k && UsableThroughout(cfg, r, id, c, j, i)
    ensures Allowed(cfg, r.states[c], r.ops[c].k) && Allowed(cfg, r.states[j], r.ops[c].k) && Allowed(cfg, r.states[i], r.ops[i].k)
  {
    hide Apply, Selector, Decide, CredentialUse, SpendersCurrent, Usable, Decides, Allowed;
    SpendFactsAt(cfg, r, i, id);
    j := ApprovalOf(cfg, r, i, id);
    RunGrows(cfg, r, j, i);
    if r.ops[i].k.grant == Once {
      MatchIsEquality(r.states[i].rows[id].key, r.ops[i].k);
    }
    forall m: nat | m < |r.ops| && ApprovedAt(cfg, r, m, id) ensures m == j {
      if m < j {
        ApprovedOnce(cfg, r, m, j, id);
      } else if j < m {
        ApprovedOnce(cfg, r, j, m, id);
      }
    }
    c := CreationOf(cfg, r, j, id);
    CreatedUsable(cfg, r, c, id);
    ApprovedDecides(cfg, r, j, id);
    DecidesUsable(cfg, r.states[j], r.ops[j].click);
    UseExact(cfg, r.states[i], r.ops[i].k, r.ops[i].enterprise, r.ops[i].issuedAt);
    UsableAllowed(cfg, r.states[c], r.ops[c].k, r.ops[c].enterprise, r.ops[c].issuedAt);
    UsableAllowed(cfg, r.states[j], r.ops[c].k, r.ops[j].click.actor.enterprise, r.states[j].rows[id].createdAt);
    UsableAllowed(cfg, r.states[i], r.ops[i].k, r.ops[i].enterprise, r.ops[i].issuedAt);
  }

  lemma UsableAllowed(cfg: Config, t: Tables, k: ApprovalKey, e: Option<EnterpriseId>, issuedAt: int)
    ensures Usable(cfg, t, k, e, issuedAt) ==> Allowed(cfg, t, k)
  {
    hide Allowed;
  }

  /** A `once` grant is never spent twice, by any two calls. */
  lemma OnceSpentOnce(cfg: Config, r: Run, i: nat, j: nat, id: Id)
    requires ValidRun(cfg, r) && i < j < |r.ops| && SpentAt(cfg, r, i, id) && SpentAt(cfg, r, j, id)
    ensures r.ops[i].k.grant == Thread && r.ops[j].k.grant == Thread
  {
    hide Apply, Selector, CredentialUse, SpendersCurrent, KeyFits;
    SpendFactsAt(cfg, r, i, id);
    SpendFactsAt(cfg, r, j, id);
    var c := CreationOf(cfg, r, j, id);
    CreationIs(cfg, r, i, id, c);
  }

  lemma CreatedOnce(cfg: Config, r: Run, i: nat, j: nat, id: Id)
    requires ValidRun(cfg, r) && i < j < |r.ops| && CreatedAt(cfg, r, i, id)
    ensures !CreatedAt(cfg, r, j, id)
  {
    hide Apply;
    CreatedFresh(cfg, r, i, id);
    RunGrows(cfg, r, i + 1, j);
    if CreatedAt(cfg, r, j, id) {
      CreatedFresh(cfg, r, j, id);
      assert false;
    }
  }

  lemma CreatedFresh(cfg: Config, r: Run, i: nat, id: Id)
    requires ValidRun(cfg, r) && i < |r.ops| && CreatedAt(cfg, r, i, id)
    ensures id !in r.states[i].minted && id in r.states[i + 1].minted
    ensures id in r.states[i + 1].rows && r.states[i + 1].rows[id] == FreshRow(r.ops[i].k, r.states[i].now)
  {
    hide Selector, CredentialUse, GenerationLive, Request;
    assert StepOk(cfg, r, i);
    RunInv(cfg, r, i);
    RequestShape(cfg, r.states[i], r.ops[i].k, r.ops[i].enterprise, r.ops[i].issuedAt, r.ops[i].newId);
  }

  /** The creation of a row is the request that `CreationOf` finds. */
  lemma CreationIs(cfg: Config, r: Run, i: nat, id: Id, c: nat)
    requires ValidRun(cfg, r) && c < |r.ops| && i <= |r.ops| && id in r.states[i].rows && CreatedAt(cfg, r, c, id)
    ensures c < i && r.states[i].rows[id].createdAt == r.states[c].now
    ensures forall m :: c < m <= i ==> id in r.states[m].rows && SameConversation(r.states[m].rows[id].key, r.ops[c].k)
    ensures forall m :: c < m <= i && r.states[m].rows[id].status == Pending ==> r.states[m].rows[id] == FreshRow(r.ops[c].k, r.states[c].now)
  {
    hide Apply, Selector;
    var c' := CreationOf(cfg, r, i, id);
    if c' < c {
      CreatedOnce(cfg, r, c', c, id);
    } else if c < c' {
      CreatedOnce(cfg, r, c, c', id);
    }
  }

  /** So the map from `once` spends to the decisions that approved them is one-to-one. */
  lemma OnceSpendsInject(cfg: Config, r: Run, i: nat, i': nat, j: nat, id: Id, id': Id)
    requires ValidRun(cfg, r) && i < |r.ops| && i' < |r.ops| && j < |r.ops|
    requires SpentAt(cfg, r, i, id) && SpentAt(cfg, r, i', id') && r.ops[i].k.grant == Once
    requires ApprovedAt(cfg, r, j, id) && ApprovedAt(cfg, r, j, id')
    ensures i == i'
  {
    hide Apply, Decide, Consume;
    if i < i' {
      OnceSpentOnce(cfg, r, i, i', id);
    } else if i' < i {
      OnceSpentOnce(cfg, r, i', i, id);
    }
  }

  // ---------------------------------------------------------------------------------------------
  // No lifecycle change between request and spend
  // ---------------------------------------------------------------------------------------------

  /** An offboarding committed after a row was created covers neither the requester nor the bound member
      of any later spend of that row, even if no cleanup ever ran. */
  lemma NoOffboardingBeforeSpend(cfg: Config, r: Run, i: nat, id: Id, c: nat, m: nat)
    requires ValidRun(cfg, r) && c < m < i < |r.ops| && SpentAt(cfg, r, i, id) && CreatedAt(cfg, r, c, id)
    requires r.ops[m].FenceTx? && FenceStep(cfg.digest, r.states[m].tombs, r.states[m].now, r.ops[m].op).1
    ensures var k := r.ops[i].k; var e := r.ops[i].enterprise;
      && !Removes(r.ops[m].op, UserIdentity(e, k))
      && (DelegationOf(k) == Bound ==> !Removes(r.ops[m].op, MemberIdentity(e, k)))
  {
    hide Apply, Selector, CredentialUse, KeyFits, Removes, Current;
    SpendFactsAt(cfg, r, i, id);
    var k, e := r.ops[i].k, r.ops[i].enterprise;
    CreationIs(cfg, r, i, id, c);
    RunGrows(cfg, r, c, m);
    if Removes(r.ops[m].op, UserIdentity(e, k)) {
      OffboardingBlocks(cfg, r, m, i, UserIdentity(e, k), r.states[c].now);
      assert false;
    }
    if DelegationOf(k) == Bound && Removes(r.ops[m].op, MemberIdentity(e, k)) {
      OffboardingBlocks(cfg, r, m, i, MemberIdentity(e, k), r.states[c].now);
      assert false;
    }
  }

  lemma FenceCommits(cfg: Config, r: Run, m: nat)
    requires ValidRun(cfg, r) && m < |r.ops| && r.ops[m].FenceTx?
    ensures r.states[m + 1].tombs == FenceStep(cfg.digest, r.states[m].tombs, r.states[m].now, r.ops[m].op).0
  {
    hide FenceStep, Request, Decide, Consume, BeginSession;
    assert StepOk(cfg, r, m);
  }

  lemma OffboardingBlocks(cfg: Config, r: Run, m: nat, i: nat, who: Identity, issuedAt: int)
    requires ValidRun(cfg, r) && m < i < |r.ops| && r.ops[m].FenceTx? && Removes(r.ops[m].op, who)
    requires FenceStep(cfg.digest, r.states[m].tombs, r.states[m].now, r.ops[m].op).1 && issuedAt <= r.states[m].now
    ensures !Current(r.states[i].tombs, who, issuedAt)
  {
    hide Apply, FenceStep, LatestOffboard, Removes, Advances, Inv;
    FenceCommits(cfg, r, m);
    RunGrows(cfg, r, m + 1, i);
    RemovalFences(cfg.digest, r.states[m].tombs, r.states[m].now, r.ops[m].op, who);
    LatestOffboardMonotone(r.states[m + 1].tombs, r.states[i].tombs, who);
  }

  /** A replaced or deleted credential generation never becomes live again, anywhere. */
  lemma {:induction false} GenerationNeverReturns(cfg: Config, r: Run, o: Owner, p: string, g: Id, i: nat, j: nat)
    requires ValidRun(cfg, r) && i <= j <= |r.ops| && g in r.states[i].minted && LiveId(r.states[i], o, p) != Some(g)
    ensures LiveId(r.states[j], o, p) != Some(g)
    decreases j - i
  {
    if i < j {
      GenerationNeverReturns(cfg, r, o, p, g, i, j - 1);
      RunGrows(cfg, r, i, j - 1);
      assert StepOk(cfg, r, j - 1);
      StepLive(cfg, r.states[j - 1], r.ops[j - 1], o, p);
    }
  }

  lemma StepLive(cfg: Config, t: Tables, op: Op, o: Owner, p: string)
    requires Enabled(t, op)
    ensures var l := LiveId(Apply(cfg, t, op).0, o, p);
      l == LiveId(t, o, p) || l.None? || (op.WriteCredential? && l == Some(op.newId) && l.value !in t.minted)
  {
    hide Selector, CredentialUse, GenerationLive, Decide, Consume, Replaceable, Reusable, Renewed;
  }

  lemma GenerationHeldBetween(cfg: Config, r: Run, o: Owner, p: string, g: Id, i: nat, m: nat, j: nat)
    requires ValidRun(cfg, r) && i <= m <= j <= |r.ops|
    requires g in r.states[i].minted && LiveId(r.states[j], o, p) == Some(g)
    ensures LiveId(r.states[m], o, p) == Some(g)
  {
    RunGrows(cfg, r, i, m);
    if LiveId(r.states[m], o, p) != Some(g) {
      GenerationNeverReturns(cfg, r, o, p, g, m, j);
    }
  }

  /** From the decision to the spend the owner held one credential generation throughout; and from the
      request on, unless the decision re-keyed a worker's placeholder. */
  lemma NoGenerationChangeBeforeSpend(cfg: Config, r: Run, i: nat, id: Id, c: nat, j: nat, m: nat)
    requires ValidRun(cfg, r) && c < m <= i < |r.ops| && j < |r.ops| && SpentAt(cfg, r, i, id)
    requires CreatedAt(cfg, r, c, id) && ApprovedAt(cfg, r, j, id)
    ensures j <= m || DelegationOf(r.ops[c].k) != Unbound ==>
      LiveId(r.states[m], r.ops[i].k.Owner(), r.ops[i].k.provider) == Some(r.ops[i].k.credential)
  {
    hide Apply, Selector, CredentialUse, Decide, Consume, Request, SpendersCurrent;
    SpendFactsAt(cfg, r, i, id);
    ApproveFactsAt(cfg, r, j, id);
    var k := r.ops[i].k;
    CreationIs(cfg, r, i, id, c);
    var j' := ApprovalOf(cfg, r, i, id);
    if j' < j {
      ApprovedOnce(cfg, r, j', j, id);
    } else if j < j' {
      ApprovedOnce(cfg, r, j, j', id);
    }
    if j <= m {
      GenerationHeldBetween(cfg, r, k.Owner(), k.provider, k.credential, j, m, i);
    } else if DelegationOf(r.ops[c].k) != Unbound {
      assert r.states[j].rows[id].key == r.ops[c].k;
      CreatedGeneration(cfg, r, c, id);
      RunGrows(cfg, r, c, m);
      GenerationHeldBetween(cfg, r, k.Owner(), k.provider, k.credential, m, m, i);
    }
  }

  lemma CreatedGeneration(cfg: Config, r: Run, c: nat, id: Id)
    requires ValidRun(cfg, r) && c < |r.ops| && CreatedAt(cfg, r, c, id)
    ensures KeyFits(r.states[c], r.ops[c].k) && NormalKey(r.ops[c].k)
    ensures GenerationLive(r.states[c], r.ops[c].k) && Covered(cfg, r.ops[c].k)
  {
    hide Selector, CredentialUse, GenerationLive, KeyFits, Request;
    RunInv(cfg, r, c);
    assert StepOk(cfg, r, c);
    RequestShape(cfg, r.states[c], r.ops[c].k, r.ops[c].enterprise, r.ops[c].issuedAt, r.ops[c].newId);
  }

  ghost predicate GovernanceChanged(t: Tables, op: Op, c: Tuple) {
    || (op.SetActsAs? && op.tuple == c && ActingAs(t, c) != op.who)
    || (op.SetTool? && op.tuple == c && ToolEnabled(t, c) != op.enabled)
  }

  /** A governance change leaves no approval of its tuple. */
  lemma GovernanceChangePurges(cfg: Config, t: Tables, op: Op, c: Tuple)
    requires Enabled(t, op) && GovernanceChanged(t, op, c)
    ensures var t' := Apply(cfg, t, op).0; forall id :: id in t'.rows ==>
      !(t'.rows[id].key.team == c.team && Column(t'.rows[id].key.channel) == c.channel && t'.rows[id].key.provider == c.provider)
  {
    hide Selector, Decide, Consume, Request, FenceStep, BeginSession, KeepsBindings;
  }

  /** No identity or tool change of the channel and provider lies between a request and its spend, not
      even one that was changed back. */
  lemma NoGovernanceChangeBeforeSpend(cfg: Config, r: Run, i: nat, id: Id, c: nat, m: nat)
    requires ValidRun(cfg, r) && c < m < i < |r.ops| && SpentAt(cfg, r, i, id) && CreatedAt(cfg, r, c, id)
    requires r.ops[i].k.channel.Some?
    ensures !GovernanceChanged(r.states[m], r.ops[m], Tuple(r.ops[i].k.team, r.ops[i].k.channel.value, r.ops[i].k.provider))
  {
    hide Apply, Selector, CredentialUse, SpendersCurrent, KeyFits, GovernanceChanged;
    SpendFactsAt(cfg, r, i, id);
    var k := r.ops[i].k;
    var tuple := Tuple(k.team, k.channel.value, k.provider);
    CreationIs(cfg, r, i, id, c);
    assert Column(r.states[i].rows[id].key.channel) == k.channel.value;
    assert StepOk(cfg, r, m);
    if GovernanceChanged(r.states[m], r.ops[m], tuple) {
      GovernanceChangePurges(cfg, r.states[m], r.ops[m], tuple);
      assert false;
    }
  }

  // ---------------------------------------------------------------------------------------------
  // Who granted
  // ---------------------------------------------------------------------------------------------

  /** Every grant ever held came from one click that decides the row as it was pending: by somebody whom its rule asks,
      in a safe channel where the rule needs one, still current, for a use that was still current; and it
      fits that rule as it stands. */
  lemma GrantIsLegitimate(cfg: Config, r: Run, i: nat, id: Id) returns (j: nat)
    requires ValidRun(cfg, r) && i <= |r.ops| && id in r.states[i].rows && r.states[i].rows[id].status == Granted
    ensures j < i && ApprovedAt(cfg, r, j, id) && id in r.states[j].rows
    ensures r.ops[j].click.id == id && r.ops[j].click.approve && Decides(cfg, r.states[j], r.ops[j].click)
    ensures r.states[i].rows[id].approvedBy == Some(r.ops[j].click.actor.user)
    ensures Approved(cfg, r.states[j], r.states[j + 1], r.ops[j].click, r.states[i].rows[id].expiresAt)
    ensures GrantFits(cfg, r.states[i].rows[id])
    ensures forall other :: other in r.states[i].rows && r.states[i].rows[other].actionKey == r.states[i].rows[id].actionKey ==> other == id
  {
    hide Apply, Selector, KeyFits, SessionsFit, LiveFits, CredentialUse, Decide, Decides, Reaches, Approved, Current, GrantFits;
    j := ApprovalOf(cfg, r, i, id);
    RunInv(cfg, r, j);
    DecisionOutcome(cfg, r, j);
    ApprovedDecides(cfg, r, j, id);
    NextOfDecision(cfg, r, j);
    DecidesLends(cfg, r.states[j], r.ops[j].click);
    ClickWrites(cfg, r.states[j], r.ops[j].click);
    RunInv(cfg, r, i);
    assert RowFits(cfg, r.states[i], r.states[i].rows[id]);
  }

  lemma DecidesLends(cfg: Config, t: Tables, c: Click)
    requires Decides(cfg, t, c)
    ensures c.id in t.rows && t.rows[c.id].key.provider in cfg.rules && (Lends(t, c) ==> c.seenCredential.Some?)
  {
  }

  /** And every denial ever held came from one deny click by somebody who might have approved. */
  lemma {:induction false} DenialIsLegitimate(cfg: Config, r: Run, i: nat, id: Id) returns (j: nat)
    requires ValidRun(cfg, r) && i <= |r.ops| && id in r.states[i].rows && r.states[i].rows[id].status == Denied
    ensures j < i && r.ops[j].DecideOp? && r.ops[j].click.id == id && !r.ops[j].click.approve
    ensures Decides(cfg, r.states[j], r.ops[j].click) && OutcomeAt(cfg, r, j) == Decided(Deny)
    ensures r.states[i].rows[id].approvedBy == Some(r.ops[j].click.actor.user)
  {
    hide Apply, Selector, Decide, Decides;
    assert i > 0 by {
      assert r.states[0].rows == map[];
    }
    RunRow(cfg, r, i - 1, id);
    if id in r.states[i - 1].rows && r.states[i - 1].rows[id] == r.states[i].rows[id] {
      j := DenialIsLegitimate(cfg, r, i - 1, id);
    } else {
      j := i - 1;
      DecisionOutcome(cfg, r, j);
      ClickAnswers(cfg, r.states[j], r.ops[j].click);
    }
  }

  // ---------------------------------------------------------------------------------------------
  // What the requester is told
  // ---------------------------------------------------------------------------------------------

  /** A spent `once` grant reads as unknown to everyone, for ever after. */
  lemma SpentReadsAsUnknown(cfg: Config, r: Run, i: nat, j: nat, id: Id, team: string, user: string)
    requires ValidRun(cfg, r) && i < j <= |r.ops| && SpentAt(cfg, r, i, id) && r.ops[i].k.grant == Once
    ensures AuthorizationStatus(r.states[j], id, team, user) == None
  {
    hide Apply, Selector, CredentialUse, SpendersCurrent, KeyFits, Inv;
    SpendFactsAt(cfg, r, i, id);
    var c := CreationOf(cfg, r, i, id);
    CreatedFresh(cfg, r, c, id);
    RunGrows(cfg, r, c + 1, i + 1);
    RowNeverReturns(cfg, r, id, i + 1, j);
  }

  /** `approved` is only ever read by the requester, after a decision that approved the row, before it
      expires, and never once the grant was spent; `pending` means that no decision has approved it. */
  lemma StatusIsTruthful(cfg: Config, r: Run, i: nat, id: Id, team: string, user: string)
    requires ValidRun(cfg, r) && i <= |r.ops|
    ensures var s := AuthorizationStatus(r.states[i], id, team, user);
      && (s == Some(PollApproved) ==> exists j: nat :: (
           j < i && ApprovedAt(cfg, r, j, id) && r.states[i].now < OutcomeAt(cfg, r, j).decision.expiresAt))
      && (s == Some(PollApproved) ==> forall m: nat :: m < i && SpentAt(cfg, r, m, id) ==> r.ops[m].k.grant == Thread)
      && (s == Some(PollPending) ==> forall m: nat :: m < i ==> !ApprovedAt(cfg, r, m, id))
      && (s.Some? ==> r.states[i].rows[id].key.team == team && r.states[i].rows[id].key.user == user)
  {
    hide Apply, Selector, Decide, SpentAt, ApprovedAt, Inv;
    var s := AuthorizationStatus(r.states[i], id, team, user);
    if s == Some(PollApproved) {
      var j := ApprovalOf(cfg, r, i, id);
      forall m: nat | m < i && SpentAt(cfg, r, m, id) ensures r.ops[m].ConsumeOp? && r.ops[m].k.grant == Thread {
        SpendIsConsume(cfg, r, m, id);
        if r.ops[m].k.grant == Once {
          SpentReadsAsUnknown(cfg, r, m, i, id, team, user);
        }
      }
    }
    if s == Some(PollPending) {
      forall m: nat | m < i ensures !ApprovedAt(cfg, r, m, id) {
        if ApprovedAt(cfg, r, m, id) {
          DecidedIsDecided(cfg, r, m, i, id);
          assert false;
        }
      }
    }
  }

  lemma SpendIsConsume(cfg: Config, r: Run, m: nat, id: Id)
    requires ValidRun(cfg, r) && m < |r.ops| && SpentAt(cfg, r, m, id)
    ensures r.ops[m].ConsumeOp?
  {
  }

  lemma DecidedIsDecided(cfg: Config, r: Run, m: nat, i: nat, id: Id)
    requires ValidRun(cfg, r) && m < i <= |r.ops| && ApprovedAt(cfg, r, m, id)
    ensures !(id in r.states[i].rows && r.states[i].rows[id].status == Pending)
  {
    hide Apply, Selector, Decide, KeyFits;
    ApproveFactsAt(cfg, r, m, id);
    RunInv(cfg, r, m + 1);
    NeverPendingAgain(cfg, r, id, m + 1, i);
  }
}
