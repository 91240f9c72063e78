/** Safety of approvals over every run: any interleaving of requests, decisions, spends, cleanups and
    lifecycle changes by any number of replicas. */
module ApprovalRuns {
  import opened Base
  import opened Fences
  import opened ActionKey
  import opened ApprovalModel
  import opened ApprovalInvariant

  datatype Run = Run(states: seq<Tables>, ops: seq<Op>)

  ghost predicate StepOk(cfg: Config, r: Run, i: nat)
    requires i < |r.ops| && |r.states| == |r.ops| + 1
  {
    Enabled(r.states[i], r.ops[i]) && r.states[i + 1] == Apply(cfg, r.states[i], r.ops[i]).0
  }

  ghost predicate ValidRun(cfg: Config, r: Run) {
    && |r.states| == |r.ops| + 1 && Init(r.states[0])
    && forall i: nat :: i < |r.ops| ==> StepOk(cfg, r, i)
  }

  ghost function OutcomeAt(cfg: Config, r: Run, i: nat): Outcome
    requires ValidRun(cfg, r) && i < |r.ops|
  {
    Apply(cfg, r.states[i], r.ops[i]).1
  }

  ghost predicate CreatedAt(cfg: Config, r: Run, i: nat, id: Id)
    requires ValidRun(cfg, r) && i < |r.ops|
  {
    r.ops[i].RequestOp? && OutcomeAt(cfg, r, i) == Requested(Created(id))
  }

  ghost predicate ApprovedAt(cfg: Config, r: Run, i: nat, id: Id)
    requires ValidRun(cfg, r) && i < |r.ops|
  {
    r.ops[i].DecideOp? && r.ops[i].click.id == id && OutcomeAt(cfg, r, i).decision.Approve?
  }

  ghost predicate SpentAt(cfg: Config, r: Run, i: nat, id: Id)
    requires ValidRun(cfg, r) && i < |r.ops|
  {
    r.ops[i].ConsumeOp? && OutcomeAt(cfg, r, i).consume.Spent? && OutcomeAt(cfg, r, i).consume.id == id
  }

  // ---------------------------------------------------------------------------------------------
  // One step
  // ---------------------------------------------------------------------------------------------

  /** Where a row of the next state comes from. */
  ghost predicate RowOrigin(cfg: Config, t: Tables, op: Op, id: Id, row: Row) {
    || (id in t.rows && row == t.rows[id])
    || (op.RequestOp? && Apply(cfg, t, op).1 == Requested(Created(id)) && id !in t.minted && row == FreshRow(op.k, t.now))
    || (op.DecideOp? && op.click.id == id && Decide(cfg, t, op.click).1.Approve? && PendingLive(t, id)
        && (Delegating(op.click, t.rows[id].key) ==> op.click.seenCredential.Some?)
        && row == (var key := GrantedKey(op.click, t.rows[id].key);
             Row(key, Selector(key), Granted, Some(op.click.actor.user), t.rows[id].createdAt, Decide(cfg, t, op.click).1.expiresAt)))
    || (op.DecideOp? && op.click.id == id && Decide(cfg, t, op.click).1.Deny? && PendingLive(t, id)
        && row == t.rows[id].(status := Denied, approvedBy := Some(op.click.actor.user), expiresAt := t.now + PENDING_TTL))
  }

  lemma StepRow(cfg: Config, t: Tables, op: Op, id: Id)
    requires Inv(cfg, t) && Enabled(t, op) && id in Apply(cfg, t, op).0.rows
    ensures RowOrigin(cfg, t, op, id, Apply(cfg, t, op).0.rows[id])
  {
    hide RowOrigin, Selector, Inv, Request, Decide, Consume, BeginSession, FenceStep;
    match op
    case RequestOp(_, _, _, _) => RequestRowOrigin(cfg, t, op, id);
    case DecideOp(_) => DecideRowOrigin(cfg, t, op, id);
    case ConsumeOp(_, _, _) => ConsumeRowOrigin(cfg, t, op, id);
    case _ => OtherRowOrigin(cfg, t, op, id);
  }

  lemma RequestRowOrigin(cfg: Config, t: Tables, op: Op, id: Id)
    requires Inv(cfg, t) && Enabled(t, op) && op.RequestOp? && id in Apply(cfg, t, op).0.rows
    ensures RowOrigin(cfg, t, op, id, Apply(cfg, t, op).0.rows[id])
  {
    hide Selector, RowFits, SessionFits, LiveFits, UniqueActions, CredentialUse, GenerationLive, KeyFits, Request;
    RequestShape(cfg, t, op.k, op.enterprise, op.issuedAt, op.newId);
  }

  lemma DecideRowOrigin(cfg: Config, t: Tables, op: Op, id: Id)
    requires Inv(cfg, t) && op.DecideOp? && id in Apply(cfg, t, op).0.rows
    ensures RowOrigin(cfg, t, op, id, Apply(cfg, t, op).0.rows[id])
  {
    hide Selector, Inv, Decide;
    DecideShape(cfg, t, op.click);
  }

  lemma ConsumeRowOrigin(cfg: Config, t: Tables, op: Op, id: Id)
    requires op.ConsumeOp? && id in Apply(cfg, t, op).0.rows
    ensures RowOrigin(cfg, t, op, id, Apply(cfg, t, op).0.rows[id])
  {
    hide Selector, CredentialUse, Consume;
    ConsumeShape(cfg, t, op.k, op.enterprise, op.issuedAt);
  }

  lemma OtherRowOrigin(cfg: Config, t: Tables, op: Op, id: Id)
    requires Enabled(t, op) && !op.RequestOp? && !op.DecideOp? && !op.ConsumeOp? && id in Apply(cfg, t, op).0.rows
    ensures RowOrigin(cfg, t, op, id, Apply(cfg, t, op).0.rows[id])
  {
    hide Apply, Selector;
    OthersShrink(cfg, t, op);
  }

  lemma OthersShrink(cfg: Config, t: Tables, op: Op)
    requires Enabled(t, op) && !op.RequestOp? && !op.DecideOp? && !op.ConsumeOp?
    ensures SubRows(Apply(cfg, t, op).0.rows, t.rows)
  {
    hide Apply, Selector;
    if IsCleanup(op) {
      CleanupShrinks(cfg, t, op);
    } else if op.BeginSessionOp? {
      BeginShrinks(cfg, t, op);
    } else {
      WriteShrinks(cfg, t, op);
    }
  }

  lemma BeginShrinks(cfg: Config, t: Tables, op: Op)
    requires Enabled(t, op) && op.BeginSessionOp?
    ensures SubRows(Apply(cfg, t, op).0.rows, t.rows)
  {
    hide BeginSession;
    BeginGrows(t, op.scope, op.newId);
  }

  lemma WriteShrinks(cfg: Config, t: Tables, op: Op)
    requires op.WriteCredential?
    ensures SubRows(Apply(cfg, t, op).0.rows, t.rows)
  {
    hide Selector, FenceStep, KeepsBindings, Request, Decide, Consume, BeginSession, WithoutUser;
  }

  lemma RequestGrows(cfg: Config, t: Tables, k: ApprovalKey, e: Option<EnterpriseId>, issuedAt: int, newId: Id)
    requires newId !in t.minted
    ensures Grows(t, Request(cfg, t, k, e, issuedAt, newId).0) && Request(cfg, t, k, e, issuedAt, newId).0.tombs == t.tombs
  {
    hide Selector, CredentialUse, GenerationLive, RequestOn, AuditOf, Covered, GovernanceScope;
    RequestOnGrows(t, k, newId);
  }

  lemma RequestOnGrows(t: Tables, k: ApprovalKey, newId: Id)
    requires newId !in t.minted
    ensures Grows(t, RequestOn(t, k, newId).0) && RequestOn(t, k, newId).0.tombs == t.tombs
  {
    hide Selector, Renewed, Replaceable, Reusable, FreshRow, Without;
  }

  lemma OtherGrows(cfg: Config, t: Tables, op: Op)
    requires Enabled(t, op) && !op.RequestOp? && !op.BeginSessionOp? && !op.FenceTx?
    ensures Grows(t, Apply(cfg, t, op).0) && Apply(cfg, t, op).0.tombs == t.tombs
  {
    hide FenceStep, Request, Decide, Consume, BeginSession, KeepsBindings, WithoutUser, WithoutTuple, PurgeCredentialRows, Lapsed;
    hide ActingAs, ToolEnabled, ExpiredAudit, LiveSessions, SessionsWithoutUser, WithoutExpired, Without, NormalKey;
  }

  /** Clock, minted ids and fences only grow. */
  lemma StepGrows(cfg: Config, t: Tables, op: Op)
    requires Enabled(t, op)
    ensures Grows(t, Apply(cfg, t, op).0) && Advances(t.tombs, Apply(cfg, t, op).0.tombs)
  {
    hide FenceStep, Request, Decide, Consume, BeginSession, KeepsBindings, WithoutUser, WithoutTuple, PurgeCredentialRows, Lapsed;
    hide ActingAs, ToolEnabled, ExpiredAudit, LiveSessions, SessionsWithoutUser, WithoutExpired, Without;
    if op.RequestOp? {
      RequestGrows(cfg, t, op.k, op.enterprise, op.issuedAt, op.newId);
    } else if op.BeginSessionOp? {
      BeginGrows(t, op.scope, op.newId);
    } else if op.FenceTx? {
      FenceStepAdvances(cfg.digest, t.tombs, t.now, op.op);
    } else {
      OtherGrows(cfg, t, op);
    }
  }

  // ---------------------------------------------------------------------------------------------
  // Along a run
  // ---------------------------------------------------------------------------------------------

  lemma {:induction false} RunInv(cfg: Config, r: Run, i: nat)
    requires ValidRun(cfg, r) && i <= |r.ops|
    ensures Inv(cfg, r.states[i])
  {
    hide Inv, Apply;
    if i == 0 {
      InitInv(cfg, r.states[0]);
    } else {
      RunInv(cfg, r, i - 1);
      assert StepOk(cfg, r, i - 1);
      StepKeepsInv(cfg, r.states[i - 1], r.ops[i - 1]);
    }
  }

  lemma {:induction false} RunGrows(cfg: Config, r: Run, i: nat, j: nat)
    requires ValidRun(cfg, r) && i <= j <= |r.ops|
    ensures Grows(r.states[i], r.states[j]) && Advances(r.states[i].tombs, r.states[j].tombs)
    decreases j - i
  {
    hide Apply;
    if i < j {
      RunGrows(cfg, r, i, j - 1);
      assert StepOk(cfg, r, j - 1);
      StepGrows(cfg, r.states[j - 1], r.ops[j - 1]);
    }
  }

  lemma RunRow(cfg: Config, r: Run, i: nat, id: Id)
    requires ValidRun(cfg, r) && i < |r.ops| && id in r.states[i + 1].rows
    ensures RowOrigin(cfg, r.states[i], r.ops[i], id, r.states[i + 1].rows[id])
  {
    hide Inv, Apply, RowOrigin;
    RunInv(cfg, r, i);
    assert StepOk(cfg, r, i);
    StepRow(cfg, r.states[i], r.ops[i], id);
  }

  /** A row that is gone never comes back. */
  lemma {:induction false} RowNeverReturns(cfg: Config, r: Run, id: Id, i: nat, j: nat)
    requires ValidRun(cfg, r) && i <= j <= |r.ops|
    requires id in r.states[i].minted && id !in r.states[i].rows
    ensures id !in r.states[j].rows
    decreases j - i
  {
    hide Apply;
    if i < j {
      RowNeverReturns(cfg, r, id, i, j - 1);
      if id in r.states[j].rows {
        RunRow(cfg, r, j - 1, id);
        RunGrows(cfg, r, i, j - 1);
        assert false;
      }
    }
  }

  /** The request that created a row, and what stays of it. */
  lemma {:induction false} CreationOf(cfg: Config, r: Run, i: nat, id: Id) returns (c: nat)
    requires ValidRun(cfg, r) && i <= |r.ops| && id in r.states[i].rows
    ensures c < i && CreatedAt(cfg, r, c, id)
    ensures r.states[i].rows[id].createdAt == r.states[c].now
    ensures forall m :: c < m <= i ==> id in r.states[m].rows && SameConversation(r.states[m].rows[id].key, r.ops[c].k)
    ensures forall m :: c < m <= i && r.states[m].rows[id].status == Pending ==> r.states[m].rows[id] == FreshRow(r.ops[c].k, r.states[c].now)
  {
    hide Apply, Selector, Decide;
    assert i > 0 by {
      assert r.states[0].rows == map[];
    }
    RunRow(cfg, r, i - 1, id);
    RunInv(cfg, r, i - 1);
    hide RowFits, SessionsFit, LiveFits, UniqueActions;
    if id in r.states[i - 1].rows {
      c := CreationOf(cfg, r, i - 1, id);
    } else {
      c := i - 1;
    }
  }

  predicate SameConversation(a: ApprovalKey, b: ApprovalKey) {
    && a.team == b.team && a.user == b.user && a.provider == b.provider && a.channel == b.channel
    && a.thread == b.thread && a.governable == b.governable && a.grant == b.grant && a.delegated == b.delegated && SameAction(a, b)
  }

  /** The decision that granted a row; the row has not changed since. */
  lemma {:induction false} ApprovalOf(cfg: Config, r: Run, i: nat, id: Id) returns (j: nat)
    requires ValidRun(cfg, r) && i <= |r.ops| && id in r.states[i].rows && r.states[i].rows[id].status == Granted
    ensures j < i && ApprovedAt(cfg, r, j, id)
    ensures forall m :: j < m <= i ==> id in r.states[m].rows && r.states[m].rows[id] == r.states[i].rows[id]
    ensures PendingLive(r.states[j], id)
    ensures r.states[i].rows[id].expiresAt == OutcomeAt(cfg, r, j).decision.expiresAt
    ensures r.states[i].rows[id].approvedBy == Some(r.ops[j].click.actor.user)
    ensures Delegating(r.ops[j].click, r.states[j].rows[id].key) ==> r.ops[j].click.seenCredential.Some?
    ensures r.states[i].rows[id].key == GrantedKey(r.ops[j].click, r.states[j].rows[id].key)
  {
    hide Apply, Selector, Decide;
    assert i > 0 by {
      assert r.states[0].rows == map[];
    }
    RunRow(cfg, r, i - 1, id);
    if id in r.states[i - 1].rows && r.states[i - 1].rows[id] == r.states[i].rows[id] {
      j := ApprovalOf(cfg, r, i - 1, id);
    } else {
      j := i - 1;
      assert OutcomeAt(cfg, r, j) == Decided(Decide(cfg, r.states[j], r.ops[j].click).1) by {
        DecisionOutcome(cfg, r, j);
      }
    }
  }

  lemma DecisionOutcome(cfg: Config, r: Run, j: nat)
    requires ValidRun(cfg, r) && j < |r.ops| && r.ops[j].DecideOp?
    ensures OutcomeAt(cfg, r, j) == Decided(Decide(cfg, r.states[j], r.ops[j].click).1)
  {
  }
}
