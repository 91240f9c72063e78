/** The audit trail of approvals against what happened, step by step and over every run. */
module AuditTheorems {
  import opened Base
  import opened Fences
  import opened ActionKey
  import opened ApprovalModel
  import opened ApprovalInvariant
  import opened ApprovalRuns
  import opened ApprovalTheorems

  // ---------------------------------------------------------------------------------------------
  // Which event accounts for an audit row
  // ---------------------------------------------------------------------------------------------

  ghost predicate Turned(t: Tables, t': Tables, id: Id, status: Status) {
    PendingLive(t, id) && id in t'.rows && t'.rows[id].status == status
  }

  ghost predicate NewRow(t: Tables, t': Tables, id: Id) {
    id in t'.rows && id !in t.minted
  }

  /** The event of its kind that the row records, told by the tables before and after and by the outcome: a row
      was created, a pending row turned granted or denied, a click was found ineligible by its validator,
      a swept prompt or grant was accounted for, a grant was spent. */
  ghost predicate Accounts(t: Tables, op: Op, t': Tables, out: Outcome, e: AuditRow) {
    match e.action
    case RequestedAudit => exists id :: NewRow(t, t', id) && e == AuditOf(RequestedAudit, t'.rows[id].key, None)
    case ApprovedAudit => exists id :: Turned(t, t', id, Granted) && e == AuditOf(ApprovedAudit, t'.rows[id].key, t'.rows[id].approvedBy)
    case ConsumedAudit => op.ConsumeOp? && out.Consumed? && out.consume.Spent? && e == AuditOf(ConsumedAudit, op.k, out.consume.approvedBy)
    case DeniedAudit(reason) =>
      match reason
      case ApprovalDenied =>
        exists id :: Turned(t, t', id, Denied) && e == AuditOf(DeniedAudit(ApprovalDenied), t'.rows[id].key, t'.rows[id].approvedBy)
      case NotApprover =>
        && op.DecideOp? && out == Decided(IneligibleClick) && op.click.id in t.rows
        && e == NotApproverAudit(op.click.actor, t.rows[op.click.id].key.provider)
      case ApprovalExpired => op.RecordExpiry? && op.id in t.owed && e == ExpiredAudit(t.owed[op.id])
  }

  /** Audit rows and events correspond one to one: the step appends a row exactly when that row's event
      happened, and never more than one. */
  ghost predicate AuditExact(t: Tables, op: Op, t': Tables, out: Outcome) {
    && (t'.audit == t.audit || exists e :: Appends(t, t', e))
    && forall e :: Accounts(t, op, t', out, e) <==> Appends(t, t', e)
  }

  ghost predicate Appends(t: Tables, t': Tables, e: AuditRow) {
    t'.audit == t.audit + [e]
  }

  lemma AppendsOne(t: Tables, t': Tables, e: AuditRow, f: AuditRow)
    requires Appends(t, t', e)
    ensures t'.audit != t.audit && (Appends(t, t', f) ==> e == f)
  {
    assert t'.audit[|t.audit|] == e;
  }

  // ---------------------------------------------------------------------------------------------
  // One step
  // ---------------------------------------------------------------------------------------------

  ghost predicate Quiet(t: Tables, op: Op, out: Outcome) {
    && (out.Consumed? ==> !out.consume.Spent?)
    && !(out.Decided? && out.decision.IneligibleClick?)
    && (op.RecordExpiry? ==> op.id !in t.owed)
  }

  /** A step that only removes rows has no event and appends nothing. */
  lemma FewerRowsAuditExact(t: Tables, op: Op, t': Tables, out: Outcome)
    requires SubRows(t'.rows, t.rows) && t'.audit == t.audit && (forall i :: i in t.rows ==> i in t.minted) && Quiet(t, op, out)
    ensures AuditExact(t, op, t', out)
  {
    hide AuditOf;
    forall e ensures !Appends(t, t', e) {
      assert |t.audit + [e]| == |t.audit| + 1;
    }
  }

  lemma RequestAuditExact(cfg: Config, t: Tables, op: Op)
    requires Inv(cfg, t) && Enabled(t, op) && op.RequestOp?
    ensures var (t', out) := Apply(cfg, t, op); AuditExact(t, op, t', out)
  {
    hide Selector, RowFits, SessionFits, LiveFits, UniqueActions, CredentialUse, AuditOf, AuditExact;
    var (t', out) := Apply(cfg, t, op);
    RequestShape(cfg, t, op.k, op.enterprise, op.issuedAt, op.newId);
    hide Request, KeyFits, GenerationLive;
    if out.request.Created? {
      OneCreationAuditExact(t, op, t', out);
    } else {
      FewerRowsAuditExact(t, op, t', out);
    }
  }

  lemma OneCreationAuditExact(t: Tables, op: Op, t': Tables, out: Outcome)
    requires op.RequestOp? && out.Requested? && op.newId in t'.rows && op.newId !in t.minted
    requires t'.rows[op.newId].status == Pending && (forall i :: i in t.rows ==> i in t.minted)
    requires forall i :: i in t'.rows && i != op.newId ==> i in t.rows && t'.rows[i] == t.rows[i]
    requires Appends(t, t', AuditOf(RequestedAudit, t'.rows[op.newId].key, None))
    ensures AuditExact(t, op, t', out)
  {
    hide Selector;
    var row := AuditOf(RequestedAudit, t'.rows[op.newId].key, None);
    assert NewRow(t, t', op.newId);
    forall e ensures Accounts(t, op, t', out, e) <==> Appends(t, t', e) {
      AppendsOne(t, t', row, e);
    }
  }

  lemma AuditOfAction(action: AuditAction, k: ApprovalKey, actor: Option<string>)
    ensures AuditOf(action, k, actor).action == action
  {
  }

  /** One pending row decided, perhaps other rows removed, and its companion appended. */
  lemma OneDecisionAuditExact(t: Tables, op: Op, t': Tables, out: Outcome, id: Id)
    requires PendingLive(t, id) && id in t'.rows && t'.rows[id].status != Pending && Quiet(t, op, out)
    requires (forall i :: i in t.rows ==> i in t.minted) && !op.RecordExpiry? && !op.ConsumeOp?
    requires forall i :: i in t'.rows && i != id ==> i in t.rows && t'.rows[i] == t.rows[i]
    requires Appends(t, t', DecisionAudit(t'.rows[id]))
    ensures AuditExact(t, op, t', out)
  {
    hide Selector, AuditOf, NotApproverAudit, ExpiredAudit, Accounts, DecisionAudit;
    var row := DecisionAudit(t'.rows[id]);
    forall e ensures Accounts(t, op, t', out, e) <==> Appends(t, t', e) {
      AppendsOne(t, t', row, e);
      OneDecisionAccounts(t, op, t', out, id, e);
    }
  }

  /** The companion of a decided row. */
  function DecisionAudit(row: Row): AuditRow {
    AuditOf(if row.status == Granted then ApprovedAudit else DeniedAudit(ApprovalDenied), row.key, row.approvedBy)
  }

  lemma OneDecisionAccounts(t: Tables, op: Op, t': Tables, out: Outcome, id: Id, e: AuditRow)
    requires PendingLive(t, id) && id in t'.rows && t'.rows[id].status != Pending && Quiet(t, op, out)
    requires (forall i :: i in t.rows ==> i in t.minted) && !op.RecordExpiry? && !op.ConsumeOp?
    requires forall i :: i in t'.rows && i != id ==> i in t.rows && t'.rows[i] == t.rows[i]
    ensures Accounts(t, op, t', out, e) <==> e == DecisionAudit(t'.rows[id])
  {
    hide Selector, AuditOf, NotApproverAudit, ExpiredAudit;
    AuditOfAction(if t'.rows[id].status == Granted then ApprovedAudit else DeniedAudit(ApprovalDenied), t'.rows[id].key, t'.rows[id].approvedBy);
    assert Turned(t, t', id, t'.rows[id].status);
  }

  /** The rows stay, one event that is not a row's happened, and its row is appended. */
  lemma OneNoteAuditExact(t: Tables, op: Op, t': Tables, out: Outcome, row: AuditRow)
    requires SubRows(t'.rows, t.rows) && (forall i :: i in t.rows ==> i in t.minted)
    requires Appends(t, t', row) && Accounts(t, op, t', out, row)
    requires row.action == ConsumedAudit || row.action == DeniedAudit(NotApprover) || row.action == DeniedAudit(ApprovalExpired)
    ensures AuditExact(t, op, t', out)
  {
    hide AuditOf;
    forall e ensures Accounts(t, op, t', out, e) <==> Appends(t, t', e) {
      AppendsOne(t, t', row, e);
    }
  }

  lemma DecideAuditExact(cfg: Config, t: Tables, op: Op)
    requires Inv(cfg, t) && op.DecideOp?
    ensures var (t', d) := Decide(cfg, t, op.click); AuditExact(t, op, t', Decided(d))
  {
    hide Selector, RowFits, SessionFits, LiveFits, UniqueActions, CredentialUse;
    hide AuditExact, Covered, GrantedKey, AuditOf, Decide, Accounts, Turned, NewRow, ExpiredAudit, NotApproverAudit, Delegating;
    var c := op.click;
    var (t', d) := Decide(cfg, t, c);
    DecideShape(cfg, t, c);
    if d.Approve? || d.Deny? {
      OneDecisionAuditExact(t, op, t', Decided(d), c.id);
    } else if d.IneligibleClick? {
      IneligibleClickAccounts(t, op, t', Decided(d));
      OneNoteAuditExact(t, op, t', Decided(d), NotApproverAudit(c.actor, t.rows[c.id].key.provider));
    } else {
      FewerRowsAuditExact(t, op, t', Decided(d));
    }
  }

  lemma IneligibleClickAccounts(t: Tables, op: Op, t': Tables, out: Outcome)
    requires op.DecideOp? && out == Decided(IneligibleClick) && op.click.id in t.rows
    ensures var e := NotApproverAudit(op.click.actor, t.rows[op.click.id].key.provider);
      e.action == DeniedAudit(NotApprover) && Accounts(t, op, t', out, e)
  {
  }

  lemma ConsumeAuditExact(cfg: Config, t: Tables, op: Op)
    requires Inv(cfg, t) && Enabled(t, op) && op.ConsumeOp?
    ensures var (t', out) := Apply(cfg, t, op); AuditExact(t, op, t', out)
  {
    hide Selector, RowFits, SessionFits, LiveFits, UniqueActions, CredentialUse, SpendersCurrent, Spendable, Covered, HasGrant;
    hide AuditExact, AuditOf;
    var (t', out) := Apply(cfg, t, op);
    ConsumeShape(cfg, t, op.k, op.enterprise, op.issuedAt);
    if out.consume.Spent? {
      SpendFacts(cfg, t, op.k, op.enterprise, op.issuedAt);
      hide Consume;
      ConsumedRowAccounts(t, op, t', out);
      OneNoteAuditExact(t, op, t', out, AuditOf(ConsumedAudit, op.k, out.consume.approvedBy));
    } else {
      FewerRowsAuditExact(t, op, t', out);
    }
  }

  lemma ConsumedRowAccounts(t: Tables, op: Op, t': Tables, out: Outcome)
    requires op.ConsumeOp? && out.Consumed? && out.consume.Spent?
    ensures var e := AuditOf(ConsumedAudit, op.k, out.consume.approvedBy); e.action == ConsumedAudit && Accounts(t, op, t', out, e)
  {
  }

  lemma RecordAuditExact(cfg: Config, t: Tables, op: Op)
    requires Inv(cfg, t) && op.RecordExpiry?
    ensures var (t', out) := Apply(cfg, t, op); AuditExact(t, op, t', out)
  {
    hide Selector, RowFits, SessionFits, LiveFits, UniqueActions, AuditExact;
    var (t', out) := Apply(cfg, t, op);
    if op.id in t.owed {
      OneNoteAuditExact(t, op, t', out, ExpiredAudit(t.owed[op.id]));
    } else {
      FewerRowsAuditExact(t, op, t', out);
    }
  }

  /** Every step: a request row exactly when a row was created, `approved` and `denied` rows exactly when a
      row turned granted or denied, a not-approver row exactly for an ineligible click in its
      transaction, an expiry row exactly for one swept prompt or grant, a consumed row exactly for a
      spend; each names its own row or clicker. */
  lemma AuditFollowsTransitions(cfg: Config, t: Tables, op: Op)
    requires Inv(cfg, t) && Enabled(t, op)
    ensures var (t', out) := Apply(cfg, t, op); AuditExact(t, op, t', out)
  {
    hide AuditExact, Request, Decide, Consume, Inv;
    match op
    case RequestOp(_, _, _, _) => RequestAuditExact(cfg, t, op);
    case DecideOp(_) => DecideAuditExact(cfg, t, op);
    case ConsumeOp(_, _, _) => ConsumeAuditExact(cfg, t, op);
    case RecordExpiry(_) => RecordAuditExact(cfg, t, op);
    case _ => SilentAuditExact(cfg, t, op);
  }

  lemma SilentAuditExact(cfg: Config, t: Tables, op: Op)
    requires Inv(cfg, t) && Enabled(t, op) && !op.RequestOp? && !op.DecideOp? && !op.ConsumeOp? && !op.RecordExpiry?
    ensures var (t', out) := Apply(cfg, t, op); AuditExact(t, op, t', out)
  {
    hide AuditExact, RowFits, SessionsFit, LiveFits, UniqueActions, Apply, Enabled, SubRows;
    OthersShrink(cfg, t, op);
    OthersAreSilent(cfg, t, op);
    FewerRowsAuditExact(t, op, Apply(cfg, t, op).0, Silent);
  }

  lemma OthersAreSilent(cfg: Config, t: Tables, op: Op)
    requires Enabled(t, op) && !op.RequestOp? && !op.DecideOp? && !op.ConsumeOp? && !op.RecordExpiry?
    ensures var (t', out) := Apply(cfg, t, op); t'.audit == t.audit && out == Silent
  {
    hide Request, Decide, Consume, FenceStep, KeepsBindings, SessionUsable, WithoutUser, WithoutTuple, PurgeCredentialRows, Lapsed;
    hide ActingAs, ToolEnabled, ExpiredAudit, LiveSessions, SessionsWithoutUser, WithoutExpired, Without, NormalKey;
  }

  // ---------------------------------------------------------------------------------------------
  // Over a run
  // ---------------------------------------------------------------------------------------------

  ghost predicate AccountsAt(cfg: Config, r: Run, i: nat, e: AuditRow)
    requires ValidRun(cfg, r) && i < |r.ops|
  {
    Accounts(r.states[i], r.ops[i], r.states[i + 1], OutcomeAt(cfg, r, i), e)
  }

  lemma RunAuditExact(cfg: Config, r: Run, i: nat)
    requires ValidRun(cfg, r) && i < |r.ops|
    ensures AuditExact(r.states[i], r.ops[i], r.states[i + 1], OutcomeAt(cfg, r, i))
  {
    hide Inv, AuditExact, Apply;
    RunInv(cfg, r, i);
    assert StepOk(cfg, r, i);
    AuditFollowsTransitions(cfg, r.states[i], r.ops[i]);
  }

  /** The steps of a history that the trail records, in the trail's order. */
  ghost predicate Records(cfg: Config, r: Run, n: nat, steps: seq<nat>)
    requires ValidRun(cfg, r) && n <= |r.ops|
  {
    && |steps| == |r.states[n].audit|
    && (forall a, b :: 0 <= a < b < |steps| ==> steps[a] < steps[b])
    && (forall a :: 0 <= a < |steps| ==> steps[a] < n && AccountsAt(cfg, r, steps[a], r.states[n].audit[a]))
    && (forall i: nat, e :: i < n && AccountsAt(cfg, r, i, e) ==> exists a :: 0 <= a < |steps| && steps[a] == i && r.states[n].audit[a] == e)
  }

  /** The trail of a run is its history: every audit row is the row of one event, every event has exactly one
      row, and rows come in the order of their events. */
  lemma {:induction false} TrailIsHistory(cfg: Config, r: Run, n: nat) returns (steps: seq<nat>)
    requires ValidRun(cfg, r) && n <= |r.ops|
    ensures Records(cfg, r, n, steps)
  {
    hide Accounts, Apply;
    if n == 0 {
      steps := [];
    } else {
      var before := TrailIsHistory(cfg, r, n - 1);
      RunAuditExact(cfg, r, n - 1);
      var prev, next := r.states[n - 1], r.states[n];
      if next.audit == prev.audit {
        steps := before;
        NothingAppended(cfg, r, n);
      } else {
        var e :| Appends(prev, next, e);
        steps := before + [n - 1];
        OneAppended(cfg, r, n, before, e);
      }
    }
  }

  lemma NothingAppended(cfg: Config, r: Run, n: nat)
    requires ValidRun(cfg, r) && 0 < n <= |r.ops| && r.states[n].audit == r.states[n - 1].audit
    ensures forall e {:trigger AccountsAt(cfg, r, n - 1, e)} :: !AccountsAt(cfg, r, n - 1, e)
  {
    hide Accounts, Apply;
    RunAuditExact(cfg, r, n - 1);
    forall e {:trigger AccountsAt(cfg, r, n - 1, e)} ensures !AccountsAt(cfg, r, n - 1, e) {
      assert |r.states[n - 1].audit + [e]| != |r.states[n].audit|;
    }
  }

  lemma OneAppended(cfg: Config, r: Run, n: nat, before: seq<nat>, e: AuditRow)
    requires ValidRun(cfg, r) && 0 < n <= |r.ops| && Records(cfg, r, n - 1, before) && Appends(r.states[n - 1], r.states[n], e)
    ensures Records(cfg, r, n, before + [n - 1])
  {
    hide Accounts, Apply;
    var steps := before + [n - 1];
    var trail := r.states[n].audit;
    RunAuditExact(cfg, r, n - 1);
    assert AccountsAt(cfg, r, n - 1, e);
    assert trail[|before|] == e;
    forall i: nat, f | i < n && AccountsAt(cfg, r, i, f) ensures exists a :: 0 <= a < |steps| && steps[a] == i && trail[a] == f {
      if i == n - 1 {
        AppendsOne(r.states[n - 1], r.states[n], e, f);
        assert steps[|before|] == i && trail[|before|] == f;
      } else {
        var a :| 0 <= a < |before| && before[a] == i && r.states[n - 1].audit[a] == f;
        assert steps[a] == i && trail[a] == f;
      }
    }
  }

  // ---------------------------------------------------------------------------------------------
  // Expiries
  // ---------------------------------------------------------------------------------------------

  /** Step `j` swept the row `id` while it was pending or granted. */
  ghost predicate SweptAt(r: Run, j: nat, id: Id)
    requires j < |r.ops| && |r.states| == |r.ops| + 1
  {
    r.ops[j].Sweep? && id in Lapsed(r.states[j].rows, r.states[j].now)
  }

  lemma StepOwed(cfg: Config, t: Tables, op: Op, id: Id)
    requires Enabled(t, op)
    ensures var t' := Apply(cfg, t, op).0;
      && (id in t'.owed ==>
          || (op.Sweep? && id in Lapsed(t.rows, t.now) && t'.owed[id] == t.rows[id])
          || (id in t.owed && t'.owed[id] == t.owed[id] && op != RecordExpiry(id) && op != ForgetExpiry(id)))
      && (id in t.owed && op != RecordExpiry(id) && op != ForgetExpiry(id) ==> id in t'.owed)
      && (op.Sweep? && id in Lapsed(t.rows, t.now) ==> id in t'.owed && id !in t'.rows)
  {
    hide Selector, Request, Decide, Consume, FenceStep, KeepsBindings, WithoutUser, WithoutTuple, PurgeCredentialRows, SessionUsable;
    hide ActingAs, ToolEnabled, ExpiredAudit, LiveSessions, SessionsWithoutUser, Enabled, Lapsed, WithoutExpired;
    if op.RequestOp? {
      RequestOwes(cfg, t, op.k, op.enterprise, op.issuedAt, op.newId);
    } else if op.Sweep? {
      SweepOwes(cfg, t, op);
    }
  }

  lemma SweepOwes(cfg: Config, t: Tables, op: Op)
    requires op.Sweep?
    ensures var t' := Apply(cfg, t, op).0;
      && t'.owed == t.owed + Lapsed(t.rows, t.now)
      && forall id :: id in Lapsed(t.rows, t.now) ==> id in t'.owed && t'.owed[id] == t.rows[id] && id !in t'.rows
  {
    hide Selector, Request, Decide, Consume, FenceStep, LiveSessions;
  }

  lemma RequestOwes(cfg: Config, t: Tables, k: ApprovalKey, e: Option<EnterpriseId>, issuedAt: int, newId: Id)
    ensures Request(cfg, t, k, e, issuedAt, newId).0.owed == t.owed
  {
    hide Selector, CredentialUse, GenerationLive, Covered, KeyFits, GovernanceScope, AuditOf, RequestOn;
    RequestOnOwes(t, k, newId);
  }

  lemma RequestOnOwes(t: Tables, k: ApprovalKey, newId: Id)
    ensures RequestOn(t, k, newId).0.owed == t.owed
  {
    hide Selector, Replaceable, Reusable, Renewed, FreshRow, Without;
  }

  /** A swept row that awaits its audit row was swept by one earlier step, lapsed and not denied. */
  lemma {:induction false} OwedOrigin(cfg: Config, r: Run, i: nat, id: Id) returns (j: nat)
    requires ValidRun(cfg, r) && i <= |r.ops| && id in r.states[i].owed
    ensures j < i && SweptAt(r, j, id) && r.states[i].owed[id] == r.states[j].rows[id]
    ensures forall m: nat :: j < m < i ==> r.ops[m] != RecordExpiry(id) && r.ops[m] != ForgetExpiry(id)
  {
    hide Apply;
    assert i > 0 by {
      assert r.states[0].owed == map[];
    }
    assert StepOk(cfg, r, i - 1);
    StepOwed(cfg, r.states[i - 1], r.ops[i - 1], id);
    if SweptAt(r, i - 1, id) && r.states[i].owed[id] == r.states[i - 1].rows[id] {
      j := i - 1;
    } else {
      j := OwedOrigin(cfg, r, i - 1, id);
    }
  }

  /** Every expiry row is about a row that one earlier sweep removed, lapsed, while it was pending or
      granted; and no row is ever reported expired twice. */
  lemma ExpiryIsOfSweptRow(cfg: Config, r: Run, i: nat, id: Id) returns (j: nat)
    requires ValidRun(cfg, r) && i < |r.ops| && r.ops[i] == RecordExpiry(id) && id in r.states[i].owed
    ensures j < i && SweptAt(r, j, id) && id in r.states[j].rows
    ensures var k := r.states[j].rows[id].key; var note := AuditRow(DeniedAudit(ApprovalExpired), k.team, k.user, k.provider, Some(Selector(k)), Some("system"));
      r.states[i + 1].audit == r.states[i].audit + [note]
    ensures forall k: nat :: i < k < |r.ops| && r.ops[k] == RecordExpiry(id) ==> id !in r.states[k].owed
  {
    assert StepOk(cfg, r, i);
    hide Apply, Lapsed, Selector;
    j := OwedOrigin(cfg, r, i, id);
    forall k: nat | i < k < |r.ops| && r.ops[k] == RecordExpiry(id) ensures id !in r.states[k].owed {
      if id in r.states[k].owed {
        var l := OwedOrigin(cfg, r, k, id);
        SweptOnce(cfg, r, j, l, id);
        assert false;
      }
    }
  }

  lemma SweptOnce(cfg: Config, r: Run, j: nat, l: nat, id: Id)
    requires ValidRun(cfg, r) && j < |r.ops| && l < |r.ops| && SweptAt(r, j, id) && SweptAt(r, l, id)
    ensures j == l
  {
    hide Apply, Selector;
    if j < l {
      SweptIsGone(cfg, r, j, l, id);
    } else if l < j {
      SweptIsGone(cfg, r, l, j, id);
    }
  }

  lemma SweptIsGone(cfg: Config, r: Run, j: nat, l: nat, id: Id)
    requires ValidRun(cfg, r) && j < l <= |r.ops| && SweptAt(r, j, id)
    ensures id !in r.states[l].rows
  {
    hide Apply, Selector;
    assert StepOk(cfg, r, j);
    StepOwed(cfg, r.states[j], r.ops[j], id);
    var c := CreationOf(cfg, r, j, id);
    CreatedFresh(cfg, r, c, id);
    RunGrows(cfg, r, c + 1, j + 1);
    RowNeverReturns(cfg, r, id, j + 1, l);
  }

  /** And none is lost silently: a swept prompt or grant still awaits its audit row, or has it, unless the
      sweeper died first. */
  lemma {:induction false} SweptIsAccountedFor(cfg: Config, r: Run, j: nat, n: nat, id: Id)
    requires ValidRun(cfg, r) && j < n <= |r.ops| && SweptAt(r, j, id)
    ensures id in r.states[n].owed || exists m: nat :: j < m < n && (r.ops[m] == RecordExpiry(id) || r.ops[m] == ForgetExpiry(id))
    decreases n
  {
    hide Apply;
    assert StepOk(cfg, r, n - 1);
    StepOwed(cfg, r.states[n - 1], r.ops[n - 1], id);
    if j < n - 1 {
      SweptIsAccountedFor(cfg, r, j, n - 1, id);
    }
  }
}
