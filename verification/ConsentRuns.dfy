/** Safety of the consent round trip over every run. */
module ConsentRuns {
  import opened Base
  import opened Fences
  import opened ConsentModel

  // ---------------------------------------------------------------------------------------------
  // What every reachable store satisfies
  // ---------------------------------------------------------------------------------------------

  /** The partial unique index: at most one unsuperseded generation per subject. */
  ghost predicate OneActive(rows: map<Id, ConsentRow>) {
    forall a, b :: a in rows && b in rows && ActiveFor(rows[a], SubjectOf(rows[b])) && rows[b].supersededAt.None? ==> a == b
  }

  ghost predicate RowsMinted(t: Tables) {
    forall s :: s in t.rows ==> s in t.minted
  }

  ghost predicate Inv(t: Tables) {
    && OneActive(t.rows)
    && RowsMinted(t)
    && (forall h :: h in t.hops ==> t.hops[h].state in t.minted)
    && (forall cb :: cb in t.callbacks ==> t.callbacks[cb].state in t.minted)
  }

  /** What a row of the next state keeps of the row it was, and what may change it. */
  ghost predicate Kept(a: ConsentRow, b: ConsentRow) {
    && b.identity == a.identity && b.provider == a.provider && b.channel == a.channel && b.createdAt == a.createdAt
    && (a.consumedAt.Some? ==> b.consumedAt == a.consumedAt)
    && (a.supersededAt.Some? ==> b.supersededAt == a.supersededAt)
  }

  ghost predicate RowStep(t: Tables, op: Op, state: Id, b: ConsentRow) {
    if state in t.rows then
      && Kept(t.rows[state], b)
      && (b.verifiedAt == t.rows[state].verifiedAt || Stamps(t, op, state))
      && (b.consumedAt == t.rows[state].consumedAt || Spends(t, op, state))
    else
      op.BeginOp? && state == op.newId && b == FreshConsent(op.identity, op.provider, op.channel, op.issuedAt)
  }

  /** The step is a browser hop whose Slack identity matched the row it had read. */
  ghost predicate Stamps(t: Tables, op: Op, state: Id) {
    && op.FinishHopOp? && op.hop in t.hops && t.hops[op.hop].state == state
    && op.answer.SlackUser? && SlackMatches(t.hops[op.hop].row, op.answer.team, op.answer.sub)
    && ActiveConsent(t, state)
  }

  /** The step is a mismatching hop or a callback on this state. */
  ghost predicate Spends(t: Tables, op: Op, state: Id) {
    || (op.FinishHopOp? && op.hop in t.hops && t.hops[op.hop].state == state && op.answer.SlackUser?
        && !SlackMatches(t.hops[op.hop].row, op.answer.team, op.answer.sub))
    || (op.StartOp? && op.stateParam == Some(state))
  }

  lemma StepRow(cfg: Config, t: Tables, op: Op, state: Id)
    requires RowsMinted(t) && Enabled(t, op) && state in Apply(cfg, t, op).0.rows
    ensures RowStep(t, op, state, Apply(cfg, t, op).0.rows[state])
  {
    hide RowStep;
    match op
    case BeginOp(_, _, _, _, _) => BeginRow(cfg, t, op, state);
    case FinishHopOp(_, _) => HopRow(cfg, t, op, state);
    case StartOp(_, _, _, _) => StartRow(cfg, t, op, state);
    case CommitOp(_, _, _) => CommitRow(cfg, t, op, state);
    case _ => OtherRow(cfg, t, op, state);
  }

  lemma BeginRow(cfg: Config, t: Tables, op: Op, state: Id)
    requires RowsMinted(t) && Enabled(t, op) && op.BeginOp? && state in Apply(cfg, t, op).0.rows
    ensures RowStep(t, op, state, Apply(cfg, t, op).0.rows[state])
  {
    hide Fenced, ReusableConsent;
  }

  lemma HopRow(cfg: Config, t: Tables, op: Op, state: Id)
    requires Enabled(t, op) && op.FinishHopOp? && state in Apply(cfg, t, op).0.rows
    ensures RowStep(t, op, state, Apply(cfg, t, op).0.rows[state])
  {
    hide Classify;
  }

  lemma StartRow(cfg: Config, t: Tables, op: Op, state: Id)
    requires Enabled(t, op) && op.StartOp? && state in Apply(cfg, t, op).0.rows
    ensures RowStep(t, op, state, Apply(cfg, t, op).0.rows[state])
  {
    hide Classify, Route;
  }

  lemma OtherRow(cfg: Config, t: Tables, op: Op, state: Id)
    requires Enabled(t, op) && state in Apply(cfg, t, op).0.rows
    requires !op.BeginOp? && !op.FinishHopOp? && !op.StartOp? && !op.CommitOp?
    ensures RowStep(t, op, state, Apply(cfg, t, op).0.rows[state])
  {
    hide LatestOffboard, LatestRevocation, FenceStep, Stamps, Spends;
  }

  lemma CommitRow(cfg: Config, t: Tables, op: Op, state: Id)
    requires Enabled(t, op) && op.CommitOp? && state in Apply(cfg, t, op).0.rows
    ensures RowStep(t, op, state, Apply(cfg, t, op).0.rows[state])
  {
    hide Fenced, LatestOffboard, LatestRevocation, Blocks, Stamps, Spends;
  }

  /** A hop remembers the row exactly as it was read. */
  lemma StepHop(cfg: Config, t: Tables, op: Op, h: nat)
    requires Enabled(t, op) && h in Apply(cfg, t, op).0.hops
    ensures var t' := Apply(cfg, t, op).0; var c := t'.hops[h];
      if h in t.hops then c == t.hops[h] else c.state in t.rows && c.row == t.rows[c.state] && t'.rows == t.rows
  {
    hide Begin, FinishHop, StartCallback, CommitCallback, WriteUser, FenceStep;
  }

  /** A callback's claim is the row it spent while active and stamped. */
  lemma StepClaim(cfg: Config, t: Tables, op: Op, cb: nat)
    requires Enabled(t, op) && cb in Apply(cfg, t, op).0.callbacks
    ensures var c := Apply(cfg, t, op).0.callbacks[cb];
      if cb in t.callbacks then c == t.callbacks[cb] else SpendsActive(cfg, t, op, cb, c)
  {
    hide Begin, FinishHop, CommitCallback, WriteUser, FenceStep, Classify;
  }

  ghost predicate SpendsActive(cfg: Config, t: Tables, op: Op, cb: nat, claim: Claim) {
    && op.StartOp? && op.cb == cb && op.stateParam == Some(claim.state)
    && claim.state in t.rows && t.rows[claim.state].consumedAt.None?
    && Classify(cfg, t, t.rows[claim.state]) == ActiveClaim
    && t.rows[claim.state].verifiedAt.Some?
    && claim.row == ConsumedRow(t, claim.state)
  }

  lemma StepKeepsOneActive(cfg: Config, t: Tables, op: Op)
    requires Inv(t) && Enabled(t, op)
    ensures OneActive(Apply(cfg, t, op).0.rows)
  {
    hide Classify, Route, Fenced, ReusableConsent;
    var t' := Apply(cfg, t, op).0;
    if op.BeginOp? {
      BeginKeepsOneActive(cfg, t, op);
    } else {
      forall s | s in t'.rows ensures s in t.rows && Kept(t.rows[s], t'.rows[s]) {
        StepRow(cfg, t, op, s);
      }
    }
  }

  lemma BeginKeepsOneActive(cfg: Config, t: Tables, op: Op)
    requires Inv(t) && Enabled(t, op) && op.BeginOp?
    ensures OneActive(Apply(cfg, t, op).0.rows)
  {
    hide Fenced, ReusableConsent;
    var t' := Apply(cfg, t, op).0;
    var s := SubjectFor(op.identity, op.provider);
    forall a, b | a in t'.rows && b in t'.rows && ActiveFor(t'.rows[a], SubjectOf(t'.rows[b])) && t'.rows[b].supersededAt.None?
      ensures a == b
    {
      if a in t.rows && b in t.rows {
        assert ActiveFor(t.rows[a], SubjectOf(t.rows[b]));
      }
    }
  }

  lemma StepKeepsInv(cfg: Config, t: Tables, op: Op)
    requires Inv(t) && Enabled(t, op)
    ensures Inv(Apply(cfg, t, op).0)
  {
    hide OneActive, Apply, RowStep, SpendsActive;
    var t' := Apply(cfg, t, op).0;
    StepKeepsOneActive(cfg, t, op);
    StepGrows(cfg, t, op);
    forall s | s in t'.rows ensures s in t'.minted {
      RowIsMinted(cfg, t, op, s);
    }
    forall h | h in t'.hops ensures t'.hops[h].state in t'.minted {
      StepHop(cfg, t, op, h);
    }
    forall cb | cb in t'.callbacks ensures t'.callbacks[cb].state in t'.minted {
      StepClaim(cfg, t, op, cb);
      ClaimSpendsRow(cfg, t, op, cb, t'.callbacks[cb]);
    }
  }

  lemma ClaimSpendsRow(cfg: Config, t: Tables, op: Op, cb: nat, c: Claim)
    ensures SpendsActive(cfg, t, op, cb, c) ==> c.state in t.rows
  {
  }

  lemma RowIsMinted(cfg: Config, t: Tables, op: Op, s: Id)
    requires Enabled(t, op) && RowsMinted(t) && s in Apply(cfg, t, op).0.rows
    ensures s in Apply(cfg, t, op).0.minted
  {
    hide FinishHop, StartCallback, CommitCallback, WriteUser, FenceStep, Fenced, ReusableConsent;
    StepRow(cfg, t, op, s);
    hide Kept;
  }

  /** Clock, states and fences only grow. */
  ghost predicate Grows(t: Tables, t': Tables) {
    t.now <= t'.now && t.minted <= t'.minted && Advances(t.tombs, t'.tombs)
  }

  lemma StepGrows(cfg: Config, t: Tables, op: Op)
    requires Enabled(t, op)
    ensures Grows(t, Apply(cfg, t, op).0)
  {
    hide Begin, FinishHop, StartCallback, CommitCallback, WriteUser, FenceStep;
    if op.FenceTx? {
      FenceStepAdvances(cfg.digest, t.tombs, t.now, op.op);
    }
  }

  // ---------------------------------------------------------------------------------------------
  // Runs
  // ---------------------------------------------------------------------------------------------

  datatype Run = Run(states: seq<Tables>, ops: seq<Op>)

  ghost predicate StepOk(cfg: Config, r: Run, i: nat)
    requires i < |r.ops| && |r.states| == |r.ops| + 1
  {
    Enabled(r.states[i], r.ops[i]) && r.states[i + 1] == Apply(cfg, r.states[i], r.ops[i]).0
  }

  ghost predicate ValidRun(cfg: Config, r: Run) {
    && |r.states| == |r.ops| + 1 && Init(r.states[0])
    && forall i: nat :: i < |r.ops| ==> StepOk(cfg, r, i)
  }

  ghost function OutcomeAt(cfg: Config, r: Run, i: nat): Outcome
    requires ValidRun(cfg, r) && i < |r.ops|
  {
    assert StepOk(cfg, r, i);
    Apply(cfg, r.states[i], r.ops[i]).1
  }

  lemma {:induction false} RunInv(cfg: Config, r: Run, i: nat)
    requires ValidRun(cfg, r) && i <= |r.ops|
    ensures Inv(r.states[i])
  {
    hide Apply;
    if i > 0 {
      RunInv(cfg, r, i - 1);
      assert StepOk(cfg, r, i - 1);
      StepKeepsInv(cfg, r.states[i - 1], r.ops[i - 1]);
    }
  }

  lemma {:induction false} RunGrows(cfg: Config, r: Run, i: nat, j: nat)
    requires ValidRun(cfg, r) && i <= j <= |r.ops|
    ensures Grows(r.states[i], r.states[j])
    decreases j - i
  {
    hide Apply;
    if i < j {
      RunGrows(cfg, r, i, j - 1);
      assert StepOk(cfg, r, j - 1);
      StepGrows(cfg, r.states[j - 1], r.ops[j - 1]);
    }
  }

  lemma RunRow(cfg: Config, r: Run, i: nat, state: Id)
    requires ValidRun(cfg, r) && i < |r.ops| && state in r.states[i + 1].rows
    ensures RowStep(r.states[i], r.ops[i], state, r.states[i + 1].rows[state])
  {
    hide Apply, OneActive, RowStep;
    RunInv(cfg, r, i);
    assert StepOk(cfg, r, i);
    StepRow(cfg, r.states[i], r.ops[i], state);
  }

  /** A state is spent or gone for good. */
  ghost predicate SpentOrGone(t: Tables, state: Id) {
    state in t.rows ==> t.rows[state].consumedAt.Some?
  }

  lemma {:induction false} StaysSpent(cfg: Config, r: Run, state: Id, i: nat, j: nat)
    requires ValidRun(cfg, r) && i <= j <= |r.ops| && state in r.states[i].minted && SpentOrGone(r.states[i], state)
    ensures SpentOrGone(r.states[j], state)
    decreases j - i
  {
    hide Apply;
    if i < j {
      StaysSpent(cfg, r, state, i, j - 1);
      RunGrows(cfg, r, i, j - 1);
      if state in r.states[j].rows {
        RunRow(cfg, r, j - 1, state);
        assert StepOk(cfg, r, j - 1);
      }
    }
  }

  lemma {:induction false} StaysGone(cfg: Config, r: Run, state: Id, i: nat, j: nat)
    requires ValidRun(cfg, r) && i <= j <= |r.ops| && state in r.states[i].minted && state !in r.states[i].rows
    ensures state !in r.states[j].rows
    decreases j - i
  {
    hide Apply;
    if i < j {
      StaysGone(cfg, r, state, i, j - 1);
      RunGrows(cfg, r, i, j - 1);
      assert StepOk(cfg, r, j - 1);
      if state in r.states[j].rows {
        RunRow(cfg, r, j - 1, state);
        assert false;
      }
    }
  }

  // ---------------------------------------------------------------------------------------------
  // Where rows, stamps and claims come from
  // ---------------------------------------------------------------------------------------------

  ghost predicate MintedAt(cfg: Config, r: Run, i: nat, state: Id)
    requires ValidRun(cfg, r) && i < |r.ops|
  {
    r.ops[i].BeginOp? && r.ops[i].newId == state && OutcomeAt(cfg, r, i) == Begun(Some(state))
  }

  lemma {:induction false} MintOf(cfg: Config, r: Run, i: nat, state: Id) returns (a: nat)
    requires ValidRun(cfg, r) && i <= |r.ops| && state in r.states[i].rows
    ensures a < i && MintedAt(cfg, r, a, state)
    ensures r.ops[a].identity == r.states[i].rows[state].identity && r.ops[a].provider == r.states[i].rows[state].provider
    ensures r.ops[a].issuedAt == r.states[i].rows[state].createdAt
  {
    hide Apply;
    assert i > 0 by {
      assert r.states[0].rows == map[];
    }
    RunRow(cfg, r, i - 1, state);
    if state in r.states[i - 1].rows {
      a := MintOf(cfg, r, i - 1, state);
    } else {
      a := i - 1;
      MintOutcome(cfg, r, a);
    }
  }

  lemma MintOutcome(cfg: Config, r: Run, i: nat)
    requires ValidRun(cfg, r) && i < |r.ops| && r.ops[i].BeginOp?
    requires r.ops[i].newId !in r.states[i].rows && r.ops[i].newId in r.states[i + 1].rows
    ensures OutcomeAt(cfg, r, i) == Begun(Some(r.ops[i].newId))
  {
    hide Fenced, ReusableConsent;
    assert StepOk(cfg, r, i);
  }

  /** Step `b` is the hop that stamped the state: Slack named exactly the bound user and team. */
  ghost predicate StampedAt(cfg: Config, r: Run, b: nat, state: Id)
    requires ValidRun(cfg, r) && b < |r.ops|
  {
    && Stamps(r.states[b], r.ops[b], state)
    && r.ops[b].answer == SlackUser(r.states[b].rows[state].identity.team, r.states[b].rows[state].identity.user)
  }

  lemma {:induction false} HopRowIsCurrent(cfg: Config, r: Run, i: nat, h: nat)
    requires ValidRun(cfg, r) && i <= |r.ops| && h in r.states[i].hops
    ensures var c := r.states[i].hops[h];
      c.state in r.states[i].minted && (c.state in r.states[i].rows ==> r.states[i].rows[c.state].identity == c.row.identity)
  {
    hide Apply, Inv;
    assert i > 0 by {
      assert r.states[0].hops == map[];
    }
    RunInv(cfg, r, i);
    InvHops(r.states[i], h);
    assert StepOk(cfg, r, i - 1);
    StepHop(cfg, r.states[i - 1], r.ops[i - 1], h);
    if h in r.states[i - 1].hops {
      HopRowIsCurrent(cfg, r, i - 1, h);
      RunGrows(cfg, r, i - 1, i);
      if r.states[i].hops[h].state in r.states[i].rows {
        RunRow(cfg, r, i - 1, r.states[i].hops[h].state);
      }
    }
  }

  lemma InvHops(t: Tables, h: nat)
    requires Inv(t) && h in t.hops
    ensures t.hops[h].state in t.minted
  {
  }

  lemma {:induction false} StampOf(cfg: Config, r: Run, i: nat, state: Id) returns (b: nat)
    requires ValidRun(cfg, r) && i <= |r.ops| && state in r.states[i].rows && r.states[i].rows[state].verifiedAt.Some?
    ensures b < i && StampedAt(cfg, r, b, state) && r.states[b].rows[state].consumedAt.None?
    ensures r.states[b].rows[state].identity == r.states[i].rows[state].identity
  {
    hide Apply;
    assert i > 0 by {
      assert r.states[0].rows == map[];
    }
    RunRow(cfg, r, i - 1, state);
    if state in r.states[i - 1].rows && r.states[i - 1].rows[state].verifiedAt == r.states[i].rows[state].verifiedAt {
      b := StampOf(cfg, r, i - 1, state);
    } else {
      b := i - 1;
      HopRowIsCurrent(cfg, r, b, r.ops[b].hop);
    }
  }

  lemma {:induction false} ClaimOf(cfg: Config, r: Run, i: nat, cb: nat) returns (c: nat)
    requires ValidRun(cfg, r) && i <= |r.ops| && cb in r.states[i].callbacks
    ensures c < i && SpendsActive(cfg, r.states[c], r.ops[c], cb, r.states[i].callbacks[cb])
  {
    hide Apply, SpendsActive;
    assert i > 0 by {
      assert r.states[0].callbacks == map[];
    }
    assert StepOk(cfg, r, i - 1);
    StepClaim(cfg, r.states[i - 1], r.ops[i - 1], cb);
    if cb in r.states[i - 1].callbacks {
      c := ClaimOf(cfg, r, i - 1, cb);
    } else {
      c := i - 1;
    }
  }
}
