/** The main results about consent generations and the OAuth callback, each over every run. */
module ConsentTheorems {
  import opened Base
  import opened Fences
  import opened ConsentModel
  import opened ConsentRuns

  // ---------------------------------------------------------------------------------------------
  // The spend's classification
  // ---------------------------------------------------------------------------------------------

  /** Supersession came strictly after every fence that blocks the row. */
  predicate SupersededAfterFences(cfg: Config, t: Tables, row: ConsentRow) {
    var off := LatestOffboard(t.tombs, row.identity);
    var rev := LatestRevocation(cfg.digest, t.tombs, UserOwner(row.identity), row.provider);
    && row.supersededAt.Some?
    && (Blocks(off, row.createdAt) ==> row.supersededAt.value > off.value)
    && (Blocks(rev, row.createdAt) ==> row.supersededAt.value > rev.value)
  }

  /** Exactly when a spent state is active, expired, superseded or invalidated: a blocking fence wins over
      expiry and supersession unless the supersession came strictly after all of them. */
  lemma ClassifyExact(cfg: Config, t: Tables, row: ConsentRow)
    ensures var c := Classify(cfg, t, row); var fenced := Fenced(cfg, t, row.identity, row.provider, row.createdAt);
      && (c == ActiveClaim <==> !fenced && row.supersededAt.None? && t.now - row.createdAt <= STATE_TTL)
      && (c == Expired <==> !fenced && row.supersededAt.None? && t.now - row.createdAt > STATE_TTL)
      && (c == Superseded <==> SupersededAfterFences(cfg, t, row))
      && (c == InvalidOffboarded <==> !SupersededAfterFences(cfg, t, row) && Blocks(LatestOffboard(t.tombs, row.identity), row.createdAt))
      && (c == InvalidRevoked <==> fenced && !SupersededAfterFences(cfg, t, row) && !Blocks(LatestOffboard(t.tombs, row.identity), row.createdAt))
      && c != Unavailable
  {
    hide LatestOffboard, LatestRevocation;
  }

  /** A state yields a classified result at most once: whatever spent it, every later spend is refused. */
  lemma ConsumedAtMostOnce(cfg: Config, r: Run, i: nat, j: nat, state: Id)
    requires ValidRun(cfg, r) && i < j <= |r.ops| && Spends(r.states[i], r.ops[i], state)
    requires ConsumeState(cfg, r.states[i], state).1 != Unavailable
    ensures ConsumeState(cfg, r.states[j], state).1 == Unavailable
  {
    hide Classify, Apply, OneActive, Spends;
    assert StepOk(cfg, r, i);
    RunInv(cfg, r, i);
    RunGrows(cfg, r, i, i + 1);
    SpendSpends(cfg, r.states[i], r.ops[i], state);
    StaysSpent(cfg, r, state, i + 1, j);
  }

  lemma SpendSpends(cfg: Config, t: Tables, op: Op, state: Id)
    requires Enabled(t, op) && Spends(t, op, state) && state in t.rows
    ensures SpentOrGone(Apply(cfg, t, op).0, state)
  {
    hide Classify, Route, Fenced;
  }

  // ---------------------------------------------------------------------------------------------
  // One active generation, whose mint time never decreases
  // ---------------------------------------------------------------------------------------------

  /** What one initiation does: reuse only a live same-context generation newer than every fence, never
      replace a newer generation by an older request, and leave the replaced one superseded. */
  lemma BeginContract(cfg: Config, t: Tables, i: Identity, p: string, ch: Option<string>, issuedAt: int, newId: Id)
    requires Inv(t) && newId !in t.minted
    ensures var (t', state) := Begin(cfg, t, i, p, ch, issuedAt, newId); var s := SubjectFor(i, p);
      && (state.None? ==> t' == t)
      && (state.Some? && state.value != newId ==>
          && t' == t && state.value in t.rows && ActiveFor(t.rows[state.value], s)
          && t.rows[state.value].consumedAt.None? && t.now - t.rows[state.value].createdAt <= STATE_TTL
          && t.rows[state.value].channel == ch && t.rows[state.value].identity == i
          && !Fenced(cfg, t, i, p, t.rows[state.value].createdAt))
      && (state == Some(newId) ==>
          && newId in t'.rows && t'.rows[newId] == FreshConsent(i, p, ch, issuedAt)
          && !Fenced(cfg, t, i, p, issuedAt) && t.now - issuedAt <= STATE_TTL
          && (forall prev :: prev in t.rows ==> prev in t'.rows && (if ActiveFor(t.rows[prev], s)
                then t.rows[prev].createdAt <= issuedAt && t'.rows[prev] == t.rows[prev].(supersededAt := Some(t.now))
                else t'.rows[prev] == t.rows[prev])))
  {
    hide LatestOffboard, LatestRevocation;
    if HasActive(t.rows, SubjectFor(i, p)) {
      var active := ActiveOf(t.rows, SubjectFor(i, p));
      assert forall prev :: prev in t.rows && ActiveFor(t.rows[prev], SubjectFor(i, p)) ==> prev == active;
    }
  }

  /** At most one unsuperseded generation per subject exists at any time. */
  lemma AtMostOneActive(cfg: Config, r: Run, i: nat, a: Id, b: Id)
    requires ValidRun(cfg, r) && i <= |r.ops| && a in r.states[i].rows && b in r.states[i].rows
    requires SubjectOf(r.states[i].rows[a]) == SubjectOf(r.states[i].rows[b])
    requires r.states[i].rows[a].supersededAt.None? && r.states[i].rows[b].supersededAt.None?
    ensures a == b
  {
    hide Apply;
    RunInv(cfg, r, i);
  }

  /** Along an unbroken chain of generations of one subject, mint times never decrease. */
  lemma {:induction false} ChainNeverOlder(cfg: Config, r: Run, s: Subject, i: nat, j: nat)
    requires ValidRun(cfg, r) && i <= j <= |r.ops|
    requires forall m :: i <= m <= j ==> HasActive(r.states[m].rows, s)
    ensures r.states[i].rows[ActiveOf(r.states[i].rows, s)].createdAt <= r.states[j].rows[ActiveOf(r.states[j].rows, s)].createdAt
    decreases j - i
  {
    hide Apply;
    if i < j {
      ChainNeverOlder(cfg, r, s, i, j - 1);
      RunInv(cfg, r, j - 1);
      RunInv(cfg, r, j);
      assert StepOk(cfg, r, j - 1);
      LinkNeverOlder(cfg, r.states[j - 1], r.ops[j - 1], s);
    }
  }

  lemma LinkNeverOlder(cfg: Config, t: Tables, op: Op, s: Subject)
    requires Inv(t) && Enabled(t, op) && HasActive(t.rows, s) && HasActive(Apply(cfg, t, op).0.rows, s)
    ensures var t' := Apply(cfg, t, op).0; t.rows[ActiveOf(t.rows, s)].createdAt <= t'.rows[ActiveOf(t'.rows, s)].createdAt
  {
    hide OneActive;
    var t' := Apply(cfg, t, op).0;
    var b := ActiveOf(t'.rows, s);
    StepRow(cfg, t, op, b);
    if op.BeginOp? {
      BeginContract(cfg, t, op.identity, op.provider, op.channel, op.issuedAt, op.newId);
    }
    hide Apply;
    if b in t.rows {
      SameActive(t, s, b);
    }
  }

  lemma SameActive(t: Tables, s: Subject, b: Id)
    requires Inv(t) && b in t.rows && ActiveFor(t.rows[b], s)
    ensures HasActive(t.rows, s) && ActiveOf(t.rows, s) == b
  {
  }

  // ---------------------------------------------------------------------------------------------
  // Connected outcomes
  // ---------------------------------------------------------------------------------------------

  ghost predicate ConnectedAt(cfg: Config, r: Run, i: nat, state: Id)
    requires ValidRun(cfg, r) && i < |r.ops|
  {
    && r.ops[i].CommitOp? && OutcomeAt(cfg, r, i) == Called(Connected)
    && r.ops[i].cb in r.states[i].callbacks && r.states[i].callbacks[r.ops[i].cb].state == state
  }

  /** A stored credential always used the claim's own row, still unsuperseded: the lifecycle fallback only
      ever reports a fence. */
  lemma CommitFacts(cfg: Config, t: Tables, cb: nat, exchanged: bool, newId: Id)
    requires cb in t.callbacks && CommitCallback(cfg, t, cb, exchanged, newId).1 == Connected
    ensures var c := t.callbacks[cb]; var t' := CommitCallback(cfg, t, cb, exchanged, newId).0;
      && c.state in t.rows && t.rows[c.state].supersededAt.None? && t.rows[c.state].consumedAt.Some?
      && SubjectOf(t.rows[c.state]) == SubjectOf(c.row)
      && !Fenced(cfg, t, c.row.identity, c.row.provider, t.rows[c.state].createdAt)
      && c.state !in t'.rows
      && SubjectOf(c.row) in t'.live && t'.live[SubjectOf(c.row)] == Connection(newId, t.now)
      && (SubjectOf(c.row) in t.live ==> t.live[SubjectOf(c.row)].generationAt < t.rows[c.state].createdAt)
  {
    hide LatestOffboard, LatestRevocation;
  }

  /** A row kept through the run keeps who it is for. */
  lemma {:induction false} RowFixed(cfg: Config, r: Run, state: Id, i: nat, j: nat)
    requires ValidRun(cfg, r) && i <= j <= |r.ops| && state in r.states[i].minted && state in r.states[j].rows
    ensures state in r.states[i].rows
    ensures var a, b := r.states[i].rows[state], r.states[j].rows[state];
      b.identity == a.identity && b.provider == a.provider && b.createdAt == a.createdAt
    decreases j - i
  {
    hide Apply;
    if i < j {
      RunGrows(cfg, r, i, j - 1);
      RunRow(cfg, r, j - 1, state);
      assert StepOk(cfg, r, j - 1);
      RowFixed(cfg, r, state, i, j - 1);
    }
  }

  /** Every connection comes from one state that was minted for this user, then stamped by a browser hop
      in which Slack named exactly this user and team, then spent once while active; at the commit it was
      still unsuperseded and newer than every fence on its owner and provider. */
  lemma ConnectedIsLegitimate(cfg: Config, r: Run, i: nat, state: Id) returns (a: nat, b: nat, c: nat)
    requires ValidRun(cfg, r) && i < |r.ops| && ConnectedAt(cfg, r, i, state)
    ensures a < b < c < i
    ensures MintedAt(cfg, r, a, state)
    ensures StampedAt(cfg, r, b, state)
    ensures r.states[b].rows[state].identity == r.ops[a].identity
    ensures SpendsActive(cfg, r.states[c], r.ops[c], r.ops[i].cb, r.states[i].callbacks[r.ops[i].cb])
    ensures state in r.states[i].rows && r.states[i].rows[state].supersededAt.None?
    ensures !Fenced(cfg, r.states[i], r.ops[a].identity, r.ops[a].provider, r.ops[a].issuedAt)
    ensures state !in r.states[i + 1].rows
  {
    hide Begin, FinishHop, StartCallback, CommitCallback, Classify, Fenced, SpendsActive, Stamps;
    assert StepOk(cfg, r, i);
    var cb := r.ops[i].cb;
    var claim := r.states[i].callbacks[cb];
    CommitFacts(cfg, r.states[i], cb, r.ops[i].exchanged, r.ops[i].newId);
    c := ClaimOf(cfg, r, i, cb);
    ClaimRow(cfg, r.states[c], r.ops[c], cb, claim);
    RunInv(cfg, r, c);
    b := StampOf(cfg, r, c, state);
    StampActive(r.states[b], r.ops[b], state);
    a := MintOf(cfg, r, b, state);
    hide Apply;
    RowFixed(cfg, r, state, c, i);
    RunInv(cfg, r, b);
    RowFixed(cfg, r, state, b, c);
  }

  lemma ClaimRow(cfg: Config, t: Tables, op: Op, cb: nat, c: Claim)
    requires SpendsActive(cfg, t, op, cb, c)
    ensures c.state in t.rows && t.rows[c.state].consumedAt.None? && t.rows[c.state].verifiedAt.Some?
    ensures op.StartOp? && op.stateParam == Some(c.state)
    ensures c.row == ConsumedRow(t, c.state)
  {
  }

  lemma StampActive(t: Tables, op: Op, state: Id)
    requires Stamps(t, op, state)
    ensures state in t.rows && t.rows[state].supersededAt.None?
  {
  }

  /** Each state connects at most once. */
  lemma ConnectsOnce(cfg: Config, r: Run, i: nat, j: nat, state: Id)
    requires ValidRun(cfg, r) && i < j < |r.ops| && ConnectedAt(cfg, r, i, state)
    ensures !ConnectedAt(cfg, r, j, state)
  {
    hide Apply, SpendsActive, Fenced, Stamps;
    var a, b, c := ConnectedIsLegitimate(cfg, r, i, state);
    RunInv(cfg, r, i);
    RunGrows(cfg, r, i, i + 1);
    StaysGone(cfg, r, state, i + 1, j);
    if ConnectedAt(cfg, r, j, state) {
      var a', b', c' := ConnectedIsLegitimate(cfg, r, j, state);
      assert false;
    }
  }

  ghost predicate MismatchSpentAt(cfg: Config, r: Run, m: nat, state: Id)
    requires ValidRun(cfg, r) && m < |r.ops|
  {
    && r.ops[m].FinishHopOp? && Spends(r.states[m], r.ops[m], state)
    && state in r.states[m].rows && r.states[m].rows[state].consumedAt.None?
  }

  /** A state first spent by an identity mismatch never connects, before or after. */
  lemma MismatchNeverConnects(cfg: Config, r: Run, m: nat, i: nat, state: Id)
    requires ValidRun(cfg, r) && m < |r.ops| && i < |r.ops| && MismatchSpentAt(cfg, r, m, state)
    ensures !ConnectedAt(cfg, r, i, state)
  {
    MismatchSpent(cfg, r, m, state);
    hide Apply, Inv, SpentOrGone, ConnectedAt, MismatchSpentAt;
    if ConnectedAt(cfg, r, i, state) {
      var c := ConnectionSpend(cfg, r, i, state);
      if m < c {
        SpentBefore(cfg, r, state, m + 1, c);
      } else {
        CallbackSpent(cfg, r, c, state);
        SpentBefore(cfg, r, state, c + 1, m);
      }
      assert false;
    }
  }

  /** The callback that spent a connected state found it unspent. */
  lemma ConnectionSpend(cfg: Config, r: Run, i: nat, state: Id) returns (c: nat)
    requires ValidRun(cfg, r) && i < |r.ops| && ConnectedAt(cfg, r, i, state)
    ensures c < i && r.ops[c].StartOp? && r.ops[c].stateParam == Some(state)
    ensures state in r.states[c].rows && r.states[c].rows[state].consumedAt.None?
  {
    hide Apply, SpendsActive, Fenced, Stamps;
    var a, b, spend := ConnectedIsLegitimate(cfg, r, i, state);
    c := spend;
    ClaimRow(cfg, r.states[c], r.ops[c], r.ops[i].cb, r.states[i].callbacks[r.ops[i].cb]);
  }

  lemma SpentBefore(cfg: Config, r: Run, state: Id, i: nat, j: nat)
    requires ValidRun(cfg, r) && i <= j <= |r.ops| && state in r.states[i].minted && SpentOrGone(r.states[i], state)
    ensures state in r.states[j].rows ==> r.states[j].rows[state].consumedAt.Some?
  {
    StaysSpent(cfg, r, state, i, j);
  }

  lemma MismatchSpent(cfg: Config, r: Run, m: nat, state: Id)
    requires ValidRun(cfg, r) && m < |r.ops| && MismatchSpentAt(cfg, r, m, state)
    ensures state in r.states[m + 1].minted && SpentOrGone(r.states[m + 1], state)
    ensures r.ops[m].FinishHopOp? && state in r.states[m].rows && r.states[m].rows[state].consumedAt.None?
  {
    assert StepOk(cfg, r, m);
    SpendSpends(cfg, r.states[m], r.ops[m], state);
    RunInv(cfg, r, m);
    RunGrows(cfg, r, m, m + 1);
  }

  lemma CallbackSpent(cfg: Config, r: Run, c: nat, state: Id)
    requires ValidRun(cfg, r) && c < |r.ops| && r.ops[c].StartOp? && r.ops[c].stateParam == Some(state) && state in r.states[c].rows
    ensures state in r.states[c + 1].minted && SpentOrGone(r.states[c + 1], state)
  {
    assert StepOk(cfg, r, c);
    SpendSpends(cfg, r.states[c], r.ops[c], state);
    hide Apply;
    RunInv(cfg, r, c);
    RunGrows(cfg, r, c, c + 1);
  }

  // ---------------------------------------------------------------------------------------------
  // Nothing is minted or stored behind a fence
  // ---------------------------------------------------------------------------------------------

  /** A committed fence transaction covers this identity's authority for this provider. */
  ghost predicate Covers(op: FenceOp, i: Identity, provider: string) {
    || Removes(op, i)
    || (op.Revoke? && ValidFilter(op.filter) && op.filter.provider == provider && FilterMatches(op.filter, UserOwner(i)))
  }

  lemma FenceCommits(cfg: Config, r: Run, m: nat)
    requires ValidRun(cfg, r) && m < |r.ops| && r.ops[m].FenceTx?
    ensures r.states[m + 1].tombs == FenceStep(cfg.digest, r.states[m].tombs, r.states[m].now, r.ops[m].op).0
  {
    hide FenceStep;
    assert StepOk(cfg, r, m);
  }

  lemma CoveredIsFenced(cfg: Config, r: Run, m: nat, i: nat, who: Identity, provider: string, issuedAt: int)
    requires ValidRun(cfg, r) && m < i <= |r.ops| && Injective(cfg.digest) && r.ops[m].FenceTx?
    requires FenceStep(cfg.digest, r.states[m].tombs, r.states[m].now, r.ops[m].op).1 && Covers(r.ops[m].op, who, provider)
    requires issuedAt <= r.states[m].now
    ensures Fenced(cfg, r.states[i], who, provider, issuedAt)
  {
    hide Apply, FenceStep, LatestOffboard, LatestRevocation, FilterMatches, ValidFilter, Removes, Injective, Advances;
    FenceCommits(cfg, r, m);
    RunGrows(cfg, r, m + 1, i);
    var f := r.ops[m].op;
    if Removes(f, who) {
      RemovalFences(cfg.digest, r.states[m].tombs, r.states[m].now, f, who);
      LatestOffboardMonotone(r.states[m + 1].tombs, r.states[i].tombs, who);
    } else {
      MarkerFencesMatching(cfg.digest, r.states[m].tombs, r.states[m].now, f.filter, UserOwner(who));
      LatestRevocationMonotone(cfg.digest, r.states[m + 1].tombs, r.states[i].tombs, UserOwner(who), provider);
    }
  }

  /** After an offboarding or break-glass marker commits, no consent is minted or reused and no credential
      written for a covered owner under an issuance at or before it. */
  lemma NothingBehindFence(cfg: Config, r: Run, m: nat, i: nat, who: Identity, provider: string)
    requires ValidRun(cfg, r) && m < i < |r.ops| && Injective(cfg.digest) && r.ops[m].FenceTx?
    requires FenceStep(cfg.digest, r.states[m].tombs, r.states[m].now, r.ops[m].op).1 && Covers(r.ops[m].op, who, provider)
    requires (r.ops[i].BeginOp? || r.ops[i].DirectWrite?)
    requires r.ops[i].identity == who && r.ops[i].provider == provider && r.ops[i].issuedAt <= r.states[m].now
    ensures r.ops[i].BeginOp? ==> OutcomeAt(cfg, r, i) == Begun(None)
    ensures r.ops[i].DirectWrite? ==> OutcomeAt(cfg, r, i) != Wrote(Stored)
    ensures r.states[i + 1].rows == r.states[i].rows && r.states[i + 1].live == r.states[i].live
  {
    CoveredIsFenced(cfg, r, m, i, who, provider, r.ops[i].issuedAt);
    hide FinishHop, StartCallback, CommitCallback, Covers, Inv, FenceStep, LatestOffboard, LatestRevocation;
    assert StepOk(cfg, r, i);
  }

  /** Nor does a callback connect: every state that does was minted strictly after the fence. */
  lemma NoConnectionBehindFence(cfg: Config, r: Run, m: nat, i: nat, state: Id)
    requires ValidRun(cfg, r) && m < i < |r.ops| && Injective(cfg.digest) && r.ops[m].FenceTx?
    requires FenceStep(cfg.digest, r.states[m].tombs, r.states[m].now, r.ops[m].op).1
    requires ConnectedAt(cfg, r, i, state) && state in r.states[i].rows
    requires Covers(r.ops[m].op, r.states[i].rows[state].identity, r.states[i].rows[state].provider)
    ensures r.states[i].rows[state].createdAt > r.states[m].now
  {
    hide Covers, ConnectedAt, Fenced, Apply, FenceStep;
    var row := r.states[i].rows[state];
    ConnectedRowUnfenced(cfg, r, i, state);
    if row.createdAt <= r.states[m].now {
      CoveredIsFenced(cfg, r, m, i, row.identity, row.provider, row.createdAt);
      assert false;
    }
  }

  lemma ConnectedRowUnfenced(cfg: Config, r: Run, i: nat, state: Id)
    requires ValidRun(cfg, r) && i < |r.ops| && ConnectedAt(cfg, r, i, state) && state in r.states[i].rows
    ensures !Fenced(cfg, r.states[i], r.states[i].rows[state].identity, r.states[i].rows[state].provider, r.states[i].rows[state].createdAt)
  {
    hide Apply, Fenced, SpendsActive, Stamps;
    var a, b, c := ConnectedIsLegitimate(cfg, r, i, state);
    RunInv(cfg, r, b);
    var a' := MintOf(cfg, r, i, state);
    MintOnce(cfg, r, a, a', state);
  }

  lemma MintOnce(cfg: Config, r: Run, i: nat, j: nat, state: Id)
    requires ValidRun(cfg, r) && i < |r.ops| && j < |r.ops| && MintedAt(cfg, r, i, state) && MintedAt(cfg, r, j, state)
    ensures i == j
  {
    hide Apply;
    var x, y := Min(i, j), Max(i, j);
    assert StepOk(cfg, r, y);
    if x < y {
      MintedIsMinted(cfg, r, x, state);
      RunGrows(cfg, r, x + 1, y);
      assert false;
    }
  }

  lemma MintedIsMinted(cfg: Config, r: Run, i: nat, state: Id)
    requires ValidRun(cfg, r) && i < |r.ops| && MintedAt(cfg, r, i, state)
    ensures state in r.states[i + 1].minted
  {
    hide Fenced, ReusableConsent;
    assert StepOk(cfg, r, i);
    RunInv(cfg, r, i);
  }
}
