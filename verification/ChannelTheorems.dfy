/** The main results about channel credentials, each over every run of the machine. */
module ChannelTheorems {
  import opened Base
  import opened Fences
  import opened ChannelModel

  datatype Run = Run(states: seq<Tables>, ops: seq<Op>)

  ghost predicate StepOk(digest: Digest, r: Run, i: nat)
    requires i < |r.ops| && |r.states| == |r.ops| + 1
  {
    Enabled(r.states[i], r.ops[i]) && r.states[i + 1] == Apply(digest, r.states[i], r.ops[i]).0
  }

  ghost predicate ValidRun(digest: Digest, r: Run) {
    && |r.states| == |r.ops| + 1 && Init(r.states[0])
    && forall i: nat :: i < |r.ops| ==> StepOk(digest, r, i)
  }

  lemma {:induction false} RunInv(digest: Digest, r: Run, i: nat)
    requires ValidRun(digest, r) && i <= |r.ops|
    ensures Inv(r.states[i])
  {
    hide Apply;
    if i > 0 {
      RunInv(digest, r, i - 1);
      assert StepOk(digest, r, i - 1);
      StepKeepsInv(digest, r.states[i - 1], r.ops[i - 1]);
    }
  }

  lemma {:induction false} RunGrows(digest: Digest, r: Run, i: nat, j: nat)
    requires ValidRun(digest, r) && i <= j <= |r.ops|
    ensures Grows(r.states[i], r.states[j])
    decreases j - i
  {
    hide Apply;
    if i < j {
      RunGrows(digest, r, i, j - 1);
      assert StepOk(digest, r, j - 1);
      RunInv(digest, r, j - 1);
      StepGrows(digest, r.states[j - 1], r.ops[j - 1]);
    }
  }

  /** A stored channel credential implies identity `channel`, and the audit trail's last word on a tuple is
      its identity. */
  lemma StoredImpliesShared(digest: Digest, r: Run, i: nat, c: Tuple)
    requires ValidRun(digest, r) && i <= |r.ops|
    ensures c in r.states[i].stored ==> ActingAs(r.states[i], c) == SharedChannel
    ensures LastAudited(r.states[i].audit, c) == ActingAs(r.states[i], c)
  {
    hide Apply, LastAudited;
    RunInv(digest, r, i);
  }

  // ---------------------------------------------------------------------------------------------
  // Setups are newer than everything they follow
  // ---------------------------------------------------------------------------------------------

  /** A committed change of the tuple's credential, identity or governance. */
  ghost predicate Changes(digest: Digest, t: Tables, op: Op, c: Tuple) {
    match op
    case ConfigureOp(_, d, _, _) => d == c && Apply(digest, t, op).1 == Configured(true)
    case SetIdentityOp(_, d, who, _) => d == c && Apply(digest, t, op).1 == IdentitySet(true) && ActingAs(t, c) != who
    case DisconnectOp(_, d, _) => d == c && (Apply(digest, t, op).1.status.Removed? || Apply(digest, t, op).1.status.Missing?)
    case DropCredential(d) => d == c && c in t.stored
    case GovernanceChange(d) => d == c
    case _ => false
  }

  /** Every change leaves a fence at its own instant. Nothing else touches the tuple, except that the vault's
      credential-only fallback can take its row, and then leaves the identity and no fence. */
  lemma ChangeIsFenced(digest: Digest, t: Tables, op: Op, c: Tuple)
    requires StoredOk(t)
    ensures var t' := Apply(digest, t, op).0;
      if Changes(digest, t, op, c) then c in t'.changed && t'.changed[c] >= t.now
      else ActingAs(t', c) == ActingAs(t, c) && Lookup(t'.stored, c) == (if op == FallbackDelete(c) then None else Lookup(t.stored, c))
  {
    hide Configure, SetIdentity, Disconnect, Issue, FenceStep, StoredOk, SubRequests;
    match op
    case ConfigureOp(a, d, issuance, newId) => ConfigureShape(digest, t, a, d, issuance, newId);
    case SetIdentityOp(a, d, who, at) =>
      SetIdentityShape(t, a, d, who, at);
      PersonStoresNothing(t, c);
    case DisconnectOp(a, d, at) => DisconnectShape(t, a, d, at);
    case _ =>
  }

  lemma PersonStoresNothing(t: Tables, c: Tuple)
    requires StoredOk(t)
    ensures ActingAs(t, c) == Person ==> c !in t.stored
  {
  }

  /** Step `i` committed a setup of `c` under issuance `at`. */
  ghost predicate SetupAt(digest: Digest, r: Run, i: nat, c: Tuple, at: int)
    requires ValidRun(digest, r) && i < |r.ops|
  {
    && r.ops[i].ConfigureOp? && r.ops[i].tuple == c
    && Configure(digest, r.states[i], r.ops[i].actor, c, r.ops[i].issuance, r.ops[i].newId).1
    && Consume(r.states[i], r.ops[i].actor, c, r.ops[i].issuance).1 == Some(at)
  }

  lemma SetupIsUnblocked(digest: Digest, r: Run, i: nat, c: Tuple, at: int)
    requires ValidRun(digest, r) && i < |r.ops| && SetupAt(digest, r, i, c, at)
    ensures !SetupBlocked(digest, r.states[i], r.ops[i].actor, c, at)
    ensures Changes(digest, r.states[i], r.ops[i], c) && at <= r.states[i].now
  {
    hide SetupBlocked, LastAudited;
    RunInv(digest, r, i);
    assert StepOk(digest, r, i);
    var t := r.states[i];
    var t1 := Consume(t, r.ops[i].actor, c, r.ops[i].issuance).0;
    SameBlocks(digest, t, t1, r.ops[i].actor, c, at);
  }

  lemma SameBlocks(digest: Digest, t: Tables, t1: Tables, actor: Identity, c: Tuple, at: int)
    requires t1 == t.(requests := t1.requests)
    ensures SetupBlocked(digest, t1, actor, c, at) == SetupBlocked(digest, t, actor, c, at)
  {
    hide LatestOffboard, LatestRevocation;
  }

  /** A setup's issuance is newer than every earlier committed change of its tuple. */
  lemma SetupIsNewest(digest: Digest, r: Run, i: nat, j: nat, c: Tuple, at: int)
    requires ValidRun(digest, r) && i < j < |r.ops| && SetupAt(digest, r, j, c, at)
    requires Changes(digest, r.states[i], r.ops[i], c)
    ensures r.states[i].now < at
  {
    hide Apply, Changes, SetupAt, LatestOffboard, LatestRevocation;
    RunInv(digest, r, i);
    ChangeIsFenced(digest, r.states[i], r.ops[i], c);
    assert StepOk(digest, r, i);
    RunGrows(digest, r, i + 1, j);
    SetupIsUnblocked(digest, r, j, c, at);
  }

  /** Committed setups of one tuple have strictly increasing issuances. */
  lemma SetupsStrictlyIncrease(digest: Digest, r: Run, i: nat, j: nat, c: Tuple, a: int, b: int)
    requires ValidRun(digest, r) && i < j < |r.ops| && SetupAt(digest, r, i, c, a) && SetupAt(digest, r, j, c, b)
    ensures a < b
  {
    hide Apply, Changes, SetupAt;
    SetupIsUnblocked(digest, r, i, c, a);
    SetupIsNewest(digest, r, i, j, c, b);
  }

  /** Every stored credential is the one of some setup, present without a gap since, under identity
      `channel` throughout: no identity flip brings a dormant credential back. */
  lemma {:induction false} StoredOrigin(digest: Digest, r: Run, i: nat, c: Tuple) returns (a: nat, at: int)
    requires ValidRun(digest, r) && i <= |r.ops| && c in r.states[i].stored
    ensures a < i && SetupAt(digest, r, a, c, at)
    ensures r.states[i].stored[c] == Credential(r.ops[a].newId, r.states[a].now)
    ensures forall m :: a < m <= i ==> Lookup(r.states[m].stored, c) == Some(r.states[i].stored[c])
    ensures forall m :: a < m <= i ==> ActingAs(r.states[m], c) == SharedChannel
  {
    hide Apply, SetupAt, LastAudited;
    assert i > 0 by {
      assert r.states[0].stored == map[];
    }
    RunInv(digest, r, i);
    RunInv(digest, r, i - 1);
    assert StepOk(digest, r, i - 1);
    if Lookup(r.states[i - 1].stored, c) == Lookup(r.states[i].stored, c) {
      a, at := StoredOrigin(digest, r, i - 1, c);
    } else {
      a := i - 1;
      at := NewRowIsSetup(digest, r, a, c);
    }
  }

  lemma NewRowIsSetup(digest: Digest, r: Run, i: nat, c: Tuple) returns (at: int)
    requires ValidRun(digest, r) && i < |r.ops| && c in r.states[i + 1].stored
    requires Lookup(r.states[i].stored, c) != Lookup(r.states[i + 1].stored, c)
    ensures SetupAt(digest, r, i, c, at)
    ensures r.states[i + 1].stored[c] == Credential(r.ops[i].newId, r.states[i].now)
  {
    hide SetupBlocked, FenceStep, Current, LastAudited;
    RunInv(digest, r, i);
    assert StepOk(digest, r, i);
    at := Consume(r.states[i], r.ops[i].actor, c, r.ops[i].issuance).1.value;
  }

  // ---------------------------------------------------------------------------------------------
  // Shared disconnect
  // ---------------------------------------------------------------------------------------------

  /** What a shared disconnect promises: `stale` and `not-shared` change nothing; every other outcome leaves
      `person`, no row, no open setup request and a fence; a row is deleted exactly when the actor is
      current and the generation is strictly older than the request; no other tuple is touched; and a
      break-glass marker never blocks it. */
  lemma DisconnectContract(t: Tables, actor: Identity, c: Tuple, issuedAt: int)
    requires Inv(t)
    ensures var (t', d) := Disconnect(t, actor, c, issuedAt);
      && (d.StaleRequest? || d.NotShared? ==> t' == t)
      && (d.Missing? || d.Removed? ==>
          && ActingAs(t', c) == Person && c !in t'.stored && (forall k :: k in t'.requests ==> k.0 != c)
          && c in t'.changed && t'.changed[c] >= t.now)
      && (d.Removed? <==> c in t.stored && c !in t'.stored)
      && (d.Removed? <==> c in t.stored && t.stored[c].generationAt < issuedAt && Current(t.tombs, actor, issuedAt))
      && (d.NotShared? ==> c !in t.stored)
      && (d.Missing? ==> c !in t.stored && ActingAs(t, c) == SharedChannel)
      && (forall e :: e != c ==> Lookup(t'.stored, e) == Lookup(t.stored, e) && ActingAs(t', e) == ActingAs(t, e))
      && (forall revoked :: Disconnect(t.(tombs := t.tombs.(revoked := revoked)), actor, c, issuedAt).1 == d)
  {
    hide LatestOffboard, LastAudited, RequestsOk;
    DisconnectShape(t, actor, c, issuedAt);
    forall revoked ensures Current(t.tombs.(revoked := revoked), actor, issuedAt) == Current(t.tombs, actor, issuedAt) {
      RevokedIsNotOffboard(t.tombs, revoked, actor);
    }
  }

  lemma RevokedIsNotOffboard(ts: Tombstones, revoked: map<(string, string), int>, i: Identity)
    ensures LatestOffboard(ts.(revoked := revoked), i) == LatestOffboard(ts, i)
  {
  }

  /** A disconnect delayed behind a newer setup leaves that setup's credential, or any later one, in place. */
  lemma DelayedDisconnectSparesNewer(digest: Digest, r: Run, a: nat, i: nat, c: Tuple, at: int)
    requires ValidRun(digest, r) && a < i < |r.ops| && SetupAt(digest, r, a, c, at)
    requires r.ops[i].DisconnectOp? && r.ops[i].tuple == c && r.ops[i].issuedAt <= r.states[a].now
    ensures Lookup(r.states[i + 1].stored, c) == Lookup(r.states[i].stored, c)
  {
    hide Changes, SetupAt, LastAudited, LatestOffboard;
    assert StepOk(digest, r, i);
    RunInv(digest, r, i);
    DisconnectContract(r.states[i], r.ops[i].actor, c, r.ops[i].issuedAt);
    if c in r.states[i].stored {
      RowAfterSetup(digest, r, a, i, c, at);
    }
    hide Disconnect;
  }

  lemma RowAfterSetup(digest: Digest, r: Run, a: nat, i: nat, c: Tuple, at: int)
    requires ValidRun(digest, r) && a < i <= |r.ops| && SetupAt(digest, r, a, c, at) && c in r.states[i].stored
    ensures r.states[i].stored[c].generationAt >= r.states[a].now
  {
    hide Apply, Changes, LastAudited;
    var b, _ := StoredOrigin(digest, r, i, c);
    if a <= b {
      hide SetupAt;
      RunGrows(digest, r, a, b);
    } else {
      assert StepOk(digest, r, a);
      ConfigureShape(digest, r.states[a], r.ops[a].actor, c, r.ops[a].issuance, r.ops[a].newId);
      SetupStores(digest, r, a, c, at);
    }
  }

  lemma SetupStores(digest: Digest, r: Run, a: nat, c: Tuple, at: int)
    requires ValidRun(digest, r) && a < |r.ops| && SetupAt(digest, r, a, c, at)
    ensures Lookup(r.states[a + 1].stored, c) == Some(Credential(r.ops[a].newId, r.states[a].now))
  {
    hide SetupBlocked;
    assert StepOk(digest, r, a);
  }

  // ---------------------------------------------------------------------------------------------
  // Fences
  // ---------------------------------------------------------------------------------------------

  lemma FenceCommits(digest: Digest, r: Run, m: nat)
    requires ValidRun(digest, r) && m < |r.ops| && r.ops[m].FenceTx?
    ensures r.states[m + 1].tombs == FenceStep(digest, r.states[m].tombs, r.states[m].now, r.ops[m].op).0
  {
    hide FenceStep;
    assert StepOk(digest, r, m);
  }

  /** After a break-glass marker commits, no setup commits for a matching channel under an issuance at or
      before it. */
  lemma NoSetupBehindMarker(digest: Digest, r: Run, m: nat, j: nat, f: Filter, c: Tuple, at: int)
    requires ValidRun(digest, r) && m < j < |r.ops| && Injective(digest) && SetupAt(digest, r, j, c, at)
    requires r.ops[m] == FenceTx(Revoke(f)) && ValidFilter(f)
    requires f.provider == c.provider && FilterMatches(f, ChannelOwner(c.team, c.channel))
    ensures at > r.states[m].now
  {
    hide Apply, FenceStep, LatestRevocation, LatestOffboard, SetupAt, FilterMatches, ValidFilter, Injective, Advances, Changes;
    FenceCommits(digest, r, m);
    RunGrows(digest, r, m + 1, j);
    var o := ChannelOwner(c.team, c.channel);
    MarkerFencesMatching(digest, r.states[m].tombs, r.states[m].now, f, o);
    LatestRevocationMonotone(digest, r.states[m + 1].tombs, r.states[j].tombs, o, c.provider);
    SetupIsUnblocked(digest, r, j, c, at);
  }

  /** The issuance a mutation of the machine acts under. */
  ghost function ActsUnder(t: Tables, op: Op): Option<int> {
    match op
    case ConfigureOp(a, c, issuance, _) => Consume(t, a, c, issuance).1
    case SetIdentityOp(_, _, _, at) => Some(at)
    case DisconnectOp(_, _, at) => Some(at)
    case _ => None
  }

  /** A removed member's earlier receipts never again change a channel's credential or identity. */
  lemma RemovedMemberChangesNothing(digest: Digest, r: Run, m: nat, i: nat)
    requires ValidRun(digest, r) && m < i < |r.ops|
    requires r.ops[i].ConfigureOp? || r.ops[i].SetIdentityOp? || r.ops[i].DisconnectOp?
    requires r.ops[m].FenceTx? && Removes(r.ops[m].op, r.ops[i].actor)
    requires FenceStep(digest, r.states[m].tombs, r.states[m].now, r.ops[m].op).1
    requires var at := ActsUnder(r.states[i], r.ops[i]); at.Some? ==> at.value <= r.states[m].now
    ensures r.states[i + 1].stored == r.states[i].stored && r.states[i + 1].actsAs == r.states[i].actsAs
    ensures r.states[i + 1].audit == r.states[i].audit
  {
    hide LatestOffboard, FenceStep, Removes, Apply, Advances, ActsUnder;
    FenceCommits(digest, r, m);
    assert StepOk(digest, r, i);
    var who := r.ops[i].actor;
    RunGrows(digest, r, m + 1, i);
    RemovalFences(digest, r.states[m].tombs, r.states[m].now, r.ops[m].op, who);
    LatestOffboardMonotone(r.states[m + 1].tombs, r.states[i].tombs, who);
    StaleChangesNothing(digest, r.states[i], r.ops[i]);
  }

  lemma StaleChangesNothing(digest: Digest, t: Tables, op: Op)
    requires op.ConfigureOp? || op.SetIdentityOp? || op.DisconnectOp?
    requires var at := ActsUnder(t, op); at.Some? ==> Blocks(LatestOffboard(t.tombs, op.actor), at.value)
    ensures var t' := Apply(digest, t, op).0; t'.stored == t.stored && t'.actsAs == t.actsAs && t'.audit == t.audit
  {
    hide LatestOffboard, LatestRevocation;
  }

  // ---------------------------------------------------------------------------------------------
  // Setup requests
  // ---------------------------------------------------------------------------------------------

  ghost predicate HasRequest(t: Tables, id: Id) {
    exists k :: k in t.requests && t.requests[k].id == id
  }

  /** A request row of the next state was there before, or was just issued. */
  lemma StepRequest(digest: Digest, t: Tables, op: Op, k: (Tuple, string))
    requires Inv(t) && Enabled(t, op) && k in Apply(digest, t, op).0.requests
    ensures var q := Apply(digest, t, op).0.requests[k];
      || (k in t.requests && t.requests[k] == q)
      || (op.IssueOp? && k == (op.tuple, op.actor.user) && q == SetupRequest(op.newId, op.issuedAt, op.issuedAt + PENDING_TTL)
          && Apply(digest, t, op).1 == Issued(Some(op.newId)))
  {
    hide Configure, SetIdentity, Disconnect, SetupBlocked, FenceStep, LastAudited, StoredOk;
    match op
    case ConfigureOp(a, c, issuance, newId) => ConfigureShape(digest, t, a, c, issuance, newId);
    case SetIdentityOp(a, c, who, at) => SetIdentityShape(t, a, c, who, at);
    case DisconnectOp(a, c, at) => DisconnectShape(t, a, c, at);
    case _ =>
  }

  lemma {:induction false} RequestStaysGone(digest: Digest, r: Run, id: Id, i: nat, j: nat)
    requires ValidRun(digest, r) && i <= j <= |r.ops| && id in r.states[i].minted && !HasRequest(r.states[i], id)
    ensures !HasRequest(r.states[j], id)
    decreases j - i
  {
    hide Apply, LastAudited;
    if i < j {
      RequestStaysGone(digest, r, id, i, j - 1);
      RunGrows(digest, r, i, j - 1);
      RunInv(digest, r, j - 1);
      assert StepOk(digest, r, j - 1);
      forall k | k in r.states[j].requests ensures r.states[j].requests[k].id != id {
        StepRequest(digest, r.states[j - 1], r.ops[j - 1], k);
        assert k in r.states[j - 1].requests ==> r.states[j - 1].requests[k].id != id;
      }
    }
  }

  /** Where an outstanding request comes from. */
  lemma {:induction false} RequestOrigin(digest: Digest, r: Run, i: nat, k: (Tuple, string)) returns (a: nat)
    requires ValidRun(digest, r) && i <= |r.ops| && k in r.states[i].requests
    ensures a < i && r.ops[a].IssueOp? && k == (r.ops[a].tuple, r.ops[a].actor.user)
    ensures Apply(digest, r.states[a], r.ops[a]).1 == Issued(Some(r.states[i].requests[k].id))
    ensures r.states[i].requests[k] == SetupRequest(r.ops[a].newId, r.ops[a].issuedAt, r.ops[a].issuedAt + PENDING_TTL)
  {
    hide Apply, LastAudited;
    assert i > 0 by {
      assert r.states[0].requests == map[];
    }
    RunInv(digest, r, i - 1);
    assert StepOk(digest, r, i - 1);
    StepRequest(digest, r.states[i - 1], r.ops[i - 1], k);
    if k in r.states[i - 1].requests && r.states[i - 1].requests[k] == r.states[i].requests[k] {
      a := RequestOrigin(digest, r, i - 1, k);
    } else {
      a := i - 1;
    }
  }

  /** A setup through a request was asked for by the same member for the same channel and provider, inside
      the request's lifetime, with no change of that tuple since the ask, even one that was undone. */
  lemma RequestedSetupIsLegitimate(digest: Digest, r: Run, j: nat, c: Tuple, at: int) returns (a: nat)
    requires ValidRun(digest, r) && j < |r.ops| && SetupAt(digest, r, j, c, at) && r.ops[j].issuance.FromRequest?
    ensures a < j && r.ops[a].IssueOp? && r.ops[a].newId == r.ops[j].issuance.id && r.ops[a].issuedAt == at
    ensures r.ops[a].tuple == c && r.ops[a].actor.user == r.ops[j].actor.user && r.ops[a].actor.team == r.ops[j].actor.team
    ensures at <= r.states[a].now && r.states[j].now < at + PENDING_TTL
    ensures forall m: nat {:trigger r.ops[m]} :: m < j && at <= r.states[m].now ==> !Changes(digest, r.states[m], r.ops[m], c)
  {
    hide Apply, Changes, LastAudited, Configure;
    a := RequestOrigin(digest, r, j, (c, r.ops[j].actor.user));
    assert StepOk(digest, r, a);
    assert StepOk(digest, r, j);
    hide SetupAt;
    forall m: nat {:trigger r.ops[m]} | m < j && at <= r.states[m].now ensures !Changes(digest, r.states[m], r.ops[m], c) {
      if Changes(digest, r.states[m], r.ops[m], c) {
        SetupIsNewest(digest, r, m, j, c, at);
        assert false;
      }
    }
  }

  /** A request sets up at most one credential. */
  lemma RequestSetsUpOnce(digest: Digest, r: Run, i: nat, j: nat, c: Tuple, d: Tuple, a: int, b: int)
    requires ValidRun(digest, r) && i < |r.ops| && j < |r.ops| && SetupAt(digest, r, i, c, a) && SetupAt(digest, r, j, d, b)
    requires r.ops[i].issuance.FromRequest? && r.ops[i].issuance == r.ops[j].issuance
    ensures i == j
  {
    if i < j {
      NoSecondSetup(digest, r, i, j, c, d, a, b);
    } else if j < i {
      NoSecondSetup(digest, r, j, i, d, c, b, a);
    }
  }

  lemma NoSecondSetup(digest: Digest, r: Run, i: nat, j: nat, c: Tuple, d: Tuple, a: int, b: int)
    requires ValidRun(digest, r) && i < j < |r.ops| && SetupAt(digest, r, i, c, a)
    requires r.ops[i].issuance.FromRequest? && r.ops[j].ConfigureOp? && r.ops[i].issuance == r.ops[j].issuance
    ensures !SetupAt(digest, r, j, d, b)
  {
    hide LastAudited, SetupBlocked;
    SpentRequest(digest, r, i, c, a);
    RequestStaysGone(digest, r, r.ops[i].issuance.id, i + 1, j);
    hide Apply, Configure;
  }

  lemma SpentRequest(digest: Digest, r: Run, i: nat, c: Tuple, a: int)
    requires ValidRun(digest, r) && i < |r.ops| && SetupAt(digest, r, i, c, a) && r.ops[i].issuance.FromRequest?
    ensures r.ops[i].issuance.id in r.states[i + 1].minted && !HasRequest(r.states[i + 1], r.ops[i].issuance.id)
  {
    hide LastAudited, SetupBlocked;
    RunInv(digest, r, i);
    RunGrows(digest, r, i, i + 1);
    assert StepOk(digest, r, i);
    var t, op := r.states[i], r.ops[i];
    ConfigureShape(digest, t, op.actor, c, op.issuance, op.newId);
    hide Configure, Apply;
    var k := (c, op.actor.user);
    var after := r.states[i + 1].requests;
    forall l | l in after ensures after[l].id != op.issuance.id {
      assert l in t.requests;
    }
  }
}
