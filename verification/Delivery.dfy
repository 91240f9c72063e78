/** Cross-replica leases over Slack prompts: claim, confirm and abandon of src/core/approval.ts and
    src/core/consent.ts. An approval prompt is addressed to an audience; a Connect prompt is not. */
module Delivery {
  import opened Base

  datatype Slot = Slot(token: Option<Id>, leaseUntil: int, deliveredAt: Option<int>, audience: Option<string>)

  const FREE_SLOT := Slot(None, 0, None, None)

  /** The row behind a prompt. It is open while pending, or unspent and unsuperseded. */
  datatype Prompt = Prompt(addressed: bool, open: bool, lastAlive: int, slot: Slot)

  datatype Tables = Tables(now: nat, minted: set<Id>, prompts: map<Id, Prompt>)

  predicate Alive(p: Prompt, now: int) {
    p.open && now <= p.lastAlive
  }

  predicate OtherAudience(p: Prompt, audience: Option<string>) {
    p.addressed && p.slot.audience != audience
  }

  predicate Leased(slot: Slot, now: int) {
    slot.token.Some? && slot.leaseUntil > now
  }

  /** The WHERE clause of the claiming UPDATE. */
  predicate Claimable(p: Prompt, now: int, audience: Option<string>, redeliver: bool) {
    && Alive(p, now) && !Leased(p.slot, now)
    && (OtherAudience(p, audience) || p.slot.deliveredAt.None? || (redeliver && p.slot.deliveredAt.value <= now - REDELIVERY_DEBOUNCE))
  }

  function Claimed(p: Prompt, now: int, audience: Option<string>, token: Id): Prompt {
    p.(slot := Slot(Some(token), now + DELIVERY_LEASE, None, if p.addressed then audience else p.slot.audience))
  }

  datatype ClaimResult = Granted(token: Id) | Delivered | InFlight | Stale

  /** One claim at one instant. */
  function Claim(t: Tables, id: Id, audience: Option<string>, redeliver: bool, token: Id): (r: (Tables, ClaimResult))
    ensures r.0 == t.(minted := r.0.minted, prompts := r.0.prompts) && t.minted <= r.0.minted
  {
    if id !in t.prompts || !Alive(t.prompts[id], t.now) then (t, Stale)
    else
      var p := t.prompts[id];
      if Claimable(p, t.now, audience, redeliver)
      then (t.(prompts := t.prompts[id := Claimed(p, t.now, audience, token)], minted := t.minted + {token}), Granted(token))
      else if !OtherAudience(p, audience) && p.slot.deliveredAt.Some? then (t, Delivered)
      else (t, InFlight)
  }

  /** The token, and for an approval the audience, of the outstanding claim. */
  predicate Holds(p: Prompt, token: Id, audience: Option<string>) {
    p.open && p.slot.token == Some(token) && !OtherAudience(p, audience) && p.slot.deliveredAt.None?
  }

  function Confirm(t: Tables, id: Id, token: Id, audience: Option<string>): (r: (Tables, bool))
    ensures r.0 == t.(prompts := r.0.prompts)
  {
    if id in t.prompts && Alive(t.prompts[id], t.now) && Holds(t.prompts[id], token, audience)
    then (t.(prompts := t.prompts[id := t.prompts[id].(slot := Slot(None, 0, Some(t.now), t.prompts[id].slot.audience))]), true)
    else (t, false)
  }

  function Abandon(t: Tables, id: Id, token: Id, audience: Option<string>, remove: bool): (r: (Tables, bool))
    ensures r.0 == t.(prompts := r.0.prompts)
  {
    if id in t.prompts && Holds(t.prompts[id], token, audience) then
      (t.(prompts := if remove && t.prompts[id].addressed then t.prompts - {id}
                     else t.prompts[id := t.prompts[id].(slot := Slot(None, 0, None, t.prompts[id].slot.audience))]), true)
    else (t, false)
  }

  /** Exactly when a claim is granted, and what the other answers mean. A prompt that is alive can be claimed as soon as no lease
      runs, a lapsed lease included: always while undelivered, for another audience, and half a minute after its delivery if asked
      to deliver again. A grant writes only the slot. */
  lemma ClaimExact(t: Tables, id: Id, audience: Option<string>, redeliver: bool, token: Id)
    ensures var (t', r) := Claim(t, id, audience, redeliver, token);
      var alive := id in t.prompts && t.prompts[id].open && t.now <= t.prompts[id].lastAlive;
      && (r == Stale <==> !alive)
      && (alive ==>
           var p := t.prompts[id]; var other := p.addressed && p.slot.audience != audience; var delivered := p.slot.deliveredAt;
           var leased := p.slot.token.Some? && p.slot.leaseUntil > t.now;
           var due := !leased && (other || delivered.None? || (redeliver && delivered.value + REDELIVERY_DEBOUNCE <= t.now));
           && r == (if due then Granted(token) else if !other && delivered.Some? then Delivered else InFlight)
           && (r == InFlight ==> leased)
           && t' == if due then
                      t.(minted := t.minted + {token}, prompts := t.prompts[id := Prompt(p.addressed, true, p.lastAlive,
                         Slot(Some(token), t.now + DELIVERY_LEASE, None, if p.addressed then audience else p.slot.audience))])
                    else t)
      && (!alive ==> t' == t)
  {
  }

  /** The outstanding claim: this token holds the slot of an open prompt, for this audience. */
  ghost predicate Outstanding(t: Tables, id: Id, token: Id, audience: Option<string>) {
    && id in t.prompts && t.prompts[id].open && t.prompts[id].slot.token == Some(token) && t.prompts[id].slot.deliveredAt.None?
    && (t.prompts[id].addressed ==> t.prompts[id].slot.audience == audience)
  }

  /** A confirmation succeeds exactly for the outstanding claim on a prompt that is alive, and marks it delivered now. */
  lemma ConfirmExact(t: Tables, id: Id, token: Id, audience: Option<string>)
    ensures var (t', ok) := Confirm(t, id, token, audience);
      && (ok <==> Outstanding(t, id, token, audience) && t.now <= t.prompts[id].lastAlive)
      && t' == if ok then t.(prompts := t.prompts[id := t.prompts[id].(slot := Slot(None, 0, Some(t.now), t.prompts[id].slot.audience))]) else t
  {
  }

  /** A release succeeds exactly for the outstanding claim, lapsed or not, and frees the slot or takes the unseen request away. */
  lemma AbandonExact(t: Tables, id: Id, token: Id, audience: Option<string>, remove: bool)
    ensures var (t', ok) := Abandon(t, id, token, audience, remove);
      && (ok <==> Outstanding(t, id, token, audience))
      && t' == if !ok then t
               else if remove && t.prompts[id].addressed then t.(prompts := t.prompts - {id})
               else t.(prompts := t.prompts[id := t.prompts[id].(slot := Slot(None, 0, None, t.prompts[id].slot.audience))])
  {
  }

  // ---------------------------------------------------------------------------------------------
  // The machine
  // ---------------------------------------------------------------------------------------------

  datatype Op =
    | Tick(d: nat)
    | Post(id: Id, addressed: bool, lastAlive: int)     // a request or consent row is created or renewed under a new id
    | Close(id: Id)                                     // decided, spent or superseded
    | Delete(id: Id)
    | ClaimOp(id: Id, audience: Option<string>, redeliver: bool, token: Id)
    | ConfirmOp(id: Id, token: Id, audience: Option<string>)
    | AbandonOp(id: Id, token: Id, audience: Option<string>, remove: bool)

  datatype Outcome = Silent | ClaimedAs(result: ClaimResult) | Released(ok: bool)

  function Apply(t: Tables, op: Op): (Tables, Outcome)
    requires Enabled(t, op)
  {
    match op
    case Tick(d) => (t.(now := t.now + d), Silent)
    case Post(id, addressed, lastAlive) =>
      (t.(prompts := t.prompts[id := Prompt(addressed, true, lastAlive, FREE_SLOT)], minted := t.minted + {id}), Silent)
    case Close(id) => (t.(prompts := t.prompts[id := t.prompts[id].(open := false)]), Silent)
    case Delete(id) => (t.(prompts := t.prompts - {id}), Silent)
    case ClaimOp(id, audience, redeliver, token) => var r := Claim(t, id, audience, redeliver, token); (r.0, ClaimedAs(r.1))
    case ConfirmOp(id, token, audience) => var r := Confirm(t, id, token, audience); (r.0, Released(r.1))
    case AbandonOp(id, token, audience, remove) => var r := Abandon(t, id, token, audience, remove); (r.0, Released(r.1))
  }

  /** Ids and tokens are fresh. */
  predicate Enabled(t: Tables, op: Op) {
    match op
    case Post(id, _, _) => id !in t.minted
    case Close(id) => id in t.prompts
    case ClaimOp(_, _, _, token) => token !in t.minted
    case _ => true
  }

  predicate Init(t: Tables) {
    t.minted == {} && t.prompts == map[]
  }

  ghost predicate SlotOk(t: Tables, slot: Slot) {
    && (slot.token.None? ==> slot.leaseUntil == 0)
    && (slot.token.Some? ==> slot.token.value in t.minted && slot.deliveredAt.None?)
  }

  ghost predicate Inv(t: Tables) {
    forall id :: id in t.prompts ==> id in t.minted && SlotOk(t, t.prompts[id].slot)
  }

  lemma StepKeepsInv(t: Tables, op: Op)
    requires Inv(t) && Enabled(t, op)
    ensures Inv(Apply(t, op).0)
  {
  }

  datatype Run = Run(states: seq<Tables>, ops: seq<Op>)

  ghost predicate StepOk(r: Run, i: nat)
    requires i < |r.ops| && |r.states| == |r.ops| + 1
  {
    Enabled(r.states[i], r.ops[i]) && r.states[i + 1] == Apply(r.states[i], r.ops[i]).0
  }

  ghost predicate ValidRun(r: Run) {
    && |r.states| == |r.ops| + 1 && Init(r.states[0])
    && forall i: nat :: i < |r.ops| ==> StepOk(r, i)
  }

  lemma {:induction false} RunInv(r: Run, i: nat)
    requires ValidRun(r) && i <= |r.ops|
    ensures Inv(r.states[i])
  {
    hide Apply;
    if i > 0 {
      RunInv(r, i - 1);
      assert StepOk(r, i - 1);
      StepKeepsInv(r.states[i - 1], r.ops[i - 1]);
    }
  }

  lemma {:induction false} RunGrows(r: Run, i: nat, j: nat)
    requires ValidRun(r) && i <= j <= |r.ops|
    ensures r.states[i].now <= r.states[j].now && r.states[i].minted <= r.states[j].minted
    decreases j - i
  {
    if i < j {
      RunGrows(r, i, j - 1);
      assert StepOk(r, j - 1);
    }
  }

  // ---------------------------------------------------------------------------------------------
  // Events of a run
  // ---------------------------------------------------------------------------------------------

  ghost predicate ClaimAt(r: Run, i: nat, id: Id)
    requires ValidRun(r) && i < |r.ops|
  {
    && r.ops[i].ClaimOp? && r.ops[i].id == id && StepOk(r, i)
    && Apply(r.states[i], r.ops[i]).1 == ClaimedAs(Granted(r.ops[i].token))
  }

  ghost predicate ConfirmAt(r: Run, i: nat, id: Id)
    requires ValidRun(r) && i < |r.ops|
  {
    r.ops[i].ConfirmOp? && r.ops[i].id == id && StepOk(r, i) && Apply(r.states[i], r.ops[i]).1 == Released(true)
  }

  ghost predicate AbandonAt(r: Run, i: nat, id: Id)
    requires ValidRun(r) && i < |r.ops|
  {
    r.ops[i].AbandonOp? && r.ops[i].id == id && StepOk(r, i) && Apply(r.states[i], r.ops[i]).1 == Released(true)
  }

  ghost predicate TouchedAt(r: Run, i: nat, id: Id)
    requires ValidRun(r) && i < |r.ops|
  {
    ClaimAt(r, i, id) || ConfirmAt(r, i, id) || AbandonAt(r, i, id)
  }

  /** What a step leaves of one prompt: only these three events touch its slot. */
  lemma StepSlot(r: Run, i: nat, id: Id)
    requires ValidRun(r) && i < |r.ops| && id in r.states[i].prompts && id in r.states[i + 1].prompts
    ensures var p, q := r.states[i].prompts[id], r.states[i + 1].prompts[id];
      && q.addressed == p.addressed && q.lastAlive == p.lastAlive && (q.open ==> p.open)
      && (q.slot == p.slot || ClaimAt(r, i, id) || ConfirmAt(r, i, id) || AbandonAt(r, i, id))
      && (ClaimAt(r, i, id) ==> (
          && Claimable(p, r.states[i].now, r.ops[i].audience, r.ops[i].redeliver)
          && q == Claimed(p, r.states[i].now, r.ops[i].audience, r.ops[i].token)))
      && (ConfirmAt(r, i, id) ==> (
          && Holds(p, r.ops[i].token, r.ops[i].audience)
          && q.slot == Slot(None, 0, Some(r.states[i].now), p.slot.audience)))
      && (AbandonAt(r, i, id) ==> (
          && Holds(p, r.ops[i].token, r.ops[i].audience)
          && q.slot == Slot(None, 0, None, p.slot.audience)))
  {
    RunInv(r, i);
    assert StepOk(r, i);
  }

  lemma StepPresence(r: Run, i: nat, id: Id)
    requires ValidRun(r) && i < |r.ops| && id in r.states[i + 1].prompts
    ensures id in r.states[i].prompts || (id !in r.states[i].minted && r.states[i + 1].prompts[id].slot == FREE_SLOT)
    ensures ClaimAt(r, i, id) || ConfirmAt(r, i, id) || AbandonAt(r, i, id) ==> id in r.states[i].prompts
  {
    assert StepOk(r, i);
  }

  lemma {:induction false} PresentSince(r: Run, i: nat, j: nat, id: Id)
    requires ValidRun(r) && i <= j <= |r.ops| && id in r.states[i].prompts && id in r.states[j].prompts
    ensures forall m :: i <= m <= j ==> id in r.states[m].prompts
    decreases j - i
  {
    hide Apply;
    if i < j {
      StepPresence(r, j - 1, id);
      RunInv(r, i);
      RunGrows(r, i, j - 1);
      PresentSince(r, i, j - 1, id);
    }
  }

  // ---------------------------------------------------------------------------------------------
  // Theorems
  // ---------------------------------------------------------------------------------------------

  /** The claim granted at step `i` is still out at state `m`: unexpired, and not confirmed or abandoned. */
  ghost predicate OutstandingAt(r: Run, i: nat, m: nat, id: Id)
    requires ValidRun(r)
  {
    && i < m <= |r.ops| && ClaimAt(r, i, id) && id in r.states[m].prompts
    && r.states[m].now < r.states[i].now + DELIVERY_LEASE
    && forall k: nat {:trigger r.ops[k]} :: i < k < m && (ConfirmAt(r, k, id) || AbandonAt(r, k, id)) ==> r.ops[k].token != r.ops[i].token
  }

  lemma {:induction false} OutstandingOwnsSlot(r: Run, i: nat, m: nat, id: Id)
    requires ValidRun(r) && OutstandingAt(r, i, m, id)
    ensures r.states[m].prompts[id].slot.token == Some(r.ops[i].token)
    ensures r.states[m].prompts[id].slot.leaseUntil == r.states[i].now + DELIVERY_LEASE
    decreases m
  {
    hide Apply, ClaimAt, ConfirmAt, AbandonAt, StepOk;
    ClaimedPresent(r, i, id);
    PresentSince(r, i, m, id);
    StepSlot(r, m - 1, id);
    if i < m - 1 {
      RunGrows(r, m - 1, m);
      OutstandingOwnsSlot(r, i, m - 1, id);
    }
  }

  lemma ClaimedPresent(r: Run, i: nat, id: Id)
    requires ValidRun(r) && i < |r.ops| && (ClaimAt(r, i, id) || ConfirmAt(r, i, id))
    ensures id in r.states[i].prompts && id in r.states[i + 1].prompts
  {
  }

  /** At any instant at most one claim on a prompt is outstanding. */
  lemma OneOutstandingClaim(r: Run, i: nat, j: nat, m: nat, id: Id)
    requires ValidRun(r) && OutstandingAt(r, i, m, id) && OutstandingAt(r, j, m, id)
    ensures i == j
  {
    OutstandingOwnsSlot(r, i, m, id);
    OutstandingOwnsSlot(r, j, m, id);
    TokensAreFresh(r, Min(i, j), Max(i, j), id);
  }

  lemma TokensAreFresh(r: Run, i: nat, j: nat, id: Id)
    requires ValidRun(r) && i <= j < |r.ops| && ClaimAt(r, i, id) && ClaimAt(r, j, id)
    ensures r.ops[i].token == r.ops[j].token ==> i == j
  {
    if i < j {
      RunGrows(r, i + 1, j);
    }
  }

  /** The slot's token names the newest granted claim, made for the slot's audience and not yet released. */
  lemma {:induction false} TokenIsLatest(r: Run, m: nat, id: Id) returns (i: nat)
    requires ValidRun(r) && m <= |r.ops| && id in r.states[m].prompts && r.states[m].prompts[id].slot.token.Some?
    ensures i < m && ClaimAt(r, i, id) && r.ops[i].token == r.states[m].prompts[id].slot.token.value
    ensures r.states[m].prompts[id].addressed ==> r.ops[i].audience == r.states[m].prompts[id].slot.audience
    ensures forall k: nat :: i < k < m ==> !TouchedAt(r, k, id)
  {
    hide Apply, ClaimAt, ConfirmAt, AbandonAt, StepOk;
    assert m > 0 by {
      assert r.states[0].prompts == map[];
    }
    StepPresence(r, m - 1, id);
    StepSlot(r, m - 1, id);
    if ClaimAt(r, m - 1, id) {
      i := m - 1;
    } else {
      i := TokenIsLatest(r, m - 1, id);
    }
  }

  /** A confirmation or release succeeds only for the latest claim, and for an approval only under the
      audience it was claimed for. */
  lemma ReleaseIsByLatestClaim(r: Run, m: nat, id: Id) returns (i: nat)
    requires ValidRun(r) && m < |r.ops| && (ConfirmAt(r, m, id) || AbandonAt(r, m, id))
    ensures i < m && ClaimAt(r, i, id) && r.ops[i].token == r.ops[m].token
    ensures id in r.states[m].prompts && (r.states[m].prompts[id].addressed ==> r.ops[i].audience == r.ops[m].audience)
    ensures forall k: nat :: i < k < m ==> !TouchedAt(r, k, id)
  {
    assert id in r.states[m].prompts && Holds(r.states[m].prompts[id], r.ops[m].token, r.ops[m].audience);
    hide Apply, ClaimAt, ConfirmAt, AbandonAt;
    i := TokenIsLatest(r, m, id);
  }

  /** A delivered mark was set by a confirmation for the audience the row now carries: a new audience starts
      undelivered. */
  lemma {:induction false} DeliveredToThisAudience(r: Run, m: nat, id: Id) returns (k: nat)
    requires ValidRun(r) && m <= |r.ops| && id in r.states[m].prompts && r.states[m].prompts[id].slot.deliveredAt.Some?
    ensures k < m && ConfirmAt(r, k, id) && r.states[m].prompts[id].slot.deliveredAt == Some(r.states[k].now)
    ensures r.states[m].prompts[id].addressed ==> r.ops[k].audience == r.states[m].prompts[id].slot.audience
  {
    hide Apply, ClaimAt, ConfirmAt, AbandonAt, StepOk;
    assert m > 0 by {
      assert r.states[0].prompts == map[];
    }
    StepPresence(r, m - 1, id);
    StepSlot(r, m - 1, id);
    if ConfirmAt(r, m - 1, id) {
      k := m - 1;
    } else {
      k := DeliveredToThisAudience(r, m - 1, id);
    }
  }

  /** A claim answered `delivered` means that this very audience had a confirmed delivery. */
  lemma DeliveredAnswerIsTrue(r: Run, m: nat) returns (k: nat)
    requires ValidRun(r) && m < |r.ops| && r.ops[m].ClaimOp?
    requires StepOk(r, m) && Apply(r.states[m], r.ops[m]).1 == ClaimedAs(Delivered)
    ensures k < m && ConfirmAt(r, k, r.ops[m].id)
    ensures r.ops[m].id in r.states[m].prompts && (r.states[m].prompts[r.ops[m].id].addressed ==> r.ops[k].audience == r.ops[m].audience)
  {
    var id := r.ops[m].id;
    assert id in r.states[m].prompts && r.states[m].prompts[id].slot.deliveredAt.Some? && !OtherAudience(r.states[m].prompts[id], r.ops[m].audience);
    hide Apply, ConfirmAt;
    k := DeliveredToThisAudience(r, m, id);
  }

  /** Every claim on the prompt asks for no redelivery and addresses the one audience. */
  ghost predicate NoRedelivery(r: Run, id: Id, audience: Option<string>) {
    forall k: nat {:trigger r.ops[k]} :: k < |r.ops| && r.ops[k].ClaimOp? && r.ops[k].id == id ==>
      !r.ops[k].redeliver && r.ops[k].audience == audience
  }

  lemma {:induction false} StaysDelivered(r: Run, i: nat, m: nat, id: Id, audience: Option<string>)
    requires ValidRun(r) && i < m <= |r.ops| && ConfirmAt(r, i, id) && NoRedelivery(r, id, audience) && id in r.states[m].prompts
    requires id in r.states[i].prompts && (r.states[i].prompts[id].addressed ==> r.ops[i].audience == audience)
    ensures var p := r.states[m].prompts[id];
      p.slot.deliveredAt.Some? && p.slot.token.None? && !OtherAudience(p, audience)
    decreases m
  {
    ClaimsAreClaims(r, m - 1, id);
    hide Apply, ClaimAt, ConfirmAt, AbandonAt, StepOk;
    ClaimedPresent(r, i, id);
    PresentSince(r, i, m, id);
    StepSlot(r, m - 1, id);
    if i < m - 1 {
      StaysDelivered(r, i, m - 1, id, audience);
    }
  }

  lemma ClaimsAreClaims(r: Run, i: nat, id: Id)
    requires ValidRun(r) && i < |r.ops|
    ensures ClaimAt(r, i, id) ==> r.ops[i].ClaimOp? && r.ops[i].id == id
  {
  }

  /** With redelivery off, at most one confirmation per Connect state ever succeeds, and likewise per approval
      while its audience does not change. */
  lemma ConfirmedOnce(r: Run, i: nat, j: nat, id: Id, audience: Option<string>)
    requires ValidRun(r) && i < |r.ops| && j < |r.ops| && ConfirmAt(r, i, id) && ConfirmAt(r, j, id) && NoRedelivery(r, id, audience)
    requires id in r.states[i].prompts && (r.states[i].prompts[id].addressed ==> r.ops[i].audience == audience)
    requires id in r.states[j].prompts && (r.states[j].prompts[id].addressed ==> r.ops[j].audience == audience)
    ensures i == j
  {
    ConfirmHolds(r, i, id);
    ConfirmHolds(r, j, id);
    hide Apply, ConfirmAt;
    if i < j {
      StaysDelivered(r, i, j, id, audience);
    }
    if j < i {
      StaysDelivered(r, j, i, id, audience);
    }
  }

  lemma ConfirmHolds(r: Run, i: nat, id: Id)
    requires ValidRun(r) && i < |r.ops| && ConfirmAt(r, i, id)
    ensures id in r.states[i].prompts && r.states[i].prompts[id].slot.token.Some?
  {
  }
}
