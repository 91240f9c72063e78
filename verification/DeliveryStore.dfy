/** The delivery columns of the prompt rows, updated in place by the statements of `claimDelivery`,
    `confirmDelivery` and `abandonDelivery`. */
module DeliveryStore {
  import opened Base
  import opened Delivery

  class PromptTables {
    var now: nat
    var minted: set<Id>
    var prompts: map<Id, Prompt>

    constructor (now: nat)
      ensures this.now == now && Init(View())
    {
      this.now := now;
      minted := {};
      prompts := map[];
    }

    function View(): Tables
      reads this
    {
      Tables(now, minted, prompts)
    }

    ghost predicate Valid()
      reads this
    {
      Inv(View())
    }

    /** Other replicas commit: the next statement finds these tables. */
    method Advance(t: Tables)
      modifies this
      ensures View() == t
    {
      now, minted, prompts := t.now, t.minted, t.prompts;
    }

    /** UPDATE ... SET delivery_token WHERE claimable RETURNING id. */
    method TryClaim(id: Id, audience: Option<string>, redeliver: bool, token: Id) returns (claimed: bool)
      modifies this`prompts, this`minted
      ensures claimed == (Claim(old(View()), id, audience, redeliver, token).1 == Granted(token))
      ensures View() == if claimed then Claim(old(View()), id, audience, redeliver, token).0 else old(View())
    {
      claimed := id in prompts && Claimable(prompts[id], now, audience, redeliver);
      if claimed {
        prompts := prompts[id := Claimed(prompts[id], now, audience, token)];
        minted := minted + {token};
      }
    }

    /** Up to three attempts, each an UPDATE and, when it changed nothing, a SELECT that explains why, with other
        replicas committing between any two statements. A grant is one atomic claim at its UPDATE; every
        other answer writes nothing and is true of what the last SELECT found, except that three lost
        races read as in flight. */
    method ClaimDelivery(id: Id, audience: Option<string>, redeliver: bool, tokens: seq<Id>, found: seq<Tables>) returns (r: ClaimResult)
      requires |tokens| == 3 && |found| == 6 && forall i :: 0 <= i < 6 ==> Inv(found[i])
      modifies this
      ensures r.Granted? ==> exists a :: 0 <= a < 3 && (View(), r) == Claim(found[2 * a], id, audience, redeliver, tokens[a])
      ensures !r.Granted? ==> exists a :: 0 <= a < 3 && View() == found[2 * a + 1]
      ensures r.Stale? ==> !(id in prompts && Alive(prompts[id], now))
      ensures r.Delivered? ==> id in prompts && prompts[id].slot.deliveredAt.Some? && !OtherAudience(prompts[id], audience)
      ensures r.InFlight? ==> (
        || (id in prompts && Leased(prompts[id].slot, now))
        || forall a :: 0 <= a < 3 ==> !Claim(found[2 * a], id, audience, redeliver, tokens[a]).1.Granted?)
    {
      var attempt := 0;
      while attempt < 3
        invariant 0 <= attempt <= 3
        invariant attempt == 3 ==> View() == found[2 * 2 + 1]
        invariant forall a :: 0 <= a < attempt ==> !Claim(found[2 * a], id, audience, redeliver, tokens[a]).1.Granted?
      {
        Advance(found[2 * attempt]);
        var claimed := TryClaim(id, audience, redeliver, tokens[attempt]);
        if claimed {
          return Granted(tokens[attempt]);
        }
        Advance(found[2 * attempt + 1]);
        assert Inv(View());
        if id !in prompts || !Alive(prompts[id], now) {
          return Stale;
        }
        var slot := prompts[id].slot;
        if OtherAudience(prompts[id], audience) {
          if slot.token.Some? && slot.leaseUntil > now {
            return InFlight;
          }
        } else if slot.deliveredAt.Some? {
          return Delivered;
        } else if slot.leaseUntil > now {
          return InFlight;
        }
        attempt := attempt + 1;
      }
      return InFlight;
    }

    method ConfirmDelivery(id: Id, token: Id, audience: Option<string>) returns (ok: bool)
      requires Valid()
      modifies this`prompts
      ensures Valid() && (View(), ok) == Confirm(old(View()), id, token, audience)
    {
      StepKeepsInv(View(), ConfirmOp(id, token, audience));
      ok := id in prompts && Alive(prompts[id], now) && Holds(prompts[id], token, audience);
      if ok {
        prompts := prompts[id := prompts[id].(slot := Slot(None, 0, Some(now), prompts[id].slot.audience))];
      }
    }

    /** A definite rejection frees the lease, or removes a request nobody can see. */
    method AbandonDelivery(id: Id, token: Id, audience: Option<string>, remove: bool) returns (ok: bool)
      requires Valid()
      modifies this`prompts
      ensures Valid() && (View(), ok) == Abandon(old(View()), id, token, audience, remove)
    {
      StepKeepsInv(View(), AbandonOp(id, token, audience, remove));
      ok := id in prompts && Holds(prompts[id], token, audience);
      if ok {
        if remove && prompts[id].addressed {
          prompts := prompts - {id};
        } else {
          prompts := prompts[id := prompts[id].(slot := Slot(None, 0, None, prompts[id].slot.audience))];
        }
      }
    }
  }
}
