/** The advisory-lock table as PostgreSQL keeps it, and the batch acquisition of src/core/db.ts over it. */
module LockStore {
  import opened Base
  import opened Locks

  class LockTable {
    const hash: Hash
    ghost const keys: set<string>
    var txs: System

    constructor (hash: Hash, ghost keys: set<string>)
      ensures this.hash == hash && this.keys == keys && Valid() && txs == map[]
    {
      this.hash := hash;
      this.keys := keys;
      txs := map[];
    }

    ghost predicate Valid()
      reads this
    {
      Inv(hash, keys, txs)
    }

    method Open(id: nat)
      requires Valid() && id !in txs
      modifies this
      ensures Valid() && txs == old(txs)[id := Tx([], None)]
    {
      StepKeepsInv(hash, keys, txs, Begin(id));
      txs := txs[id := Tx([], None)];
    }

    /** One lock call: taken at once when the slot is free, else the transaction is left waiting. */
    method Lock(id: nat, k: string) returns (granted: bool)
      requires Valid() && id in txs && txs[id].want.None? && k in keys && Follows(txs[id].held, k)
      modifies this
      ensures Valid() && granted == Free(hash, old(txs), id, hash(k))
      ensures txs == old(txs)[id := if granted then Tx(old(txs)[id].held + [k], None) else Tx(old(txs)[id].held, Some(k))]
    {
      hide Follows, Free;
      StepKeepsInv(hash, keys, txs, Request(id, k));
      var waiting := txs[id := txs[id].(want := Some(k))];
      granted := Free(hash, txs, id, hash(k));
      FreeUnchanged(hash, txs, waiting, id, hash(k));
      txs := waiting;
      if granted {
        StepKeepsInv(hash, keys, txs, Grant(id));
        txs := txs[id := Tx(txs[id].held + [k], None)];
      }
    }

    /** `acquireXactLocks`: the canonical keys in order. Either all are taken, or the transaction holds exactly
        the ones before the first occupied slot and waits there. */
    method AcquireXactLocks(id: nat, batch: seq<string>) returns (waitsFor: Option<string>)
      requires Valid() && id in txs && txs[id].want.None?
      requires forall k :: k in batch ==> k in keys
      requires forall i :: 0 <= i < |Canonical(batch)| ==> Follows(txs[id].held + Canonical(batch)[..i], Canonical(batch)[i])
      modifies this
      ensures Valid()
      ensures waitsFor.None? ==> txs == old(txs)[id := Tx(old(txs)[id].held + Canonical(batch), None)]
      ensures waitsFor.Some? ==> exists n :: (
        && 0 <= n < |Canonical(batch)| && Canonical(batch)[n] == waitsFor.value
        && txs == old(txs)[id := Tx(old(txs)[id].held + Canonical(batch)[..n], waitsFor)]
        && !Free(hash, txs, id, hash(waitsFor.value)))
    {
      CanonicalExact(batch);
      var order := Canonical(batch);
      hide Canonical, Follows, Inv;
      ghost var start := txs;
      var i := 0;
      assert start[id].held + order[..0] == start[id].held;
      assert start[id := start[id]] == start;
      while i < |order|
        invariant 0 <= i <= |order| && Valid()
        invariant txs == start[id := Tx(start[id].held + order[..i], None)]
      {
        assert order[i] in order;
        ghost var before := txs;
        var granted := Lock(id, order[i]);
        if !granted {
          FreeUnchanged(hash, before, txs, id, hash(order[i]));
          return Some(order[i]);
        }
        assert order[..i + 1] == order[..i] + [order[i]];
        assert start[id].held + order[..i] + [order[i]] == start[id].held + order[..i + 1];
        i := i + 1;
      }
      assert order[..i] == order;
      return None;
    }

    /** COMMIT or ROLLBACK: every lock of the transaction goes at once. */
    method Close(id: nat)
      requires Valid() && id in txs
      modifies this
      ensures Valid() && txs == old(txs) - {id}
    {
      StepKeepsInv(hash, keys, txs, End(id));
      txs := txs - {id};
    }
  }

  /** Whether a slot is free for a transaction does not depend on that transaction itself. */
  lemma FreeUnchanged(h: Hash, s: System, s': System, id: nat, slot: int)
    requires id in s && id in s' && s' == s[id := s'[id]]
    ensures Free(h, s', id, slot) == Free(h, s, id, slot)
  {
    forall other ensures other in s' && other != id ==> HoldsSlot(h, s'[other], slot) == HoldsSlot(h, s[other], slot) {
      assert other in s' && other != id ==> other in s && s'[other] == s[other];
    }
    assert forall other :: other in s ==> other in s';
  }
}
